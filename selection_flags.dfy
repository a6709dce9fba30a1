/**
 * The renderer's selection flags as the tool context reads them: a packed
 * `uint[]` holding one bit per splat, bit `i & 31` of word `i >> 5` for splat `i`.
 * For the non-negative indices the tool uses, `i >> 5` is `i / 32` and `i & 31`
 * is `i % 32`; the bit test itself is done on 32-bit words.
 */
module SelectionFlags {

  /** The word that holds splat i's flag (`i >> 5`). */
  function WordIndex(i: nat): nat { i / 32 }

  /** The position of splat i's flag inside its word (`i & 31`). */
  function BitIndex(i: nat): nat { i % 32 }

  /** Every splat below 32 * |flags| has its flag inside the array. */
  lemma IndexInBounds(flags: seq<bv32>, i: nat)
    requires i < 32 * |flags|
    ensures WordIndex(i) < |flags| && BitIndex(i) < 32
    ensures i == 32 * WordIndex(i) + BitIndex(i)
  {
  }

  /** `(selectionFlags[i >> 5] & (1u << (i & 31))) != 0` */
  predicate IsSelected(flags: seq<bv32>, i: nat)
    requires i < 32 * |flags|
  {
    IndexInBounds(flags, i);
    flags[WordIndex(i)] & ((1 as bv32) << BitIndex(i)) != 0
  }

  /** The selected splats among the first n, in increasing order. */
  function SelectedIndices(flags: seq<bv32>, n: nat): seq<nat>
    requires n <= 32 * |flags|
  {
    if n == 0 then []
    else SelectedIndices(flags, n - 1) + (if IsSelected(flags, n - 1) then [n - 1] else [])
  }

  /** The selected splats among the first n, as a set. */
  function SelectedSet(flags: seq<bv32>, n: nat): set<nat>
    requires n <= 32 * |flags|
  {
    set i: nat | i < n && IsSelected(flags, i)
  }

  /** Every listed splat lies below n. */
  lemma {:induction false} SelectedIndicesBelow(flags: seq<bv32>, n: nat)
    requires n <= 32 * |flags|
    ensures forall k :: 0 <= k < |SelectedIndices(flags, n)| ==> SelectedIndices(flags, n)[k] < n
  {
    if n > 0 {
      SelectedIndicesBelow(flags, n - 1);
    }
  }

  /**
   * SelectedIndices lists exactly the selected splats below n, each once and
   * in increasing order.
   */
  lemma {:induction false} SelectedIndicesExact(flags: seq<bv32>, n: nat)
    requires n <= 32 * |flags|
    ensures forall k :: 0 <= k < |SelectedIndices(flags, n)| ==>
      SelectedIndices(flags, n)[k] < n && IsSelected(flags, SelectedIndices(flags, n)[k])
    ensures forall k, l :: 0 <= k < l < |SelectedIndices(flags, n)| ==>
      SelectedIndices(flags, n)[k] < SelectedIndices(flags, n)[l]
    ensures forall i: nat :: i < n && IsSelected(flags, i) ==> i in SelectedIndices(flags, n)
  {
    if n > 0 {
      SelectedIndicesExact(flags, n - 1);
    }
  }

  /** The number of listed splats is the number of selected splats. */
  lemma {:induction false} SelectedCount(flags: seq<bv32>, n: nat)
    requires n <= 32 * |flags|
    ensures |SelectedIndices(flags, n)| == |SelectedSet(flags, n)|
  {
    if n > 0 {
      SelectedCount(flags, n - 1);
      var prev, next := SelectedSet(flags, n - 1), SelectedSet(flags, n);
      var added: set<nat> := if IsSelected(flags, n - 1) then {n - 1} else {};
      forall i: nat
        ensures i in next <==> i in prev + added
      {
      }
      assert next == prev + added;
      assert prev !! added;
    } else {
      assert SelectedSet(flags, n) == {};
    }
  }

  /** Scanning further only appends: the list for m is a prefix of the list for n. */
  lemma {:induction false} SelectedIndicesPrefix(flags: seq<bv32>, m: nat, n: nat)
    requires m <= n <= 32 * |flags|
    ensures |SelectedIndices(flags, m)| <= |SelectedIndices(flags, n)|
    ensures SelectedIndices(flags, m) == SelectedIndices(flags, n)[..|SelectedIndices(flags, m)|]
    decreases n - m
  {
    if m < n {
      SelectedIndicesPrefix(flags, m, n - 1);
    }
  }

  /** With every word zero nothing is selected; with every word all-ones, everything is. */
  lemma {:induction false} SelectedIndicesOfUniformFlags(flags: seq<bv32>, n: nat)
    requires n <= 32 * |flags|
    ensures (forall w :: 0 <= w < |flags| ==> flags[w] == 0) ==> SelectedIndices(flags, n) == []
    ensures (forall w :: 0 <= w < |flags| ==> flags[w] == 0xFFFF_FFFF) ==>
      SelectedIndices(flags, n) == seq(n, i => i)
  {
    if n > 0 {
      SelectedIndicesOfUniformFlags(flags, n - 1);
      IndexInBounds(flags, n - 1);
      var b := BitIndex(n - 1);
      assert (0 as bv32) & ((1 as bv32) << b) == 0;
      assert (0xFFFF_FFFF as bv32) & ((1 as bv32) << b) != 0;
    }
  }
}
