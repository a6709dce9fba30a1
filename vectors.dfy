/**
 * Unity's value types as the editor scripts use them: Vector2, Vector3 and Rect,
 * with the component-wise arithmetic the scripts apply to them. Components are
 * `real`: floating-point rounding is not modelled.
 */
module Vectors {

  datatype Vec2 = Vec2(x: real, y: real)

  datatype Vec3 = Vec3(x: real, y: real, z: real)

  /** Unity's Rect: a corner plus a size. */
  datatype Rect = Rect(x: real, y: real, width: real, height: real)

  const Zero2: Vec2 := Vec2(0.0, 0.0)

  const Zero3: Vec3 := Vec3(0.0, 0.0, 0.0)

  function Min(a: real, b: real): real { if a <= b then a else b }

  function Max(a: real, b: real): real { if a <= b then b else a }

  /** Vector3 + Vector3 */
  function Add(u: Vec3, v: Vec3): Vec3 { Vec3(u.x + v.x, u.y + v.y, u.z + v.z) }

  /** Vector3 / float */
  function Div(v: Vec3, d: real): Vec3
    requires d != 0.0
  {
    Vec3(v.x / d, v.y / d, v.z / d)
  }

  /** Rect.min and Rect.max for a rectangle whose size is not negative. */
  function RectMin(r: Rect): Vec2 { Vec2(r.x, r.y) }

  function RectMax(r: Rect): Vec2 { Vec2(r.x + r.width, r.y + r.height) }

  /** The closed rectangle holds the point. */
  predicate Contains(r: Rect, p: Vec2)
  {
    r.x <= p.x <= r.x + r.width && r.y <= p.y <= r.y + r.height
  }

  /** What `v = Vector3.zero; foreach (p in ps) v += p;` leaves in `v`. */
  function Sum(ps: seq<Vec3>): Vec3
  {
    if |ps| == 0 then Zero3 else Add(Sum(ps[..|ps| - 1]), ps[|ps| - 1])
  }

  /** The arithmetic mean of a non-empty list of positions. */
  function Centroid(ps: seq<Vec3>): Vec3
    requires |ps| > 0
  {
    Div(Sum(ps), |ps| as real)
  }

  /** Appending one position adds it to the running sum. */
  lemma SumAppend(ps: seq<Vec3>, p: Vec3)
    ensures Sum(ps + [p]) == Add(Sum(ps), p)
  {
  }

  /** The order of summation does not matter: a permutation has the same sum. */
  lemma {:induction false} SumPermutation(ps: seq<Vec3>, qs: seq<Vec3>)
    requires multiset(ps) == multiset(qs)
    ensures Sum(ps) == Sum(qs)
    decreases |ps|
  {
    if |ps| > 0 {
      var last := ps[|ps| - 1];
      assert ps == ps[..|ps| - 1] + [last];
      assert last in multiset(qs);
      var k :| 0 <= k < |qs| && qs[k] == last;
      var rest := qs[..k] + qs[k + 1..];
      assert qs == qs[..k] + [last] + qs[k + 1..];
      assert multiset(rest) == multiset(qs[..k]) + multiset(qs[k + 1..]);
      assert multiset(qs) == multiset(qs[..k]) + multiset{last} + multiset(qs[k + 1..]);
      assert multiset(qs) == multiset(rest) + multiset{last};
      assert multiset(ps) == multiset(ps[..|ps| - 1]) + multiset{last};
      assert multiset(ps[..|ps| - 1]) == multiset(ps) - multiset{last};
      assert multiset(rest) == multiset(qs) - multiset{last};
      SumPermutation(ps[..|ps| - 1], rest);
      SumMoveToEnd(qs, k);
    } else {
      assert qs == [];
    }
  }

  /** Moving one element to the end does not change the sum. */
  lemma {:induction false} SumMoveToEnd(qs: seq<Vec3>, k: nat)
    requires k < |qs|
    ensures Sum(qs) == Add(Sum(qs[..k] + qs[k + 1..]), qs[k])
    decreases |qs|
  {
    var n := |qs|;
    if k < n - 1 {
      var init := qs[..n - 1];
      SumMoveToEnd(init, k);
      assert init[..k] + init[k + 1..] == (qs[..k] + qs[k + 1..])[..n - 2];
      assert (qs[..k] + qs[k + 1..])[n - 2] == qs[n - 1];
    } else {
      assert qs[..k] + qs[k + 1..] == qs[..n - 1];
    }
  }

  /** The centroid of one position is that position. */
  lemma CentroidOfOne(p: Vec3)
    ensures Centroid([p]) == p
  {
    assert [p][..0] == [];
    assert Sum([p]) == Add(Zero3, p);
  }

  /** The centroid of four positions, written out component by component. */
  lemma CentroidOfFour(ps: seq<Vec3>)
    requires |ps| == 4
    ensures Centroid(ps).x == (ps[0].x + ps[1].x + ps[2].x + ps[3].x) / 4.0
    ensures Centroid(ps).y == (ps[0].y + ps[1].y + ps[2].y + ps[3].y) / 4.0
    ensures Centroid(ps).z == (ps[0].z + ps[1].z + ps[2].z + ps[3].z) / 4.0
  {
    var s1 := Add(Zero3, ps[0]);
    var s2 := Add(s1, ps[1]);
    var s3 := Add(s2, ps[2]);
    assert Sum(ps[..1]) == s1 by { assert ps[..1][..0] == []; }
    assert Sum(ps[..2]) == s2 by { assert ps[..2][..1] == ps[..1]; }
    assert Sum(ps[..3]) == s3 by { assert ps[..3][..2] == ps[..2]; }
    assert Sum(ps) == Add(s3, ps[3]);
  }
}
