/**
 * Building a quad "wall" from four selected markers: check the count, average
 * the positions, sort them in place by their polar angle around that centre in
 * the horizontal (x, z) plane, log the length of every edge of the resulting
 * ring, and emit a mesh whose vertices are the sorted positions and whose
 * triangles are the fixed fan over vertex 0.
 *
 * `atan2` stands for Mathf.Atan2; no property of it is assumed, so the sort is
 * proved for whatever angle it gives.
 */
module WallGenerator {
  import opened Vectors

  /** The number of markers a wall needs. */
  const RequiredMarkers: nat := 4

  /** One logged edge of the ring: from vertex `from` to vertex `to`. */
  datatype Edge = Edge(from: nat, to: nat)

  datatype Mesh = Mesh(vertices: seq<Vec3>, triangles: seq<int>)

  datatype WallOutcome =
    | WrongMarkerCount(count: nat)   // warning logged, nothing built
    | Wall(mesh: Mesh, edges: seq<Edge>)

  // ---------------------------------------------------------------- triangulation

  /**
   * The triangle index list: two triangles of the quad, (0, 1, 2) and (0, 2, 3),
   * a fan around vertex 0 that splits the quad along its diagonal 0-2.
   */
  function FanTriangles(): (t: seq<int>)
    ensures |t| == 6 && forall k :: 0 <= k < |t| ==> 0 <= t[k] < RequiredMarkers
    ensures t[0] == t[3] == 0 && t[2] == t[4]
    ensures forall v :: 0 <= v < RequiredMarkers ==> v in t
  {
    var t := [0, 1, 2, 0, 2, 3];
    t
  }

  // ---------------------------------------------------------------- angle sort

  /** The sort key: `Mathf.Atan2(p.z - c.z, p.x - c.x)`. */
  function AngleKey(atan2: (real, real) -> real, c: Vec3, p: Vec3): real
  {
    atan2(p.z - c.z, p.x - c.x)
  }

  /** The key never decreases along s. */
  predicate SortedBy(s: seq<Vec3>, key: Vec3 -> real)
  {
    forall i, j :: 0 <= i < j < |s| ==> key(s[i]) <= key(s[j])
  }

  /**
   * `List.Sort` with a comparer on the key, in place: afterwards the key is
   * non-decreasing and the list holds the same positions. (.NET sorts lists this
   * short by insertion; the order of equal keys is not promised.)
   */
  method SortByKey(a: array<Vec3>, key: Vec3 -> real)
    modifies a
    ensures SortedBy(a[..], key)
    ensures multiset(a[..]) == multiset(old(a[..]))
  {
    var i := 0;
    while i < a.Length
      invariant 0 <= i <= a.Length
      invariant SortedBy(a[..i], key)
      invariant multiset(a[..]) == multiset(old(a[..]))
    {
      InsertIntoSorted(a, i, key);
      i := i + 1;
    }
    assert a[..a.Length] == a[..];
  }

  /**
   * One insertion step: moves a[i] down past the larger keys before it, so that
   * a[..i + 1] is sorted; the rest of the array is untouched.
   */
  method InsertIntoSorted(a: array<Vec3>, i: nat, key: Vec3 -> real)
    requires i < a.Length
    requires SortedBy(a[..i], key)
    modifies a
    ensures SortedBy(a[..i + 1], key)
    ensures multiset(a[..]) == multiset(old(a[..]))
  {
    var j := i;
    while j > 0 && key(a[j - 1]) > key(a[j])
      invariant 0 <= j <= i
      invariant forall p, q :: 0 <= p < q <= i && p != j && q != j ==> key(a[p]) <= key(a[q])
      invariant forall q :: j < q <= i ==> key(a[j]) <= key(a[q])
      invariant multiset(a[..]) == multiset(old(a[..]))
    {
      SwapAdjacent(a, j);
      j := j - 1;
    }
  }

  /** Exchanges a[j - 1] and a[j]. */
  method SwapAdjacent(a: array<Vec3>, j: nat)
    requires 0 < j < a.Length
    modifies a
    ensures a[j - 1] == old(a[j]) && a[j] == old(a[j - 1])
    ensures forall k :: 0 <= k < a.Length && k != j - 1 && k != j ==> a[k] == old(a[k])
    ensures multiset(a[..]) == multiset(old(a[..]))
  {
    a[j - 1], a[j] := a[j], a[j - 1];
  }

  // ---------------------------------------------------------------- edge ring

  /** Every vertex paired with the next one around the ring: `(i, (i + 1) % n)`. */
  function RingEdges(n: nat): seq<Edge>
  {
    seq(n, i requires 0 <= i < n => Edge(i, (i + 1) % n))
  }

  function Starts(edges: seq<Edge>): seq<nat>
  {
    seq(|edges|, k requires 0 <= k < |edges| => edges[k].from)
  }

  function Ends(edges: seq<Edge>): seq<nat>
  {
    seq(|edges|, k requires 0 <= k < |edges| => edges[k].to)
  }

  function Indices(n: nat): seq<nat>
  {
    seq(n, i requires 0 <= i < n => i)
  }

  lemma {:induction false} IndicesOnce(n: nat)
    ensures forall v: nat :: multiset(Indices(n))[v] == if v < n then 1 else 0
  {
    if n > 0 {
      IndicesOnce(n - 1);
      assert Indices(n) == Indices(n - 1) + [n - 1];
    } else {
      assert Indices(n) == [];
    }
  }

  /**
   * Every edge of the ring stays inside the vertex list, and every vertex is the
   * start of exactly one edge and the end of exactly one edge.
   */
  lemma RingEdgesVisitEachVertexOnce(n: nat)
    ensures forall k :: 0 <= k < n ==> RingEdges(n)[k].from < n && RingEdges(n)[k].to < n
    ensures forall v: nat :: multiset(Starts(RingEdges(n)))[v] == if v < n then 1 else 0
    ensures forall v: nat :: multiset(Ends(RingEdges(n)))[v] == if v < n then 1 else 0
  {
    IndicesOnce(n);
    assert Starts(RingEdges(n)) == Indices(n);
    RingEndsPermuteIndices(n);
  }

  /** The ends are the indices rotated by one place. */
  lemma RingEndsPermuteIndices(n: nat)
    ensures multiset(Ends(RingEdges(n))) == multiset(Indices(n))
  {
    var ends, ix := Ends(RingEdges(n)), Indices(n);
    if n > 0 {
      assert ends == ix[1..] + [ix[0]];
      assert ix == [ix[0]] + ix[1..];
    } else {
      assert ends == ix;
    }
  }

  /**
   * The edge-length loop: visits each vertex with its successor around the ring
   * and logs the distance between them; returns the edges it logged.
   */
  method LogEdgeLengths(positions: array<Vec3>) returns (edges: seq<Edge>)
    ensures edges == RingEdges(positions.Length)
  {
    var n := positions.Length;
    edges := [];
    for i := 0 to n
      invariant edges == RingEdges(n)[..i]
    {
      var p1 := positions[i];
      var p2 := positions[(i + 1) % n];
      // Vector3.Distance(p1, p2) is logged
      edges := edges + [Edge(i, (i + 1) % n)];
    }
    assert RingEdges(n)[..n] == RingEdges(n);
  }

  // ---------------------------------------------------------------- the wall

  /** `foreach (var pos in positions) center += pos;` */
  method SumPositions(positions: array<Vec3>) returns (center: Vec3)
    ensures center == Sum(positions[..])
  {
    center := Zero3;
    for i := 0 to positions.Length
      invariant center == Sum(positions[..i])
    {
      assert positions[..i + 1] == positions[..i] + [positions[i]];
      SumAppend(positions[..i], positions[i]);
      center := Add(center, positions[i]);
    }
    assert positions[..positions.Length] == positions[..];
  }

  /**
   * GenerateWallFromCenters, given the positions of the selected markers: any
   * count other than four builds nothing; four give a mesh whose vertices are
   * those positions ordered by angle around their centroid, with the fan
   * triangles, after logging the four edges of the ring.
   */
  method GenerateWallFromCenters(selected: seq<Vec3>, atan2: (real, real) -> real) returns (r: WallOutcome)
    ensures r.WrongMarkerCount? <==> |selected| != RequiredMarkers
    ensures r.WrongMarkerCount? ==> r.count == |selected|
    ensures r.Wall? ==>
      && |r.mesh.vertices| == RequiredMarkers
      && multiset(r.mesh.vertices) == multiset(selected)
      && Centroid(r.mesh.vertices) == Centroid(selected)
      && SortedBy(r.mesh.vertices, p => AngleKey(atan2, Centroid(selected), p))
      && r.mesh.triangles == FanTriangles()
      && r.edges == RingEdges(RequiredMarkers)
  {
    if |selected| != RequiredMarkers {
      return WrongMarkerCount(|selected|);
    }
    var positions := new Vec3[|selected|];
    for i := 0 to |selected|
      invariant positions[..i] == selected[..i]
    {
      positions[i] := selected[i];
    }
    assert positions[..] == selected[..|selected|] == selected;
    var center := SumPositions(positions);
    center := Div(center, positions.Length as real);
    assert center == Centroid(selected);
    SortByKey(positions, p => AngleKey(atan2, center, p));
    SumPermutation(positions[..], selected);
    var edges := LogEdgeLengths(positions);
    var mesh := Mesh(positions[..], FanTriangles());
    return Wall(mesh, edges);
  }
}
