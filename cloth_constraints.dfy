/**
 * Setup of the cloth constraint graph: which vertices are pinned, which
 * vertex pairs are joined by a spring ("bar"), and each bar's rest length.
 * The graph is built once per mesh and shared by every cloth instance that
 * renders that mesh.
 */
module ClothConstraints {
  import opened Wrappers
  import opened Vectors

  /** The binary32 value of the literal `0.3f`. */
  const PinHeight: real := 0.300000011920928955078125

  /** The binary32 value of the literal `0.9f`. */
  const PinNormalUp: real := 0.89999997615814208984375

  /** A `Vector2Int` vertex pair. */
  datatype Bar = Bar(x: int, y: int)

  /** The shared per-mesh component ClothBarSimEcs. */
  datatype BarSim = BarSim(pins: seq<int>, bars: seq<Bar>, barLengths: seq<real>)

  predicate Distinct<T(==)>(s: seq<T>)
  {
    forall i, j :: 0 <= i < j < |s| ==> s[i] != s[j]
  }

  predicate BarFits(b: Bar, n: int)
  {
    0 <= b.x < n && 0 <= b.y < n
  }

  /** Two pinned ends: the source tests `pins[x] + pins[y] != 2` to keep a bar. */
  predicate BothPinned(pins: seq<int>, b: Bar)
    requires BarFits(b, |pins|)
  {
    pins[b.x] + pins[b.y] == 2
  }

  // ---------------------------------------------------------------------------
  // Pins
  // ---------------------------------------------------------------------------

  predicate PinnedByHeight(v: Vec3)
  {
    v.y > PinHeight
  }

  predicate PinnedByNormal(v: Vec3, n: Vec3)
  {
    n.y >= PinNormalUp && v.y > PinHeight
  }

  /**
   * A mesh's normals are either absent (an empty array) or one per vertex.
   */
  predicate NormalsFit(vertices: seq<Vec3>, normals: seq<Vec3>)
  {
    |normals| == 0 || |normals| == |vertices|
  }

  /** The pin of vertex `i`: by height alone when the mesh has no normals. */
  function PinValue(vertices: seq<Vec3>, normals: seq<Vec3>, i: int): int
    requires NormalsFit(vertices, normals) && 0 <= i < |vertices|
  {
    if |normals| == 0 then (if PinnedByHeight(vertices[i]) then 1 else 0)
    else if PinnedByNormal(vertices[i], normals[i]) then 1 else 0
  }

  /** Fill a fresh, zeroed `pins` array, one entry per vertex. */
  method ComputePins(vertices: seq<Vec3>, normals: seq<Vec3>) returns (pins: seq<int>)
    requires NormalsFit(vertices, normals)
    ensures |pins| == |vertices|
    ensures forall i :: 0 <= i < |pins| ==> pins[i] == 0 || pins[i] == 1
    ensures forall i :: 0 <= i < |pins| ==> (pins[i] == 1 <==>
              if |normals| == 0 then vertices[i].y > PinHeight
              else normals[i].y >= PinNormalUp && vertices[i].y > PinHeight)
    ensures forall i :: 0 <= i < |pins| ==> pins[i] == PinValue(vertices, normals, i)
  {
    var a := new int[|vertices|](_ => 0);
    if |normals| == 0 {
      for i := 0 to a.Length
        invariant forall k :: 0 <= k < i ==> a[k] == PinValue(vertices, normals, k)
        invariant forall k :: i <= k < a.Length ==> a[k] == 0
      {
        if vertices[i].y > PinHeight {
          a[i] := 1;
        }
      }
    } else {
      for i := 0 to a.Length
        invariant forall k :: 0 <= k < i ==> a[k] == PinValue(vertices, normals, k)
        invariant forall k :: i <= k < a.Length ==> a[k] == 0
      {
        if normals[i].y >= PinNormalUp && vertices[i].y > PinHeight {
          a[i] := 1;
        }
      }
    }
    pins := a[..];
  }

  /**
   * The pin loop as written tests the normals array for null, which a mesh
   * never returns (a mesh without normals gives an empty array), so it always
   * indexes the normals: `None` is the IndexOutOfRangeException that follows
   * when there are fewer normals than vertices.
   */
  function PinsAsWritten(vertices: seq<Vec3>, normals: seq<Vec3>): (r: Option<seq<int>>)
    ensures r.Some? <==> |vertices| <= |normals|
    ensures r.Some? ==> |r.value| == |vertices|
  {
    if |normals| < |vertices| then None
    else Some(seq(|vertices|, i requires 0 <= i < |vertices| =>
                if PinnedByNormal(vertices[i], normals[i]) then 1 else 0))
  }

  /** A mesh without normals whose single vertex stands above the pin height. */
  lemma NormalFreeMeshFailsAsWritten()
    ensures var vs := [Vec3(0.0, 1.0, 0.0)];
      && PinsAsWritten(vs, []) == None
      && PinValue(vs, [], 0) == 1
  {
  }

  /** On a mesh with one normal per vertex, the pin loop as written and the corrected rule agree. */
  lemma PinsAsWrittenAgreeWithNormals(vertices: seq<Vec3>, normals: seq<Vec3>)
    requires |normals| == |vertices|
    ensures PinsAsWritten(vertices, normals).Some?
    ensures forall i :: 0 <= i < |vertices| ==>
              PinsAsWritten(vertices, normals).value[i] == PinValue(vertices, normals, i)
  {
  }

  // ---------------------------------------------------------------------------
  // Bars
  // ---------------------------------------------------------------------------

  /** Triangle indices come in threes and name existing vertices. */
  predicate ValidTriangles(tris: seq<int>, vertexCount: int)
  {
    |tris| % 3 == 0 && forall k :: 0 <= k < |tris| ==> 0 <= tris[k] < vertexCount
  }

  /** Edge `e` of the index list joins corner `e` to the next corner of the same triangle. */
  function NextCorner(e: nat): nat
  {
    e - e % 3 + (e % 3 + 1) % 3
  }

  lemma NextCornerInRange(n: nat, e: nat)
    requires n % 3 == 0 && e < n
    ensures NextCorner(e) < n
  {
    var t := e - e % 3;
    assert t % 3 == 0;
    assert t + 3 <= n;
  }

  /** The smaller index first. */
  function Canonical(a: int, b: int): (r: Bar)
    ensures r.x <= r.y
    ensures (r.x == a && r.y == b) || (r.x == b && r.y == a)
  {
    if a > b then Bar(b, a) else Bar(a, b)
  }

  function EdgeBar(tris: seq<int>, e: nat): Bar
    requires |tris| % 3 == 0 && e < |tris|
  {
    NextCornerInRange(|tris|, e);
    Canonical(tris[e], tris[NextCorner(e)])
  }

  /** Edges `0 .. n-1` of the index list, canonical, without the ones joining two pins. */
  ghost function KeptEdges(tris: seq<int>, pins: seq<int>, n: nat): set<Bar>
    requires ValidTriangles(tris, |pins|) && n <= |tris|
  {
    set e | 0 <= e < n && KeptEdge(tris, pins, e) :: EdgeBar(tris, e)
  }

  predicate KeptEdge(tris: seq<int>, pins: seq<int>, e: nat)
    requires ValidTriangles(tris, |pins|) && e < |tris|
  {
    NextCornerInRange(|tris|, e);
    !BothPinned(pins, EdgeBar(tris, e))
  }

  lemma KeptEdgesStep(tris: seq<int>, pins: seq<int>, n: nat)
    requires ValidTriangles(tris, |pins|) && n < |tris|
    ensures KeptEdges(tris, pins, n + 1)
            == KeptEdges(tris, pins, n) + (if KeptEdge(tris, pins, n) then {EdgeBar(tris, n)} else {})
  {
  }

  /** Every kept edge is canonical, in range, and not between two pins. */
  lemma KeptEdgesShape(tris: seq<int>, pins: seq<int>, n: nat, b: Bar)
    requires ValidTriangles(tris, |pins|) && n <= |tris|
    requires b in KeptEdges(tris, pins, n)
    ensures b.x <= b.y && BarFits(b, |pins|) && !BothPinned(pins, b)
  {
    var e :| 0 <= e < n && KeptEdge(tris, pins, e) && EdgeBar(tris, e) == b;
    NextCornerInRange(|tris|, e);
  }

  /** Corner `j` of the triangle starting at `i` is joined to corner `(j + 1) % 3`. */
  lemma EdgeOfTriangle(tris: seq<int>, i: nat, j: nat)
    requires |tris| % 3 == 0 && i % 3 == 0 && j < 3 && i + j < |tris|
    ensures i + (j + 1) % 3 < |tris|
    ensures EdgeBar(tris, i + j) == Canonical(tris[i + j], tris[i + (j + 1) % 3])
  {
    assert (i + j) % 3 == j;
    NextCornerInRange(|tris|, i + j);
  }

  /** Walk the triangles' edges into a set, as the `barLookup` hash set. */
  method CollectBars(tris: seq<int>, pins: seq<int>) returns (barLookup: set<Bar>)
    requires ValidTriangles(tris, |pins|)
    ensures barLookup == KeptEdges(tris, pins, |tris|)
    ensures forall b :: b in barLookup ==> b.x <= b.y && BarFits(b, |pins|) && !BothPinned(pins, b)
  {
    barLookup := {};
    var i := 0;
    while i < |tris|
      invariant 0 <= i <= |tris| && i % 3 == 0
      invariant barLookup == KeptEdges(tris, pins, i)
    {
      for j := 0 to 3
        invariant barLookup == KeptEdges(tris, pins, i + j)
      {
        EdgeOfTriangle(tris, i, j);
        var pair := Bar(tris[i + j], tris[i + (j + 1) % 3]);
        if pair.x > pair.y {
          pair := Bar(pair.y, pair.x);
        }
        if pair !in barLookup && pins[pair.x] + pins[pair.y] != 2 {
          barLookup := barLookup + {pair};
        }
        KeptEdgesStep(tris, pins, i + j);
      }
      i := i + 3;
    }
    forall b | b in barLookup
      ensures b.x <= b.y && BarFits(b, |pins|) && !BothPinned(pins, b)
    {
      KeptEdgesShape(tris, pins, |tris|, b);
    }
  }

  /** Copy a set into a list, in an order the set does not fix. */
  method ListOf(s: set<Bar>) returns (r: seq<Bar>)
    ensures Distinct(r)
    ensures forall b :: b in r <==> b in s
  {
    r := [];
    var rest := s;
    while rest != {}
      invariant forall b :: b in s <==> b in rest || b in r
      invariant forall b :: b in rest ==> b !in r
      invariant Distinct(r)
      decreases rest
    {
      var b :| b in rest;
      r := r + [b];
      rest := rest - {b};
    }
  }

  /** A bar's rest length: the length of the vector from its first to its second vertex. */
  function RestLength(vertices: seq<Vec3>, b: Bar, length: Vec3 -> real): real
    requires BarFits(b, |vertices|)
  {
    length(vertices[b.y].Sub(vertices[b.x]))
  }

  method ComputeBarLengths(vertices: seq<Vec3>, bars: seq<Bar>, length: Vec3 -> real)
    returns (barLengths: seq<real>)
    requires forall i :: 0 <= i < |bars| ==> BarFits(bars[i], |vertices|)
    ensures |barLengths| == |bars|
    ensures forall i :: 0 <= i < |bars| ==> barLengths[i] == RestLength(vertices, bars[i], length)
  {
    var a := new real[|bars|];
    for i := 0 to |bars|
      invariant forall k :: 0 <= k < i ==> a[k] == RestLength(vertices, bars[k], length)
    {
      var pair := bars[i];
      var p1 := vertices[pair.x];
      var p2 := vertices[pair.y];
      a[i] := length(p2.Sub(p1));
    }
    barLengths := a[..];
  }

  // ---------------------------------------------------------------------------
  // The whole graph
  // ---------------------------------------------------------------------------

  /** What the jobs rely on: 0/1 pins, one length per bar, canonical bars in range, never two pins, no repeats. */
  predicate WellFormed(sim: BarSim)
  {
    && (forall v :: 0 <= v < |sim.pins| ==> sim.pins[v] == 0 || sim.pins[v] == 1)
    && |sim.barLengths| == |sim.bars|
    && (forall i :: 0 <= i < |sim.bars| ==>
          BarFits(sim.bars[i], |sim.pins|) && sim.bars[i].x <= sim.bars[i].y && !BothPinned(sim.pins, sim.bars[i]))
    && Distinct(sim.bars)
  }

  /** `sim` is the graph the setup derives from this mesh. */
  ghost predicate BuiltFrom(sim: BarSim, vertices: seq<Vec3>, normals: seq<Vec3>, tris: seq<int>, length: Vec3 -> real)
    requires NormalsFit(vertices, normals) && ValidTriangles(tris, |vertices|)
  {
    && |sim.pins| == |vertices|
    && (forall v :: 0 <= v < |vertices| ==> sim.pins[v] == PinValue(vertices, normals, v))
    && Distinct(sim.bars)
    && (forall b :: b in sim.bars <==> b in KeptEdges(tris, sim.pins, |tris|))
    && |sim.barLengths| == |sim.bars|
    && (forall i :: 0 <= i < |sim.bars| ==>
          BarFits(sim.bars[i], |vertices|) && sim.barLengths[i] == RestLength(vertices, sim.bars[i], length))
  }

  /** The setup body of AddSharedComponents: pins, then bars, then rest lengths. */
  method BuildBarSim(vertices: seq<Vec3>, normals: seq<Vec3>, tris: seq<int>, length: Vec3 -> real)
    returns (sim: BarSim)
    requires NormalsFit(vertices, normals)
    requires ValidTriangles(tris, |vertices|)
    ensures BuiltFrom(sim, vertices, normals, tris, length)
    ensures WellFormed(sim)
  {
    var pins := ComputePins(vertices, normals);
    var barLookup := CollectBars(tris, pins);
    var bars := ListOf(barLookup);
    var barLengths := ComputeBarLengths(vertices, bars, length);
    sim := BarSim(pins, bars, barLengths);
  }

  /**
   * Every edge of every triangle whose ends are not both pinned has a bar,
   * in one orientation or the other, and every bar is such an edge.
   */
  lemma BarsFollowTriangleEdges(sim: BarSim, vertices: seq<Vec3>, normals: seq<Vec3>, tris: seq<int>,
                                length: Vec3 -> real)
    requires NormalsFit(vertices, normals) && ValidTriangles(tris, |vertices|)
    requires BuiltFrom(sim, vertices, normals, tris, length)
    ensures forall e :: 0 <= e < |tris| && KeptEdge(tris, sim.pins, e) ==>
              EdgeBar(tris, e) in sim.bars
    ensures forall i :: 0 <= i < |sim.bars| ==>
              exists e :: 0 <= e < |tris| && KeptEdge(tris, sim.pins, e) && EdgeBar(tris, e) == sim.bars[i]
  {
    forall i | 0 <= i < |sim.bars|
      ensures exists e :: 0 <= e < |tris| && KeptEdge(tris, sim.pins, e) && EdgeBar(tris, e) == sim.bars[i]
    {
      assert sim.bars[i] in KeptEdges(tris, sim.pins, |tris|);
    }
  }

  predicate SameEdge(a: Bar, b: Bar)
  {
    (a.x == b.x && a.y == b.y) || (a.x == b.y && a.y == b.x)
  }

  /** A shared edge of two triangles gives one bar, not two. */
  lemma EachEdgeOnce(sim: BarSim)
    requires WellFormed(sim)
    ensures forall i, j :: 0 <= i < |sim.bars| && 0 <= j < |sim.bars| && SameEdge(sim.bars[i], sim.bars[j]) ==> i == j
  {
  }

  /** A graph built from a mesh is what the jobs rely on. */
  lemma BuiltIsWellFormed(sim: BarSim, vertices: seq<Vec3>, normals: seq<Vec3>, tris: seq<int>, length: Vec3 -> real)
    requires NormalsFit(vertices, normals) && ValidTriangles(tris, |vertices|)
    requires BuiltFrom(sim, vertices, normals, tris, length)
    ensures WellFormed(sim)
  {
    forall i | 0 <= i < |sim.bars|
      ensures BarFits(sim.bars[i], |sim.pins|) && sim.bars[i].x <= sim.bars[i].y && !BothPinned(sim.pins, sim.bars[i])
    {
      assert sim.bars[i] in KeptEdges(tris, sim.pins, |tris|);
      KeptEdgesShape(tris, sim.pins, |tris|, sim.bars[i]);
    }
  }

  // ---------------------------------------------------------------------------
  // The per-mesh cache
  // ---------------------------------------------------------------------------

  /** A mesh as the setup reads it. */
  class Mesh {
    var vertices: seq<Vec3>
    var normals: seq<Vec3>
    var triangles: seq<int>

    constructor (vertices: seq<Vec3>, normals: seq<Vec3>, triangles: seq<int>)
      ensures this.vertices == vertices && this.normals == normals && this.triangles == triangles
    {
      this.vertices := vertices;
      this.normals := normals;
      this.triangles := triangles;
    }
  }

  /** The static mesh-to-graph dictionary. */
  class BarSimLookup {
    var entries: map<Mesh, BarSim>

    ghost predicate Valid()
      reads this
    {
      forall m :: m in entries ==> WellFormed(entries[m])
    }

    constructor ()
      ensures Valid() && entries == map[]
    {
      entries := map[];
    }

    /**
     * Give an entity the graph of its mesh, building the graph only if the
     * mesh has none yet; a mesh seen before gets its stored graph unchanged.
     */
    method AddSharedComponents(mesh: Mesh, length: Vec3 -> real) returns (shared: BarSim)
      requires Valid()
      requires mesh !in entries ==>
                 NormalsFit(mesh.vertices, mesh.normals) && ValidTriangles(mesh.triangles, |mesh.vertices|)
      modifies this
      ensures Valid()
      ensures mesh in entries && entries[mesh] == shared
      ensures mesh in old(entries) ==> entries == old(entries) && shared == old(entries)[mesh]
      ensures mesh !in old(entries) ==>
                && entries == old(entries)[mesh := shared]
                && BuiltFrom(shared, mesh.vertices, mesh.normals, mesh.triangles, length)
    {
      if mesh !in entries {
        var sim := BuildBarSim(mesh.vertices, mesh.normals, mesh.triangles, length);
        entries := entries[mesh := sim];
      }
      shared := entries[mesh];
    }
  }
}
