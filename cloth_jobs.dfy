/**
 * The per-frame cloth simulation of one instance: a bar relaxation pass over
 * the current vertex positions, then a Verlet integration pass with floor
 * collision over vertex batches, in that order.
 */
module ClothJobs {
  import opened Vectors
  import opened ClothConstraints

  /** What both jobs index: one pin per vertex, one rest length per bar, bars within the vertices. */
  predicate JobInputsFit(sim: BarSim, vertexCount: int)
  {
    && |sim.pins| == vertexCount
    && |sim.barLengths| >= |sim.bars|
    && forall i :: 0 <= i < |sim.bars| ==> BarFits(sim.bars[i], vertexCount)
  }

  // ---------------------------------------------------------------------------
  // Bar relaxation (ClothBarSimJob)
  // ---------------------------------------------------------------------------

  /** A graph built by the setup is valid input for the jobs of an instance of its mesh. */
  lemma WellFormedFitsJobs(sim: BarSim)
    requires WellFormed(sim)
    ensures JobInputsFit(sim, |sim.pins|)
  {
  }

  /** `normalize(d)` for a vector of length `len`; a zero vector stays zero here. */
  function Direction(d: Vec3, len: real): Vec3
  {
    if len == 0.0 then Zero else d.Scale(1.0 / len)
  }

  /**
   * One bar's correction: half the excess length moves each free end towards
   * the other, or the whole of it moves the one free end; a bar that is not
   * joined to a free end writes nothing.
   */
  function RelaxBar(vs: seq<Vec3>, bar: Bar, rest: real, pins: seq<int>, length: Vec3 -> real): (r: seq<Vec3>)
    requires BarFits(bar, |vs|) && |pins| == |vs|
    ensures |r| == |vs|
    ensures forall v :: 0 <= v < |vs| && v != bar.x && v != bar.y ==> r[v] == vs[v]
    ensures forall v :: 0 <= v < |vs| && pins[v] != 0 ==> r[v] == vs[v]
  {
    var p1 := vs[bar.x];
    var p2 := vs[bar.y];
    var len := length(p2.Sub(p1));
    var extra := (len - rest) * 0.5;
    var dir := Direction(p2.Sub(p1), len);
    var pin1 := pins[bar.x];
    var pin2 := pins[bar.y];
    if pin1 == 0 && pin2 == 0 then
      var moved := vs[bar.x := p1.Add(dir.Scale(extra))];
      moved[bar.y := moved[bar.y].Sub(dir.Scale(extra))]
    else if pin1 == 0 && pin2 == 1 then
      vs[bar.x := p1.Add(dir.Scale(extra).Scale(2.0))]
    else if pin1 == 1 && pin2 == 0 then
      vs[bar.y := p2.Sub(dir.Scale(extra).Scale(2.0))]
    else
      vs
  }

  /** Vertex `v` is an end of one of the first `k` bars. */
  predicate Touched(bars: seq<Bar>, k: nat, v: int)
    requires k <= |bars|
  {
    exists i :: 0 <= i < k && (bars[i].x == v || bars[i].y == v)
  }

  /** The positions after relaxing the first `k` bars in order. */
  function Relaxed(vs: seq<Vec3>, sim: BarSim, length: Vec3 -> real, k: nat): (r: seq<Vec3>)
    requires JobInputsFit(sim, |vs|) && k <= |sim.bars|
    ensures |r| == |vs|
    decreases k
  {
    if k == 0 then vs
    else
      RelaxBar(Relaxed(vs, sim, length, k - 1), sim.bars[k - 1], sim.barLengths[k - 1], sim.pins, length)
  }

  /** Relaxation never moves a pinned vertex. */
  lemma {:induction false} RelaxedKeepsPins(vs: seq<Vec3>, sim: BarSim, length: Vec3 -> real, k: nat, v: int)
    requires JobInputsFit(sim, |vs|) && k <= |sim.bars|
    requires 0 <= v < |vs| && sim.pins[v] != 0
    ensures Relaxed(vs, sim, length, k)[v] == vs[v]
    decreases k
  {
    if k > 0 {
      RelaxedKeepsPins(vs, sim, length, k - 1, v);
    }
  }

  /** Relaxation writes only the ends of the bars it has gone through. */
  lemma {:induction false} RelaxedWritesOnlyBarEnds(vs: seq<Vec3>, sim: BarSim, length: Vec3 -> real, k: nat, v: int)
    requires JobInputsFit(sim, |vs|) && k <= |sim.bars|
    requires 0 <= v < |vs| && !Touched(sim.bars, k, v)
    ensures Relaxed(vs, sim, length, k)[v] == vs[v]
    decreases k
  {
    if k > 0 {
      assert !Touched(sim.bars, k - 1, v);
      RelaxedWritesOnlyBarEnds(vs, sim, length, k - 1, v);
    }
  }

  /** Relaxing bar `k` after the first `k` is relaxing the first `k + 1`. */
  lemma RelaxedNext(vs: seq<Vec3>, sim: BarSim, length: Vec3 -> real, k: nat)
    requires JobInputsFit(sim, |vs|) && k < |sim.bars|
    ensures Relaxed(vs, sim, length, k + 1)
            == RelaxBar(Relaxed(vs, sim, length, k), sim.bars[k], sim.barLengths[k], sim.pins, length)
  {
  }

  /** The loop body of ClothBarSimJob: apply one bar's correction in place. */
  method RelaxBarInPlace(vertices: array<Vec3>, pair: Bar, rest: real, pins: seq<int>, length: Vec3 -> real)
    requires BarFits(pair, vertices.Length) && |pins| == vertices.Length
    modifies vertices
    ensures vertices[..] == RelaxBar(old(vertices[..]), pair, rest, pins, length)
  {
    ghost var before := vertices[..];
    var p1 := vertices[pair.x];
    var p2 := vertices[pair.y];
    var pin1 := pins[pair.x];
    var pin2 := pins[pair.y];
    var len := length(p2.Sub(p1));
    var extra := (len - rest) * 0.5;
    var dir := Direction(p2.Sub(p1), len);
    if pin1 == 0 && pin2 == 0 {
      vertices[pair.x] := vertices[pair.x].Add(dir.Scale(extra));
      ghost var moved := vertices[..];
      assert moved == before[pair.x := p1.Add(dir.Scale(extra))];
      vertices[pair.y] := vertices[pair.y].Sub(dir.Scale(extra));
      assert vertices[..] == moved[pair.y := moved[pair.y].Sub(dir.Scale(extra))];
    } else if pin1 == 0 && pin2 == 1 {
      vertices[pair.x] := vertices[pair.x].Add(dir.Scale(extra).Scale(2.0));
      assert vertices[..] == before[pair.x := p1.Add(dir.Scale(extra).Scale(2.0))];
    } else if pin1 == 1 && pin2 == 0 {
      vertices[pair.y] := vertices[pair.y].Sub(dir.Scale(extra).Scale(2.0));
      assert vertices[..] == before[pair.y := p2.Sub(dir.Scale(extra).Scale(2.0))];
    }
  }

  /** Relax every bar once, in order, in place. */
  method ClothBarSimJob(vertices: array<Vec3>, sim: BarSim, length: Vec3 -> real)
    requires JobInputsFit(sim, vertices.Length)
    modifies vertices
    ensures vertices[..] == Relaxed(old(vertices[..]), sim, length, |sim.bars|)
  {
    ghost var start := vertices[..];
    for i := 0 to |sim.bars|
      invariant vertices[..] == Relaxed(start, sim, length, i)
    {
      RelaxBarInPlace(vertices, sim.bars[i], sim.barLengths[i], sim.pins, length);
      RelaxedNext(start, sim, length, i);
    }
  }

  /** A bar between two free vertices moves them by opposite amounts: their sum is kept. */
  lemma RelaxBarKeepsMidpoint(vs: seq<Vec3>, bar: Bar, rest: real, pins: seq<int>, length: Vec3 -> real)
    requires BarFits(bar, |vs|) && |pins| == |vs|
    requires bar.x != bar.y && pins[bar.x] == 0 && pins[bar.y] == 0
    ensures var r := RelaxBar(vs, bar, rest, pins, length);
      r[bar.x].Add(r[bar.y]) == vs[bar.x].Add(vs[bar.y])
  {
  }

  /** Every bar of `sim` is at its rest length in `vs`. */
  predicate AtRest(vs: seq<Vec3>, sim: BarSim, length: Vec3 -> real)
    requires JobInputsFit(sim, |vs|)
  {
    forall i :: 0 <= i < |sim.bars| ==> RestLength(vs, sim.bars[i], length) == sim.barLengths[i]
  }

  /** A bar at its rest length has no excess to correct. */
  lemma RelaxBarAtRest(vs: seq<Vec3>, bar: Bar, rest: real, pins: seq<int>, length: Vec3 -> real)
    requires BarFits(bar, |vs|) && |pins| == |vs|
    requires RestLength(vs, bar, length) == rest
    ensures RelaxBar(vs, bar, rest, pins, length) == vs
  {
    var dir := Direction(vs[bar.y].Sub(vs[bar.x]), length(vs[bar.y].Sub(vs[bar.x])));
    assert dir.Scale(0.0) == Zero;
    assert dir.Scale(0.0).Scale(2.0) == Zero;
    assert vs[bar.x].Add(Zero) == vs[bar.x];
    assert vs[bar.y].Sub(Zero) == vs[bar.y];
  }

  /** A cloth whose bars are all at rest length is left where it is by relaxation. */
  lemma {:induction false} RelaxedAtRest(vs: seq<Vec3>, sim: BarSim, length: Vec3 -> real, k: nat)
    requires JobInputsFit(sim, |vs|) && k <= |sim.bars|
    requires AtRest(vs, sim, length)
    ensures Relaxed(vs, sim, length, k) == vs
    decreases k
  {
    if k > 0 {
      RelaxedAtRest(vs, sim, length, k - 1);
      var bar := sim.bars[k - 1];
      assert RestLength(vs, bar, length) == sim.barLengths[k - 1];
      RelaxBarAtRest(vs, bar, sim.barLengths[k - 1], sim.pins, length);
    }
  }

  // ---------------------------------------------------------------------------
  // Verlet integration and floor collision (ClothSimVertexJob0)
  // ---------------------------------------------------------------------------

  /** A vertex's current and previous position, in mesh-local space. */
  datatype VertexState = VertexState(current: Vec3, previous: Vec3)

  /**
   * The instance's placement: `math.transform` by localToWorld and by its
   * inverse, and the per-frame gravity step in local space.
   */
  datatype Placement = Placement(toWorld: Vec3 -> Vec3, toLocal: Vec3 -> Vec3, gravity: Vec3)

  /**
   * Verlet step of a free vertex; if the new position is below the floor
   * (world y < 0) it is put on the floor and the previous position's world y
   * becomes half the penetrating step.
   */
  function Integrate(s: VertexState, pl: Placement): VertexState
  {
    var startPos := s.current;
    var oldVert := s.previous.Sub(pl.gravity);
    var vert := s.current.Add(s.current.Sub(oldVert));
    var worldPos := pl.toWorld(vert);
    if worldPos.y < 0.0 then
      var oldWorldPos := pl.toWorld(startPos);
      VertexState(pl.toLocal(worldPos.(y := 0.0)),
                  pl.toLocal(oldWorldPos.(y := (worldPos.y - oldWorldPos.y) * 0.5)))
    else
      VertexState(vert, startPos)
  }

  /** Pinned vertices are skipped. */
  function VertexStep(pin: int, s: VertexState, pl: Placement): VertexState
  {
    if pin != 0 then s else Integrate(s, pl)
  }

  /** Without floor contact the new previous position is the old current one. */
  lemma NoFloorContact(s: VertexState, pl: Placement)
    requires pl.toWorld(s.current.Add(s.current.Sub(s.previous.Sub(pl.gravity)))).y >= 0.0
    ensures Integrate(s, pl).previous == s.current
    ensures Integrate(s, pl).current == s.current.Add(s.current.Sub(s.previous.Sub(pl.gravity)))
  {
  }

  /** `toLocal` undoes `toWorld`'s effect as seen from world space. */
  ghost predicate Inverse(pl: Placement)
  {
    forall p :: pl.toWorld(pl.toLocal(p)) == p
  }

  /**
   * A vertex that would go below the floor ends on it, keeping its world x and
   * z, and its implied world-space vertical velocity is the incoming one
   * reversed and halved.
   */
  lemma FloorClamp(s: VertexState, pl: Placement)
    requires Inverse(pl)
    requires pl.toWorld(s.current.Add(s.current.Sub(s.previous.Sub(pl.gravity)))).y < 0.0
    ensures var w := pl.toWorld(s.current.Add(s.current.Sub(s.previous.Sub(pl.gravity))));
      var incoming := w.y - pl.toWorld(s.current).y;
      var r := Integrate(s, pl);
      && pl.toWorld(r.current) == w.(y := 0.0)
      && pl.toWorld(r.current).y - pl.toWorld(r.previous).y == -incoming * 0.5
  {
  }

  /** With `toLocal` undoing `toWorld`, a vertex never ends a step below the floor. */
  lemma NeverBelowFloor(pin: int, s: VertexState, pl: Placement)
    requires Inverse(pl)
    ensures pin == 0 ==> pl.toWorld(VertexStep(pin, s, pl).current).y >= 0.0
  {
    if pin == 0 {
      var w := pl.toWorld(s.current.Add(s.current.Sub(s.previous.Sub(pl.gravity))));
      if w.y < 0.0 {
        FloorClamp(s, pl);
      }
    }
  }

  /** One batch of the integration job: vertices `startIndex .. startIndex+count-1`. */
  method ClothSimVertexJob0(pins: seq<int>, currentVertexState: array<Vec3>, oldVertexState: array<Vec3>,
                            pl: Placement, startIndex: int, count: int)
    requires currentVertexState != oldVertexState
    requires 0 <= startIndex && 0 <= count
    requires startIndex + count <= |pins|
    requires startIndex + count <= currentVertexState.Length && startIndex + count <= oldVertexState.Length
    modifies currentVertexState, oldVertexState
    ensures forall i :: 0 <= i < currentVertexState.Length && !(startIndex <= i < startIndex + count) ==>
              currentVertexState[i] == old(currentVertexState[i])
    ensures forall i :: 0 <= i < oldVertexState.Length && !(startIndex <= i < startIndex + count) ==>
              oldVertexState[i] == old(oldVertexState[i])
    ensures forall i :: startIndex <= i < startIndex + count ==>
              VertexState(currentVertexState[i], oldVertexState[i])
              == VertexStep(pins[i], VertexState(old(currentVertexState[i]), old(oldVertexState[i])), pl)
  {
    for i := startIndex to startIndex + count
      invariant forall k :: 0 <= k < currentVertexState.Length && !(startIndex <= k < i) ==>
                  currentVertexState[k] == old(currentVertexState[k])
      invariant forall k :: 0 <= k < oldVertexState.Length && !(startIndex <= k < i) ==>
                  oldVertexState[k] == old(oldVertexState[k])
      invariant forall k :: startIndex <= k < i ==>
                  VertexState(currentVertexState[k], oldVertexState[k])
                  == VertexStep(pins[k], VertexState(old(currentVertexState[k]), old(oldVertexState[k])), pl)
    {
      if pins[i] != 0 {
        continue;
      }
      var next := Integrate(VertexState(currentVertexState[i], oldVertexState[i]), pl);
      oldVertexState[i] := next.previous;
      currentVertexState[i] := next.current;
    }
  }

  // ---------------------------------------------------------------------------
  // One frame of one instance
  // ---------------------------------------------------------------------------

  /** An instance's vertex buffers. */
  datatype ClothState = ClothState(current: seq<Vec3>, previous: seq<Vec3>)

  function IntegrateAll(s: ClothState, pins: seq<int>, pl: Placement): (r: ClothState)
    requires |s.current| == |pins| && |s.previous| == |pins|
    ensures |r.current| == |pins| && |r.previous| == |pins|
  {
    var n := |pins|;
    ClothState(
      seq(n, i requires 0 <= i < n => VertexStep(pins[i], VertexState(s.current[i], s.previous[i]), pl).current),
      seq(n, i requires 0 <= i < n => VertexStep(pins[i], VertexState(s.current[i], s.previous[i]), pl).previous))
  }

  /** Relaxation first, then integration. */
  function SimStep(s: ClothState, sim: BarSim, pl: Placement, length: Vec3 -> real): (r: ClothState)
    requires JobInputsFit(sim, |s.current|) && |s.previous| == |s.current|
    ensures |r.current| == |s.current| && |r.previous| == |s.current|
  {
    IntegrateAll(ClothState(Relaxed(s.current, sim, length, |sim.bars|), s.previous), sim.pins, pl)
  }

  /** The integration job scheduled in batches of `batchSize` over all vertices. */
  method ScheduleBatch(pins: seq<int>, currentVertexState: array<Vec3>, oldVertexState: array<Vec3>,
                       pl: Placement, batchSize: int)
    requires currentVertexState != oldVertexState
    requires currentVertexState.Length == |pins| && oldVertexState.Length == |pins|
    requires batchSize > 0
    modifies currentVertexState, oldVertexState
    ensures ClothState(currentVertexState[..], oldVertexState[..])
            == IntegrateAll(old(ClothState(currentVertexState[..], oldVertexState[..])), pins, pl)
  {
    var n := |pins|;
    var start := 0;
    while start < n
      invariant 0 <= start <= n
      invariant forall k :: start <= k < n ==>
                  currentVertexState[k] == old(currentVertexState[k]) && oldVertexState[k] == old(oldVertexState[k])
      invariant forall k :: 0 <= k < start ==>
                  VertexState(currentVertexState[k], oldVertexState[k])
                  == VertexStep(pins[k], VertexState(old(currentVertexState[k]), old(oldVertexState[k])), pl)
      decreases n - start
    {
      var count := if n - start < batchSize then n - start else batchSize;
      ClothSimVertexJob0(pins, currentVertexState, oldVertexState, pl, start, count);
      start := start + count;
    }
    ghost var before := old(ClothState(currentVertexState[..], oldVertexState[..]));
    ghost var after := IntegrateAll(before, pins, pl);
    assert currentVertexState[..] == after.current;
    assert oldVertexState[..] == after.previous;
  }

  /** One instance's frame: the bar job, then the batched vertex job that depends on it. */
  method SimulateInstance(currentVertexState: array<Vec3>, oldVertexState: array<Vec3>, sim: BarSim,
                          pl: Placement, length: Vec3 -> real, batchSize: int)
    requires currentVertexState != oldVertexState
    requires JobInputsFit(sim, currentVertexState.Length) && oldVertexState.Length == currentVertexState.Length
    requires batchSize > 0
    modifies currentVertexState, oldVertexState
    ensures ClothState(currentVertexState[..], oldVertexState[..])
            == SimStep(old(ClothState(currentVertexState[..], oldVertexState[..])), sim, pl, length)
  {
    ClothBarSimJob(currentVertexState, sim, length);
    ScheduleBatch(sim.pins, currentVertexState, oldVertexState, pl, batchSize);
  }

  /**
   * Consecutive frames, frame `i` under placement `placements[i]`: each frame
   * has its own gravity step (from its frame time) and its own transform.
   */
  function Simulate(s: ClothState, sim: BarSim, placements: seq<Placement>, length: Vec3 -> real): (r: ClothState)
    requires JobInputsFit(sim, |s.current|) && |s.previous| == |s.current|
    ensures |r.current| == |s.current| && |r.previous| == |s.current|
    decreases |placements|
  {
    if placements == [] then s
    else
      var n := |placements| - 1;
      SimStep(Simulate(s, sim, placements[..n], length), sim, placements[n], length)
  }

  /** A pinned vertex keeps both its positions exactly, frame after frame, whatever each frame's placement. */
  lemma {:induction false} PinnedVerticesNeverMove(s: ClothState, sim: BarSim, placements: seq<Placement>,
                                                   length: Vec3 -> real)
    requires JobInputsFit(sim, |s.current|) && |s.previous| == |s.current|
    ensures forall v :: 0 <= v < |s.current| && sim.pins[v] != 0 ==>
              Simulate(s, sim, placements, length).current[v] == s.current[v]
              && Simulate(s, sim, placements, length).previous[v] == s.previous[v]
    decreases |placements|
  {
    if placements != [] {
      var n := |placements| - 1;
      PinnedVerticesNeverMove(s, sim, placements[..n], length);
      var prev := Simulate(s, sim, placements[..n], length);
      forall v | 0 <= v < |s.current| && sim.pins[v] != 0
        ensures Relaxed(prev.current, sim, length, |sim.bars|)[v] == prev.current[v]
      {
        RelaxedKeepsPins(prev.current, sim, length, |sim.bars|, v);
      }
    }
  }

  /**
   * A still cloth (every bar at rest length, no velocity, no gravity) that is
   * above the floor does not move in a frame.
   */
  lemma StillClothStaysPut(s: ClothState, sim: BarSim, pl: Placement, length: Vec3 -> real)
    requires JobInputsFit(sim, |s.current|) && s.previous == s.current
    requires AtRest(s.current, sim, length)
    requires pl.gravity == Zero
    requires forall v :: 0 <= v < |s.current| ==> pl.toWorld(s.current[v]).y >= 0.0
    ensures SimStep(s, sim, pl, length) == s
  {
    RelaxedAtRest(s.current, sim, length, |sim.bars|);
    var r := SimStep(s, sim, pl, length);
    forall v | 0 <= v < |s.current|
      ensures r.current[v] == s.current[v] && r.previous[v] == s.previous[v]
    {
      var p := s.current[v];
      assert p.Sub(Zero) == p;
      assert p.Add(p.Sub(p)) == p;
    }
  }
}

/** The system object: per-instance job handles sized by the entity highwater. */
module ClothSystem {

  /** A scheduled job's handle. */
  datatype JobHandle = JobHandle(id: nat)

  /** The zeroed handle a newly allocated handle array holds. */
  const Unset := JobHandle(0)

  /** EntityHighwater.kInitial */
  const InitialHighwater := 5

  class ClothSimEcsSystem {
    var jobHandles: array<JobHandle>

    /** OnCreate: room for the initial highwater of instances. */
    constructor ()
      ensures fresh(jobHandles) && jobHandles.Length == InitialHighwater
      ensures forall i :: 0 <= i < jobHandles.Length ==> jobHandles[i] == Unset
    {
      jobHandles := new JobHandle[0];
      new;
      PotentiallyResizeBecauseNewEntityHighwater(InitialHighwater);
    }

    /** Grow the handle array to exactly `newHighwater` if it is smaller; never shrink it. */
    method PotentiallyResizeBecauseNewEntityHighwater(newHighwater: int)
      modifies this
      ensures jobHandles.Length >= newHighwater
      ensures newHighwater > old(jobHandles.Length) ==>
                && fresh(jobHandles) && jobHandles.Length == newHighwater
                && forall i :: 0 <= i < jobHandles.Length ==> jobHandles[i] == Unset
      ensures newHighwater <= old(jobHandles.Length) ==> jobHandles == old(jobHandles)
    {
      if newHighwater > jobHandles.Length {
        jobHandles := new JobHandle[newHighwater](_ => Unset);
      }
    }

    /**
     * The handle bookkeeping of OnUpdate.  `entityCount` is the count of the
     * cloth query; `handles[i]` is the combined handle of the two jobs of the
     * i-th instance the simulation scan visits, which needs more components
     * and so visits at most `entityCount` instances.  Resize to the count,
     * store each handle at its query index, and combine the first
     * `entityCount` entries: the instances' handles, then whatever the array
     * held beyond them.
     */
    method StoreInstanceHandles(entityCount: nat, handles: seq<JobHandle>) returns (combined: seq<JobHandle>)
      requires |handles| <= entityCount
      modifies this, jobHandles
      ensures entityCount > 0 ==> jobHandles.Length >= entityCount && jobHandles[..|handles|] == handles
      ensures entityCount > 0 ==>
                combined == handles + (if entityCount > old(jobHandles.Length)
                                       then seq(entityCount - |handles|, _ => Unset)
                                       else old(jobHandles[..])[|handles|..entityCount])
      ensures 0 < entityCount <= old(jobHandles.Length) ==>
                jobHandles == old(jobHandles) && jobHandles[|handles|..] == old(jobHandles[..])[|handles|..]
      ensures entityCount > old(jobHandles.Length) ==>
                && fresh(jobHandles) && jobHandles.Length == entityCount
                && forall k :: |handles| <= k < entityCount ==> jobHandles[k] == Unset
      ensures entityCount == 0 ==> jobHandles == old(jobHandles) && jobHandles[..] == old(jobHandles[..])
      ensures entityCount == 0 ==> combined == []
    {
      combined := [];
      if entityCount > 0 {
        ghost var grows := entityCount > jobHandles.Length;
        PotentiallyResizeBecauseNewEntityHighwater(entityCount);
        ghost var start := jobHandles[..];
        ghost var resized := jobHandles;
        assert !grows ==> resized == old(jobHandles) && start == old(jobHandles[..]);
        for entityInQueryIndex := 0 to |handles|
          invariant jobHandles == resized
          invariant jobHandles == old(jobHandles) || fresh(jobHandles)
          invariant jobHandles.Length >= entityCount && jobHandles.Length == |start|
          invariant forall k :: 0 <= k < entityInQueryIndex ==> jobHandles[k] == handles[k]
          invariant forall k :: entityInQueryIndex <= k < jobHandles.Length ==> jobHandles[k] == start[k]
        {
          jobHandles[entityInQueryIndex] := handles[entityInQueryIndex];
        }
        assert jobHandles[|handles|..] == start[|handles|..];
        combined := jobHandles[0..entityCount];
        assert combined[..|handles|] == handles;
        assert combined[|handles|..] == start[|handles|..entityCount];
        assert combined == combined[..|handles|] + combined[|handles|..];
      }
    }
  }
}
