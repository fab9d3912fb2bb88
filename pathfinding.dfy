/**
 * The farmer task dispatcher of the pathfinding system: the per-frame scans
 * that turn each farmer's current sub-task into deferred commands, and the
 * dirty flag that decides when the three distance fields are rebuilt.
 */
module Pathfinding {
  import opened Wrappers
  import opened FarmerTasks

  /** The answer of `DistanceField.PathTo`: the next cell to step to, and whether a target is reached. */
  datatype PathStep = PathStep(next: Cell, reached: bool)

  // ---------------------------------------------------------------------------
  // Query filters: the WithAll / WithNone lists of each scan.
  // ---------------------------------------------------------------------------

  predicate FindUntilledQuery(f: Farmer)
  {
    FindUntilledTile in f.tags && f.complete.None? && f.target.None?
  }

  predicate TillQuery(f: Farmer)
  {
    TillGroundTile in f.tags && f.complete.None?
  }

  predicate FindRockQuery(f: Farmer)
  {
    FindRock in f.tags && f.complete.None? && f.target.None?
  }

  predicate FindPlantQuery(f: Farmer)
  {
    FindPlant in f.tags && f.complete.None? && f.target.None?
  }

  predicate FindShopQuery(f: Farmer)
  {
    FindShop in f.tags && f.complete.None? && f.target.None?
  }

  // ---------------------------------------------------------------------------
  // Find an untilled tile: draw random cells until one is not occupied.
  // ---------------------------------------------------------------------------

  predicate InWorld(p: Cell, worldSize: Cell)
  {
    0 <= p.x < worldSize.x && 0 <= p.y < worldSize.y
  }

  predicate HasFreeSample(samples: seq<Cell>, occupied: set<Cell>)
  {
    exists i :: 0 <= i < |samples| && samples[i] !in occupied
  }

  /** The position of the first drawn cell that is not occupied. */
  function FirstFreeIndex(samples: seq<Cell>, occupied: set<Cell>): (k: nat)
    requires HasFreeSample(samples, occupied)
    ensures k < |samples| && samples[k] !in occupied
    ensures forall i :: 0 <= i < k ==> samples[i] in occupied
    decreases |samples|
  {
    if samples[0] !in occupied then 0
    else
      var i :| 0 <= i < |samples| && samples[i] !in occupied;
      assert samples[1..][i - 1] == samples[i];
      1 + FirstFreeIndex(samples[1..], occupied)
  }

  /** The commands recorded once a free cell `p` is found. */
  function UntilledCommands(p: Cell): seq<Command>
  {
    [SetTarget(p), MarkComplete(None)]
  }

  /**
   * The retry loop of the find-untilled-tile scan.  `samples` are the cells the
   * random generator yields, in order, each drawn within the world; the source
   * loops until a free one comes, so one must come.
   */
  method FindUntilledTarget(samples: seq<Cell>, occupied: set<Cell>, worldSize: Cell)
    returns (p: Cell, cmds: seq<Command>)
    requires forall i :: 0 <= i < |samples| ==> InWorld(samples[i], worldSize)
    requires HasFreeSample(samples, occupied)
    ensures InWorld(p, worldSize) && p !in occupied
    ensures p == samples[FirstFreeIndex(samples, occupied)]
    ensures cmds == UntilledCommands(p)
  {
    var i := 0;
    while true
      invariant 0 <= i <= FirstFreeIndex(samples, occupied)
      decreases FirstFreeIndex(samples, occupied) - i
    {
      p := samples[i];
      if p !in occupied {
        cmds := UntilledCommands(p);
        return;
      }
      i := i + 1;
    }
  }

  // ---------------------------------------------------------------------------
  // The decision rules of the other scans.
  // ---------------------------------------------------------------------------

  /** Till the current tile: complete, with the current position as target. */
  function TillCommands(pos: Cell): seq<Command>
  {
    [MarkComplete(Some(pos))]
  }

  /** `PathTo` found no target and cannot move: the search is abandoned. */
  predicate Stuck(pos: Cell, step: PathStep)
  {
    !step.reached && step.next == pos
  }

  function FindRockCommands(pos: Cell, step: PathStep): seq<Command>
  {
    if Stuck(pos, step) then [RemoveTag(FindRock), RemoveTag(TaskClearRock), AddTag(TaskNone)]
    else if step.reached then [MarkComplete(Some(step.next))]
    else [SetTarget(step.next)]
  }

  function FindPlantCommands(pos: Cell, step: PathStep): seq<Command>
  {
    if Stuck(pos, step) then [RemoveTag(FindPlant), AddTag(TaskNone)]
    else if step.reached then [MarkComplete(Some(step.next))]
    else [SetTarget(step.next)]
  }

  /** The shop search never gives up, and its completion leaves `targetPos` unset. */
  function FindShopCommands(step: PathStep): seq<Command>
  {
    if step.reached then [MarkComplete(None)] else [SetTarget(step.next)]
  }

  /**
   * What playing back the find-untilled commands does to a farmer: it gets
   * target `p`, and a complete tag with zero `targetPos` unless it had one.
   */
  lemma UntilledOutcome(f: Farmer, p: Cell)
    ensures Replay(f, UntilledCommands(p)) == f.(target := Some(p), complete := Some(f.complete.GetOr(Origin)))
  {
    var g := Apply(f, SetTarget(p));
    assert UntilledCommands(p)[1..] == [MarkComplete(None)];
    assert Replay(g, [MarkComplete(None)]) == Apply(g, MarkComplete(None));
  }

  /** Tilling marks the farmer complete at the tile it stands on, and touches nothing else. */
  lemma TillOutcome(f: Farmer)
    ensures Replay(f, TillCommands(f.position)) == f.(complete := Some(f.position))
  {
    assert Replay(f, TillCommands(f.position)) == Apply(f, MarkComplete(Some(f.position)));
  }

  /**
   * The find-rock rule takes exactly one of three branches: give up (both rock
   * tags go, TaskNone comes), complete at the reached cell, or head for the
   * next cell.
   */
  lemma FindRockOutcome(f: Farmer, step: PathStep)
    requires FindRockQuery(f)
    ensures var g := Replay(f, FindRockCommands(f.position, step));
      && (Stuck(f.position, step) <==> FindRock !in g.tags)
      && (Stuck(f.position, step) ==>
            g == f.(tags := f.tags - {FindRock, TaskClearRock} + {TaskNone}))
      && (!Stuck(f.position, step) && step.reached <==> g.complete.Some?)
      && (!Stuck(f.position, step) && step.reached ==> g == f.(complete := Some(step.next)))
      && (!step.reached && step.next != f.position <==> g.target.Some?)
      && (!step.reached && step.next != f.position ==> g == f.(target := Some(step.next)))
  {
    var cmds := FindRockCommands(f.position, step);
    if Stuck(f.position, step) {
      var g1 := Apply(f, RemoveTag(FindRock));
      var g2 := Apply(g1, RemoveTag(TaskClearRock));
      assert cmds[1..] == [RemoveTag(TaskClearRock), AddTag(TaskNone)];
      assert cmds[1..][1..] == [AddTag(TaskNone)];
      assert Replay(g2, [AddTag(TaskNone)]) == Apply(g2, AddTag(TaskNone));
      assert Replay(f, cmds) == Apply(g2, AddTag(TaskNone));
    } else if step.reached {
      assert Replay(f, cmds) == Apply(f, MarkComplete(Some(step.next)));
    } else {
      assert Replay(f, cmds) == Apply(f, SetTarget(step.next));
    }
  }

  /** The find-plant rule: as find-rock, but giving up removes only the plant tag. */
  lemma FindPlantOutcome(f: Farmer, step: PathStep)
    requires FindPlantQuery(f)
    ensures var g := Replay(f, FindPlantCommands(f.position, step));
      && (Stuck(f.position, step) <==> FindPlant !in g.tags)
      && (Stuck(f.position, step) ==> g == f.(tags := f.tags - {FindPlant} + {TaskNone}))
      && (!Stuck(f.position, step) && step.reached <==> g.complete.Some?)
      && (!Stuck(f.position, step) && step.reached ==> g == f.(complete := Some(step.next)))
      && (!step.reached && step.next != f.position <==> g.target.Some?)
      && (!step.reached && step.next != f.position ==> g == f.(target := Some(step.next)))
  {
    var cmds := FindPlantCommands(f.position, step);
    if Stuck(f.position, step) {
      var g1 := Apply(f, RemoveTag(FindPlant));
      assert cmds[1..] == [AddTag(TaskNone)];
      assert Replay(g1, [AddTag(TaskNone)]) == Apply(g1, AddTag(TaskNone));
      assert Replay(f, cmds) == Apply(g1, AddTag(TaskNone));
    } else if step.reached {
      assert Replay(f, cmds) == Apply(f, MarkComplete(Some(step.next)));
    } else {
      assert Replay(f, cmds) == Apply(f, SetTarget(step.next));
    }
  }

  /**
   * The find-shop rule has no give-up branch: a farmer that is not at a shop
   * always gets a target, even the cell it stands on; reaching the shop
   * completes with `targetPos` left at its zero value.
   */
  lemma FindShopOutcome(f: Farmer, step: PathStep)
    requires FindShopQuery(f)
    ensures var g := Replay(f, FindShopCommands(step));
      && g.tags == f.tags
      && (step.reached ==> g == f.(complete := Some(Origin)))
      && (!step.reached ==> g == f.(target := Some(step.next)))
  {
    if step.reached {
      assert Replay(f, FindShopCommands(step)) == Apply(f, MarkComplete(None));
    } else {
      assert Replay(f, FindShopCommands(step)) == Apply(f, SetTarget(step.next));
    }
  }

  /**
   * Every scan takes the farmers it acts on out of its own query: after
   * playback none of them is picked up by the same scan again.
   */
  lemma ScansRetireTheirFarmers(f: Farmer, p: Cell, step: PathStep)
    ensures FindUntilledQuery(f) ==> !FindUntilledQuery(Replay(f, UntilledCommands(p)))
    ensures TillQuery(f) ==> !TillQuery(Replay(f, TillCommands(f.position)))
    ensures FindRockQuery(f) ==> !FindRockQuery(Replay(f, FindRockCommands(f.position, step)))
    ensures FindPlantQuery(f) ==> !FindPlantQuery(Replay(f, FindPlantCommands(f.position, step)))
    ensures FindShopQuery(f) ==> !FindShopQuery(Replay(f, FindShopCommands(step)))
  {
    UntilledOutcome(f, p);
    TillOutcome(f);
    if FindRockQuery(f) { FindRockOutcome(f, step); }
    if FindPlantQuery(f) { FindPlantOutcome(f, step); }
    if FindShopQuery(f) { FindShopOutcome(f, step); }
  }

  // ---------------------------------------------------------------------------
  // One frame of scans for one farmer.
  // ---------------------------------------------------------------------------

  /**
   * The commands one frame records for farmer `f`, in playback order (the
   * buffers of the untilled, till, rock, plant and shop scans, created in that
   * order).  `stone`, `plant` and `shop` are the three distance fields'
   * `PathTo` queries; `samples` are the random cells drawn for this farmer.
   */
  function FrameCommands(f: Farmer, samples: seq<Cell>, occupied: set<Cell>,
                         stone: Cell -> PathStep, plant: Cell -> PathStep, shop: Cell -> PathStep): seq<Command>
    requires FindUntilledQuery(f) ==> HasFreeSample(samples, occupied)
  {
    (if FindUntilledQuery(f) then UntilledCommands(samples[FirstFreeIndex(samples, occupied)]) else [])
    + (if TillQuery(f) then TillCommands(f.position) else [])
    + (if FindRockQuery(f) then FindRockCommands(f.position, stone(f.position)) else [])
    + (if FindPlantQuery(f) then FindPlantCommands(f.position, plant(f.position)) else [])
    + (if FindShopQuery(f) then FindShopCommands(shop(f.position)) else [])
  }

  /** A farmer that already carries AISubTaskTagComplete is not touched by any scan. */
  lemma CompleteFarmerUntouched(f: Farmer, samples: seq<Cell>, occupied: set<Cell>,
                                stone: Cell -> PathStep, plant: Cell -> PathStep, shop: Cell -> PathStep)
    requires f.complete.Some?
    ensures FrameCommands(f, samples, occupied, stone, plant, shop) == []
    ensures Replay(f, FrameCommands(f, samples, occupied, stone, plant, shop)) == f
  {
  }

  /**
   * A farmer that has a target but is not complete is left to the till scan
   * alone: every searching scan skips it.
   */
  lemma TargetedFarmerOnlyTilled(f: Farmer, samples: seq<Cell>, occupied: set<Cell>,
                                 stone: Cell -> PathStep, plant: Cell -> PathStep, shop: Cell -> PathStep)
    requires f.target.Some?
    ensures FrameCommands(f, samples, occupied, stone, plant, shop)
            == if TillQuery(f) then TillCommands(f.position) else []
  {
  }

  /**
   * A farmer searching for rock and doing nothing else gets exactly the
   * find-rock decision for the stone field's answer at its position.
   */
  lemma RockSearcherFrame(f: Farmer, samples: seq<Cell>, occupied: set<Cell>,
                          stone: Cell -> PathStep, plant: Cell -> PathStep, shop: Cell -> PathStep)
    requires FindRockQuery(f)
    requires FindUntilledTile !in f.tags && TillGroundTile !in f.tags
    requires FindPlant !in f.tags && FindShop !in f.tags
    ensures Replay(f, FrameCommands(f, samples, occupied, stone, plant, shop))
            == Replay(f, FindRockCommands(f.position, stone(f.position)))
  {
    var cmds := FindRockCommands(f.position, stone(f.position));
    assert FrameCommands(f, samples, occupied, stone, plant, shop) == [] + [] + cmds + [] + [];
    assert [] + [] + cmds + [] + [] == cmds;
  }

  /**
   * A farmer both tilling and at the shop: the till scan's `targetPos` is
   * recorded first and the shop scan's data-less completion does not reset it.
   */
  lemma TillSurvivesShopCompletion(f: Farmer, samples: seq<Cell>, occupied: set<Cell>,
                                   stone: Cell -> PathStep, plant: Cell -> PathStep, shop: Cell -> PathStep)
    requires f.tags == {TillGroundTile, FindShop} && f.complete.None? && f.target.None?
    requires shop(f.position).reached
    ensures Replay(f, FrameCommands(f, samples, occupied, stone, plant, shop))
            == f.(complete := Some(f.position))
  {
    var cmds := FrameCommands(f, samples, occupied, stone, plant, shop);
    assert cmds == [MarkComplete(Some(f.position)), MarkComplete(None)];
    var g := Apply(f, MarkComplete(Some(f.position)));
    assert cmds[1..] == [MarkComplete(None)];
    assert Replay(g, [MarkComplete(None)]) == Apply(g, MarkComplete(None));
  }

  // ---------------------------------------------------------------------------
  // The dirty flag that schedules distance-field rebuilds.
  // ---------------------------------------------------------------------------

  datatype FieldKind = PlantField | StoneField | ShopField

  /** The rebuilds `PlantOrStoneChanged` schedules, in its order. */
  const RebuildAll: seq<FieldKind> := [ShopField, PlantField, StoneField]

  /** The rebuilds the system schedules when it is created. */
  const InitialBuilds: seq<FieldKind> := [PlantField, StoneField, ShopField]

  /** The flag, and every `Schedule()` call made on a distance field so far. */
  datatype SyncState = SyncState(dirty: bool, scheduled: seq<FieldKind>)

  datatype SyncEvent =
    | Changed      // PlantOrStoneChanged()
    | MarkedDirty  // DistFieldDirty()

  function Step(s: SyncState, e: SyncEvent): SyncState
  {
    match e
    case Changed => if s.dirty then SyncState(false, s.scheduled + RebuildAll) else s
    case MarkedDirty => s.(dirty := true)
  }

  /** The state after a run of calls, last call last. */
  function Run(s: SyncState, evs: seq<SyncEvent>): SyncState
    decreases |evs|
  {
    if evs == [] then s else Step(Run(s, evs[..|evs| - 1]), evs[|evs| - 1])
  }

  function MarkCount(evs: seq<SyncEvent>): nat
    decreases |evs|
  {
    if evs == [] then 0 else MarkCount(evs[..|evs| - 1]) + (if evs[|evs| - 1] == MarkedDirty then 1 else 0)
  }

  /**
   * Rebuilds are batched: a run of calls schedules at most one rebuild of all
   * three fields per DistFieldDirty call, plus one if the flag was set at the
   * start (a flag still set at the end holds one of those back), and it never
   * drops what was scheduled before.
   */
  lemma {:induction false} RebuildsBoundedByMarks(s: SyncState, evs: seq<SyncEvent>)
    ensures s.scheduled <= Run(s, evs).scheduled
    ensures |Run(s, evs).scheduled| + |RebuildAll| * (if Run(s, evs).dirty then 1 else 0)
            <= |s.scheduled| + |RebuildAll| * ((if s.dirty then 1 else 0) + MarkCount(evs))
    ensures !s.dirty && MarkCount(evs) == 0 ==> Run(s, evs) == s
    decreases |evs|
  {
    if evs != [] {
      RebuildsBoundedByMarks(s, evs[..|evs| - 1]);
    }
  }

  /**
   * With no DistFieldDirty call in between, any number of PlantOrStoneChanged
   * calls schedule the three rebuilds once if the flag was set, and otherwise
   * not at all; after the first of them the flag is clear.
   */
  lemma {:induction false} ChangedIsIdempotent(s: SyncState, evs: seq<SyncEvent>)
    requires MarkCount(evs) == 0
    ensures Run(s, evs).scheduled == s.scheduled + (if s.dirty && Changed in evs then RebuildAll else [])
    ensures Run(s, evs).dirty == (s.dirty && Changed !in evs)
    decreases |evs|
  {
    if evs != [] {
      var init := evs[..|evs| - 1];
      assert MarkCount(init) == 0;
      ChangedIsIdempotent(s, init);
      assert Changed in evs <==> Changed in init || evs[|evs| - 1] == Changed by {
        assert evs == init + [evs[|evs| - 1]];
      }
    }
  }

  /** The pathfinding system's scheduling state. */
  class PathfindingSystem {
    var dirty: bool
    var scheduled: seq<FieldKind>

    function State(): SyncState
      reads this
    {
      SyncState(dirty, scheduled)
    }

    /** Creation builds all three fields and leaves the flag set. */
    constructor ()
      ensures State() == SyncState(true, InitialBuilds)
    {
      dirty := true;
      scheduled := InitialBuilds;
    }

    /** Rebuild all three fields if the flag is set, then clear it. */
    method PlantOrStoneChanged()
      modifies this
      ensures State() == Step(old(State()), Changed)
      ensures !dirty
      ensures scheduled == old(scheduled) + (if old(dirty) then RebuildAll else [])
    {
      if dirty {
        scheduled := scheduled + [ShopField];
        scheduled := scheduled + [PlantField];
        scheduled := scheduled + [StoneField];
        dirty := false;
      }
    }

    /** Mark the fields stale; nothing else changes. */
    method DistFieldDirty()
      modifies this`dirty
      ensures State() == Step(old(State()), MarkedDirty)
      ensures dirty && scheduled == old(scheduled)
    {
      dirty := true;
    }
  }
}
