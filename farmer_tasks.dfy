/**
 * The farmer AI's task state and the deferred structural commands that the
 * pathfinding scans record into entity command buffers.  A scan never changes
 * an entity directly: it appends commands, and the command buffer system plays
 * them back later, one after another, in the order they were recorded.
 */
module FarmerTasks {
  import opened Wrappers

  /** An `int2` grid coordinate. */
  datatype Cell = Cell(x: int, y: int)

  /** The value an `int2` component field holds when nobody sets it. */
  const Origin := Cell(0, 0)

  /** The data-less tag components the pathfinding scans look at or change. */
  datatype Tag =
    | FindUntilledTile   // AISubTaskTagFindUntilledTile
    | TillGroundTile     // AISubTaskTagTillGroundTile
    | FindRock           // AISubTaskTagFindRock
    | FindPlant          // AISubTaskTagFindPlant
    | FindShop           // AISubTaskTagFindShop
    | TaskClearRock      // AITagTaskClearRock
    | TaskNone           // AITagTaskNone

  /**
   * One farmer entity as the scans see it: its tile position (TilePositionable),
   * its tag components, its HasTarget component (with the target cell) and its
   * AISubTaskTagComplete component (with its `targetPos`).
   */
  datatype Farmer = Farmer(position: Cell, tags: set<Tag>, target: Option<Cell>, complete: Option<Cell>)

  /** A deferred structural change recorded into an entity command buffer. */
  datatype Command =
    | AddTag(tag: Tag)                        // AddComponent<T>
    | RemoveTag(tag: Tag)                     // RemoveComponent<T>
    | SetTarget(pos: Cell)                    // AddComponent(new HasTarget(pos))
    | MarkComplete(targetPos: Option<Cell>)   // AddComponent AISubTaskTagComplete, targetPos given or left unset

  /**
   * Playback of one command.  Adding a component with data sets its value;
   * adding AISubTaskTagComplete without data gives a new component the zero
   * `targetPos` and leaves an existing one as it is.
   */
  function Apply(f: Farmer, c: Command): Farmer
  {
    match c
    case AddTag(t) => f.(tags := f.tags + {t})
    case RemoveTag(t) => f.(tags := f.tags - {t})
    case SetTarget(p) => f.(target := Some(p))
    case MarkComplete(Some(p)) => f.(complete := Some(p))
    case MarkComplete(None) => f.(complete := Some(f.complete.GetOr(Origin)))
  }

  /** Playback of a command buffer, first command first. */
  function Replay(f: Farmer, cmds: seq<Command>): (g: Farmer)
    ensures g.position == f.position
    ensures f.complete.Some? ==> g.complete.Some?
    ensures f.target.Some? ==> g.target.Some?
    decreases |cmds|
  {
    if cmds == [] then f else Replay(Apply(f, cmds[0]), cmds[1..])
  }

  /** Playing back two buffers one after the other is playing back their concatenation. */
  lemma {:induction false} ReplayAppend(f: Farmer, a: seq<Command>, b: seq<Command>)
    ensures Replay(f, a + b) == Replay(Replay(f, a), b)
    decreases |a|
  {
    if a == [] {
      assert a + b == b;
    } else {
      assert (a + b)[0] == a[0];
      assert (a + b)[1..] == a[1..] + b;
      ReplayAppend(Apply(f, a[0]), a[1..], b);
    }
  }
}
