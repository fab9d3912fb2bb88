# Farmer task dispatch and cloth constraint simulation

This project models two Unity ECS systems of the DOTS training samples in Dafny.

**The farmer pathfinding system** (`PathfindingSystem`) scans farmer entities once per frame.
- Each scan's query (its `WithAll` / `WithNone` lists) picks the farmers whose current sub-task it handles.
- For each such farmer, the scan records deferred structural commands into an entity command buffer: add or remove a tag, add `HasTarget`, add `AISubTaskTagComplete` with or without a `targetPos`.
- The command buffer system plays these commands back later, in recording order.
- The decisions depend on the answer of `DistanceField.PathTo`. The model treats that answer as an opaque function from cell to `(next cell, reached)`.
- A `dirty` flag decides when the three distance fields (plant, stone, shop) are rebuilt.

The model has four parts:
- The farmer state and a pure playback fold (`FarmerTasks`).
- The five decision rules as functions from position and `PathTo` answer to a command list, and the five query filters as predicates (`Pathfinding`).
- The find-untilled-tile retry loop as a method over a given sequence of random draws.
- The dirty-flag protocol as a class with the source's two methods, plus a pure run function over call sequences.

**The cloth system** (`ClothSimEcsSystem`) builds one constraint graph ("bar sim") per mesh and shares it between instances:
- a 0/1 pin per vertex;
- the canonical, de-duplicated triangle edges ("bars") that do not join two pins;
- a rest length per bar.

Every frame, each instance runs two jobs in order on its vertex buffers:
1. A bar-relaxation job that moves the free ends of each bar towards its rest length, in place.
2. A batched Verlet integration job with a floor at world `y = 0`.

The model keeps the arrays and in-place loops of the source:
- `ComputePins`, `CollectBars`, `ComputeBarLengths`, `ClothBarSimJob` and `ClothSimVertexJob0` are methods with loop invariants.
- They are proved against specification functions (`PinValue`, `KeptEdges`, `RestLength`, `RelaxBar` / `Relaxed`, `VertexStep` / `IntegrateAll`).
- Lemmas state the promised properties of those functions.
- The mesh cache is a class over a `map`, and the job-handle array is a class with an `array` field.

Vectors are triples of reals. Three pieces of float maths are function parameters:
- `math.length` / `magnitude` is `length`;
- `math.transform` by `localToWorld` is `toWorld`;
- `math.transform` by its inverse is `toLocal`.

The literals `0.3f` and `0.9f` are kept as their exact binary32 values.

The model follows the code on these points:
- The find-shop completion leaves `targetPos` at its zero value (`Origin`).
- The find-untilled-tile completion also carries no `targetPos`.
- Adding `AISubTaskTagComplete` without data to a farmer that already has it keeps the existing `targetPos`. Adding it with data sets `targetPos`.
- The graph cache is never released: the code keeps every entry until the system is destroyed.

The pin rule for a mesh without normals is the one the code evidently intends: such a mesh is pinned by height alone. This is what `ComputePins`, `BuildBarSim` and `AddSharedComponents` use. The code as written instead fails on such a mesh. `PinsAsWritten` and `NormalFreeMeshFailsAsWritten` model that failure (see Findings).

## Model

Source paths are relative to the repository root.

| member | source | states |
|---|---|---|
| FarmerTasks.Apply | Ported/iurii_yzhang_davidmo_sramani/AutoFarmers/Assets/Scripts/TilePathfinding/Scripts/PathfindingSystem.cs:73-74 | Playback of one recorded command. It is stated through the outcome lemmas below. A data-less `AISubTaskTagComplete` keeps an existing `targetPos` (`TillSurvivesShopCompletion`). |
| FarmerTasks.Replay | Ported/iurii_yzhang_davidmo_sramani/AutoFarmers/Assets/Scripts/TilePathfinding/Scripts/PathfindingSystem.cs:201-209 | The command buffer system's playback of the commands the scans record (at lines 73-74, 104, 122-131, 154-160, 179-181). Playback never moves the farmer. It never removes an existing `AISubTaskTagComplete` or `HasTarget` either: commands only add those. |
| FarmerTasks.ReplayAppend | Ported/iurii_yzhang_davidmo_sramani/AutoFarmers/Assets/Scripts/TilePathfinding/Scripts/PathfindingSystem.cs:201-209 | Playing back the buffers one after another equals playing back their concatenation. This is what lets the five scans' buffers be reasoned about as one frame's list. |
| Pathfinding.FirstFreeIndex | Ported/iurii_yzhang_davidmo_sramani/AutoFarmers/Assets/Scripts/TilePathfinding/Scripts/PathfindingSystem.cs:69-77 | The index it returns holds a free cell, and every earlier draw is occupied (so occupied draws are skipped). |
| Pathfinding.FindUntilledTarget | Ported/iurii_yzhang_davidmo_sramani/AutoFarmers/Assets/Scripts/TilePathfinding/Scripts/PathfindingSystem.cs:67-78 | The chosen cell is inside the world and not in the occupancy map. It is the first free draw. Exactly the two commands `HasTarget(p)` then `AISubTaskTagComplete` are recorded. |
| Pathfinding.UntilledCommands | Ported/iurii_yzhang_davidmo_sramani/AutoFarmers/Assets/Scripts/TilePathfinding/Scripts/PathfindingSystem.cs:73-74 | The two commands recorded for a free cell `p`. Their effect is stated by `UntilledOutcome`. |
| Pathfinding.UntilledOutcome | Ported/iurii_yzhang_davidmo_sramani/AutoFarmers/Assets/Scripts/TilePathfinding/Scripts/PathfindingSystem.cs:73-74 | After playback the farmer has target `p`. It is complete with an unset (zero) `targetPos`, or with the one it already had. Nothing else changes. |
| Pathfinding.TillCommands | Ported/iurii_yzhang_davidmo_sramani/AutoFarmers/Assets/Scripts/TilePathfinding/Scripts/PathfindingSystem.cs:104 | The single command the till scan records. Its effect is stated by `TillOutcome`. |
| Pathfinding.TillOutcome | Ported/iurii_yzhang_davidmo_sramani/AutoFarmers/Assets/Scripts/TilePathfinding/Scripts/PathfindingSystem.cs:102-105 | Tilling completes the farmer with `targetPos` equal to its own position. It has no precondition and changes nothing else. |
| Pathfinding.Stuck | Ported/iurii_yzhang_davidmo_sramani/AutoFarmers/Assets/Scripts/TilePathfinding/Scripts/PathfindingSystem.cs:120 | The give-up test: not reached and `PathTo` returns the farmer's own cell. |
| Pathfinding.FindRockCommands | Ported/iurii_yzhang_davidmo_sramani/AutoFarmers/Assets/Scripts/TilePathfinding/Scripts/PathfindingSystem.cs:118-132 | The find-rock decision as a command list. Its effect is stated by `FindRockOutcome`. |
| Pathfinding.FindRockOutcome | Ported/iurii_yzhang_davidmo_sramani/AutoFarmers/Assets/Scripts/TilePathfinding/Scripts/PathfindingSystem.cs:116-133 | Exactly one of three outcomes. Not reached and not moving: `AISubTaskTagFindRock` and `AITagTaskClearRock` removed, `AITagTaskNone` added, nothing else changed. Otherwise reached: complete with `targetPos = next`. Otherwise: `HasTarget(next)`. Each outcome is stated as an if-and-only-if on the played-back farmer. |
| Pathfinding.FindPlantCommands | Ported/iurii_yzhang_davidmo_sramani/AutoFarmers/Assets/Scripts/TilePathfinding/Scripts/PathfindingSystem.cs:150-161 | The find-plant decision as a command list. Its effect is stated by `FindPlantOutcome`. |
| Pathfinding.FindPlantOutcome | Ported/iurii_yzhang_davidmo_sramani/AutoFarmers/Assets/Scripts/TilePathfinding/Scripts/PathfindingSystem.cs:146-162 | The same three-way rule. Its give-up branch removes only `AISubTaskTagFindPlant` and adds `AITagTaskNone`. |
| Pathfinding.FindShopCommands | Ported/iurii_yzhang_davidmo_sramani/AutoFarmers/Assets/Scripts/TilePathfinding/Scripts/PathfindingSystem.cs:176-182 | The find-shop decision as a command list. Its effect is stated by `FindShopOutcome`. |
| Pathfinding.FindShopOutcome | Ported/iurii_yzhang_davidmo_sramani/AutoFarmers/Assets/Scripts/TilePathfinding/Scripts/PathfindingSystem.cs:174-183 | No give-up branch, and tags never change. Reached: complete with `targetPos` left at zero. Otherwise: `HasTarget(next)`, even when `next` is the farmer's own cell. |
| Pathfinding.FindUntilledQuery | Ported/iurii_yzhang_davidmo_sramani/AutoFarmers/Assets/Scripts/TilePathfinding/Scripts/PathfindingSystem.cs:62-63 | The find-untilled scan's query: the tag, and neither `AISubTaskTagComplete` nor `HasTarget`. Used by `ScansRetireTheirFarmers` and the frame lemmas. |
| Pathfinding.TillQuery | Ported/iurii_yzhang_davidmo_sramani/AutoFarmers/Assets/Scripts/TilePathfinding/Scripts/PathfindingSystem.cs:99-100 | The till scan's query: the tag, and no `AISubTaskTagComplete`. `HasTarget` does not matter (`TargetedFarmerOnlyTilled`). |
| Pathfinding.FindRockQuery | Ported/iurii_yzhang_davidmo_sramani/AutoFarmers/Assets/Scripts/TilePathfinding/Scripts/PathfindingSystem.cs:112-114 | The find-rock scan's query: the tag, and neither `AISubTaskTagComplete` nor `HasTarget`. |
| Pathfinding.FindPlantQuery | Ported/iurii_yzhang_davidmo_sramani/AutoFarmers/Assets/Scripts/TilePathfinding/Scripts/PathfindingSystem.cs:141-143 | The find-plant scan's query: the tag, and neither `AISubTaskTagComplete` nor `HasTarget`. |
| Pathfinding.FindShopQuery | Ported/iurii_yzhang_davidmo_sramani/AutoFarmers/Assets/Scripts/TilePathfinding/Scripts/PathfindingSystem.cs:170-172 | The find-shop scan's query: the tag, and neither `AISubTaskTagComplete` nor `HasTarget`. |
| Pathfinding.ScansRetireTheirFarmers | Ported/iurii_yzhang_davidmo_sramani/AutoFarmers/Assets/Scripts/TilePathfinding/Scripts/PathfindingSystem.cs:61-183 | For each of the five scans: a farmer its query selects is no longer selected by that query after playback of what the scan records. |
| Pathfinding.FrameCommands | Ported/iurii_yzhang_davidmo_sramani/AutoFarmers/Assets/Scripts/TilePathfinding/Scripts/PathfindingSystem.cs:59-209 | One frame's commands for one farmer: each scan whose query selects it contributes its decision, in the buffers' creation order. Stated by `CompleteFarmerUntouched`, `TargetedFarmerOnlyTilled`, `RockSearcherFrame` and `TillSurvivesShopCompletion`. |
| Pathfinding.CompleteFarmerUntouched | Ported/iurii_yzhang_davidmo_sramani/AutoFarmers/Assets/Scripts/TilePathfinding/Scripts/PathfindingSystem.cs:62-63 | A farmer that already has `AISubTaskTagComplete` gets no command from any scan in a frame. Playback leaves it as it was. (Query filters at lines 62-63, 99-100, 112-114, 141-143, 170-172.) |
| Pathfinding.TargetedFarmerOnlyTilled | Ported/iurii_yzhang_davidmo_sramani/AutoFarmers/Assets/Scripts/TilePathfinding/Scripts/PathfindingSystem.cs:98-105 | A farmer with `HasTarget` but not complete is skipped by every search scan. At most the till scan acts on it. |
| Pathfinding.RockSearcherFrame | Ported/iurii_yzhang_davidmo_sramani/AutoFarmers/Assets/Scripts/TilePathfinding/Scripts/PathfindingSystem.cs:107-133 | A farmer whose only sub-task is find-rock gets, for the whole frame, exactly the find-rock decision on the stone field's `PathTo` answer at its position. |
| Pathfinding.TillSurvivesShopCompletion | Ported/iurii_yzhang_davidmo_sramani/AutoFarmers/Assets/Scripts/TilePathfinding/Scripts/PathfindingSystem.cs:174-181 | A farmer both tilling and at the shop ends the frame complete with its own position as `targetPos`. The shop scan's data-less completion, played back after the till scan's, does not reset it. |
| Pathfinding.Step | Ported/iurii_yzhang_davidmo_sramani/AutoFarmers/Assets/Scripts/TilePathfinding/Scripts/PathfindingSystem.cs:221-246 | One call of `PlantOrStoneChanged` or `DistFieldDirty` on the flag and the scheduled rebuilds. The class methods are proved equal to it, and `RebuildsBoundedByMarks` and `ChangedIsIdempotent` state its runs. |
| Pathfinding.RebuildsBoundedByMarks | Ported/iurii_yzhang_davidmo_sramani/AutoFarmers/Assets/Scripts/TilePathfinding/Scripts/PathfindingSystem.cs:219-246 | Over any run of calls: scheduled rebuilds only grow. At most one three-field rebuild happens per `DistFieldDirty` call, plus one if the flag was set at the start. A clean flag with no `DistFieldDirty` call schedules nothing. |
| Pathfinding.ChangedIsIdempotent | Ported/iurii_yzhang_davidmo_sramani/AutoFarmers/Assets/Scripts/TilePathfinding/Scripts/PathfindingSystem.cs:221-241 | Any number of `PlantOrStoneChanged` calls with no `DistFieldDirty` between them schedule the three rebuilds exactly once if the flag was set, and never otherwise. The flag ends clear iff some call happened or it was clear. |
| Pathfinding.PathfindingSystem.constructor | Ported/iurii_yzhang_davidmo_sramani/AutoFarmers/Assets/Scripts/TilePathfinding/Scripts/PathfindingSystem.cs:26-40 | Creation schedules the plant, stone and shop builds, in that order, and the flag starts set (line 219). |
| Pathfinding.PathfindingSystem.PlantOrStoneChanged | Ported/iurii_yzhang_davidmo_sramani/AutoFarmers/Assets/Scripts/TilePathfinding/Scripts/PathfindingSystem.cs:221-241 | Shop, plant and stone rebuilds are appended iff the flag was set on entry. The flag is clear afterwards. |
| Pathfinding.PathfindingSystem.DistFieldDirty | Ported/iurii_yzhang_davidmo_sramani/AutoFarmers/Assets/Scripts/TilePathfinding/Scripts/PathfindingSystem.cs:243-246 | Sets the flag and leaves the scheduled rebuilds unchanged. |
| ClothConstraints.PinValue | Ported/jvalenzu/JobClothECS/Assets/Scripts/ClothSimEcsSystem.cs:30-45 | The pin of one vertex under the intended rule. `ComputePins` is proved to fill the array with it. `PinsAsWrittenAgreeWithNormals` shows it agrees with the code whenever there is one normal per vertex. |
| ClothConstraints.ComputePins | Ported/jvalenzu/JobClothECS/Assets/Scripts/ClothSimEcsSystem.cs:30-45 | One pin per vertex, each 0 or 1. With normals, a vertex is pinned iff `normal.y >= 0.9f` and `y > 0.3f`. Without normals, it is pinned iff `y > 0.3f` (the corrected rule, see Findings). |
| ClothConstraints.PinsAsWritten | Ported/jvalenzu/JobClothECS/Assets/Scripts/ClothSimEcsSystem.cs:32-45 | The pin loop as written always reads the normals. It fails (out-of-range index) iff there are fewer normals than vertices, and otherwise gives one pin per vertex. |
| ClothConstraints.NormalFreeMeshFailsAsWritten | Ported/jvalenzu/JobClothECS/Assets/Scripts/ClothSimEcsSystem.cs:32-38 | A one-vertex mesh above the pin height with no normals. As written, the loop fails; under the intended height-only rule, the vertex is pinned. |
| ClothConstraints.PinsAsWrittenAgreeWithNormals | Ported/jvalenzu/JobClothECS/Assets/Scripts/ClothSimEcsSystem.cs:39-45 | On a mesh with one normal per vertex, the code as written succeeds and gives exactly the corrected rule's pins. |
| ClothConstraints.Canonical | Ported/jvalenzu/JobClothECS/Assets/Scripts/ClothSimEcsSystem.cs:53-60 | The pair comes out smaller index first and is the input pair in one of its two orders. |
| ClothConstraints.KeptEdgesShape | Ported/jvalenzu/JobClothECS/Assets/Scripts/ClothSimEcsSystem.cs:53-67 | Every collected edge is canonical, has both ends among the vertices, and does not join two pinned vertices. |
| ClothConstraints.CollectBars | Ported/jvalenzu/JobClothECS/Assets/Scripts/ClothSimEcsSystem.cs:47-69 | The hash set ends up as exactly the set of canonicalised triangle edges `(t[i+j], t[i+(j+1)%3])` that are not both pinned. Every member is canonical, in range and not between two pins. |
| ClothConstraints.ListOf | Ported/jvalenzu/JobClothECS/Assets/Scripts/ClothSimEcsSystem.cs:70-71 | The bar list holds each member of the set exactly once. Its order is not fixed. |
| ClothConstraints.ComputeBarLengths | Ported/jvalenzu/JobClothECS/Assets/Scripts/ClothSimEcsSystem.cs:72-79 | One rest length per bar, each the length of the vector from its first vertex to its second. |
| ClothConstraints.BuildBarSim | Ported/jvalenzu/JobClothECS/Assets/Scripts/ClothSimEcsSystem.cs:30-84 | The built graph has the pins of the pin rule, the distinct kept edges and their rest lengths. It is well-formed: 0/1 pins, canonical in-range bars never joining two pins, no repeats, lengths parallel to bars. |
| ClothConstraints.BarsFollowTriangleEdges | Ported/jvalenzu/JobClothECS/Assets/Scripts/ClothSimEcsSystem.cs:47-71 | Every triangle edge whose ends are not both pinned has its canonical bar in `bars`. Every bar is such an edge. |
| ClothConstraints.EachEdgeOnce | Ported/jvalenzu/JobClothECS/Assets/Scripts/ClothSimEcsSystem.cs:53-66 | In a well-formed graph, an undirected edge shared by two triangles appears as one bar, never two. |
| ClothConstraints.BuiltIsWellFormed | Ported/jvalenzu/JobClothECS/Assets/Scripts/ClothSimEcsSystem.cs:47-84 | Any graph built from a mesh has the shape the jobs rely on. |
| ClothConstraints.Mesh.constructor | Ported/jvalenzu/JobClothECS/Assets/Scripts/ClothSimEcsSystem.cs:30-48 | A mesh holds the vertices, normals and triangle indices the setup reads. |
| ClothConstraints.BarSimLookup.constructor | Ported/jvalenzu/JobClothECS/Assets/Scripts/ClothSimEcsSystem.cs:14 | The static lookup starts empty. |
| ClothConstraints.BarSimLookup.AddSharedComponents | Ported/jvalenzu/JobClothECS/Assets/Scripts/ClothSimEcsSystem.cs:23-90 | Afterwards the mesh has an entry, and that entry is what the entity shares. A mesh seen before gets its stored graph and the lookup is unchanged. A new mesh gets a graph built from it, and only its entry is added. Every entry stays well-formed. |
| ClothJobs.WellFormedFitsJobs | Ported/jvalenzu/JobClothECS/Assets/Scripts/ClothSimEcsSystem.cs:240-261 | A graph the setup builds is valid input for both jobs of an instance of its mesh: one pin per vertex, a rest length for every bar, every bar within the vertices. |
| ClothJobs.RelaxBar | Ported/jvalenzu/JobClothECS/Assets/Scripts/ClothSimEcsSystem.cs:106-124 | One bar's correction writes only that bar's two ends. It never writes a pinned vertex: both ends free, both may move; one pinned, only the free one; both pinned, nothing. |
| ClothJobs.Relaxed | Ported/jvalenzu/JobClothECS/Assets/Scripts/ClothSimEcsSystem.cs:104-125 | Relaxing the first `k` bars in order keeps the vertex count. |
| ClothJobs.RelaxedKeepsPins | Ported/jvalenzu/JobClothECS/Assets/Scripts/ClothSimEcsSystem.cs:110-124 | The relaxation pass never moves a pinned vertex. |
| ClothJobs.RelaxedWritesOnlyBarEnds | Ported/jvalenzu/JobClothECS/Assets/Scripts/ClothSimEcsSystem.cs:104-125 | A vertex that is no end of the bars relaxed so far keeps its position. |
| ClothJobs.RelaxBarInPlace | Ported/jvalenzu/JobClothECS/Assets/Scripts/ClothSimEcsSystem.cs:106-124 | The in-place update of one bar leaves the vertex array equal to that bar's correction applied to the old array. |
| ClothJobs.ClothBarSimJob | Ported/jvalenzu/JobClothECS/Assets/Scripts/ClothSimEcsSystem.cs:103-126 | After the job, the vertex array equals every bar relaxed once, in bar order, starting from the old array. So pinned and untouched vertices keep their positions. |
| ClothJobs.RelaxBarKeepsMidpoint | Ported/jvalenzu/JobClothECS/Assets/Scripts/ClothSimEcsSystem.cs:117-119 | A bar between two free vertices moves them by opposite amounts, so their midpoint stays put. |
| ClothJobs.RelaxBarAtRest | Ported/jvalenzu/JobClothECS/Assets/Scripts/ClothSimEcsSystem.cs:113-124 | A bar already at its rest length changes nothing. |
| ClothJobs.RelaxedAtRest | Ported/jvalenzu/JobClothECS/Assets/Scripts/ClothSimEcsSystem.cs:104-125 | A cloth whose bars are all at rest length is left unchanged by the relaxation pass. |
| ClothJobs.NoFloorContact | Ported/jvalenzu/JobClothECS/Assets/Scripts/ClothSimEcsSystem.cs:150-157 | Without floor contact, the new position is `current + (current - (previous - gravity))` and the new previous position is the old current one. |
| ClothJobs.FloorClamp | Ported/jvalenzu/JobClothECS/Assets/Scripts/ClothSimEcsSystem.cs:158-165 | A step that would go below the floor ends on it, keeping world x and z. The world-space vertical velocity is the incoming one reversed and halved. |
| ClothJobs.NeverBelowFloor | Ported/jvalenzu/JobClothECS/Assets/Scripts/ClothSimEcsSystem.cs:158-165 | When the two transforms are inverse, an integrated vertex never ends a step below world `y = 0`. |
| ClothJobs.Integrate | Ported/jvalenzu/JobClothECS/Assets/Scripts/ClothSimEcsSystem.cs:150-168 | The Verlet step of a free vertex with the floor clamp. Stated by `NoFloorContact`, `FloorClamp` and `NeverBelowFloor`. |
| ClothJobs.VertexStep | Ported/jvalenzu/JobClothECS/Assets/Scripts/ClothSimEcsSystem.cs:147-168 | A pinned vertex keeps both positions, and a free one is integrated. `ClothSimVertexJob0` is proved to apply it to every index of its batch. |
| ClothJobs.ClothSimVertexJob0 | Ported/jvalenzu/JobClothECS/Assets/Scripts/ClothSimEcsSystem.cs:144-170 | Only indices in `[startIndex, startIndex+count)` of either buffer are written. Each one gets the vertex step: pinned vertices keep both positions, free ones are integrated. |
| ClothJobs.IntegrateAll | Ported/jvalenzu/JobClothECS/Assets/Scripts/ClothSimEcsSystem.cs:144-170 | The integration pass over all vertices keeps both buffers' lengths. Its content is tied to the batched job by `ScheduleBatch`. |
| ClothJobs.SimStep | Ported/jvalenzu/JobClothECS/Assets/Scripts/ClothSimEcsSystem.cs:240-261 | One frame (relaxation, then integration) keeps both buffers' lengths. Its content is tied to the jobs by `SimulateInstance`. |
| ClothJobs.ScheduleBatch | Ported/jvalenzu/JobClothECS/Assets/Scripts/ClothSimEcsSystem.cs:252-261 | Running the vertex job over consecutive batches covering all vertices gives exactly the whole-cloth integration of the old buffers. |
| ClothJobs.SimulateInstance | Ported/jvalenzu/JobClothECS/Assets/Scripts/ClothSimEcsSystem.cs:240-262 | One instance's frame, the bar job followed by the dependent vertex job, turns the buffers into `SimStep` of the old buffers: relaxation first, then integration. |
| ClothJobs.Simulate | Ported/jvalenzu/JobClothECS/Assets/Scripts/ClothSimEcsSystem.cs:214-269 | Consecutive frames, each under its own placement: that frame's gravity step (from its `Time.DeltaTime`) and its `LocalToWorld` transform. Both buffers keep their lengths. |
| ClothJobs.PinnedVerticesNeverMove | Ported/jvalenzu/JobClothECS/Assets/Scripts/ClothSimEcsSystem.cs:104-170 | Over any sequence of frames, whatever each frame's gravity and transform, a pinned vertex keeps its current and previous positions exactly: the bar job never writes it and the vertex job skips it. |
| ClothJobs.StillClothStaysPut | Ported/jvalenzu/JobClothECS/Assets/Scripts/ClothSimEcsSystem.cs:240-261 | A cloth with every bar at rest length, no velocity, no gravity and every vertex above the floor does not move in a frame. |
| ClothSystem.ClothSimEcsSystem.constructor | Ported/jvalenzu/JobClothECS/Assets/Scripts/ClothSimEcsSystem.cs:186-201 | Creation allocates a fresh, zeroed handle array with room for the initial highwater of 5 instances (lines 18-21). |
| ClothSystem.ClothSimEcsSystem.PotentiallyResizeBecauseNewEntityHighwater | Ported/jvalenzu/JobClothECS/Assets/Scripts/ClothSimEcsSystem.cs:203-212 | Afterwards the handle array holds at least `newHighwater` entries. It is replaced by a fresh, zeroed array of exactly `newHighwater` iff that exceeds the old length, and is otherwise the same array. |
| ClothSystem.ClothSimEcsSystem.StoreInstanceHandles | Ported/jvalenzu/JobClothECS/Assets/Scripts/ClothSimEcsSystem.cs:219-265 | With a positive entity count, each handle of the instances the simulation scan visits (at most the count) sits at its query index. If the count fits the array, it is the same array, and every entry from the last handle on is unchanged. Otherwise it is a fresh array of exactly the count, zeroed beyond the handles. The combined slice is the handles, then the entries up to the count. With a zero count, neither the array nor its contents change. |

## Left out

- `DistanceField` (construction, rebuild jobs, `Complete`, `PathTo`) is not part of this model. `PathTo` is a function parameter from a cell to its `(next, reached)` answer. The three `Complete()` sync points are not modelled.
- Random draws: `Random` seeded from `DateTime.Now.Ticks` is replaced by a given sequence of draws, each inside the world. The source retries without bound, so `FindUntilledTarget` requires that some draw is free.
- Each scan's loop over the entities of its query, and the thread indices passed to the command buffers, are left out. The model takes one farmer at a time. Cross-entity effects, such as two farmers picking the same free cell in one frame, are not captured.
- Job scheduling, `JobHandle` dependencies, `AddJobHandleForProducer`, entity-query construction, `RequireForUpdate`, `Dispose` and `OnDestroy` are engine plumbing and concurrency, and are left out. The frame order is kept as a sequential call: the bar job, then the vertex job.
- `mesh.SetVertices` (upload of last frame's positions for rendering) is I/O and is left out.
- Float arithmetic: every float is a real. Rounding, overflow and NaN are not modelled. `math.length` is the parameter `length`. `math.transform` by `localToWorld` and by `math.inverse(localToWorld)` are the parameters `toWorld` and `toLocal`. Each frame's gravity vector is a given input, not derived from `Time.DeltaTime`.
- ClothJobs.RelaxBar: normalising a zero-length bar gives NaN in the source. The model gives the zero vector (no correction) instead.
- ClothJobs.Relaxed: its own contract states only the length. Pins are stated by `RelaxedKeepsPins` and untouched vertices by `RelaxedWritesOnlyBarEnds`.
- ClothJobs.ScheduleBatch: requires a positive batch size. The source passes `vLength / processorCount`, which is 0 for a mesh with fewer vertices than processors. The engine's handling of that case is not modelled.
- ClothSystem.ClothSimEcsSystem.StoreInstanceHandles: the handles are given values. What `JobHandle.CombineDependencies` does with them, stale entries included, is left out.
- Ported/miao/AntPheromones/Assets/Scripts/Systems/SimulationSystemGroup/DiminishPheromoneSystem.cs and Ported/agiraud/ThrowerArms/Assets/Scripts/DOTS/Systems/HandUpSystem.cs are left out. Each is a single float multiply or a normalize/cross/epsilon test, with no logic beyond floating point.
- The graph cache is never released, as in the code. No reference counting is modelled.

## Findings

| source | as written | input that shows it | evidently intended | confidence | as-written member | corrected member |
|---|---|---|---|---|---|---|
| Ported/jvalenzu/JobClothECS/Assets/Scripts/ClothSimEcsSystem.cs:32-45 | The height-only branch runs only when `mesh.normals == null`. A Unity mesh without normals returns an empty array, not null, so the loop at lines 41-44 reads `mesh.normals[i]` and throws. | A mesh with one vertex at `(0, 1, 0)` and no normals | With no normals, pin each vertex whose `y > 0.3f` | medium, not executed (relies on `Mesh.normals` returning an empty array) | ClothConstraints.PinsAsWritten, ClothConstraints.NormalFreeMeshFailsAsWritten | ClothConstraints.ComputePins |
