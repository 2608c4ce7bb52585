# mineEvac core, modelled in Dafny

mineEvac drives a Minecraft bot that builds a one-floor evacuation
building and walks a patrol through it. It sends the server
slash commands through a throttled command lane. A companion Python
simulator plays the same sweep on a 2-D grid.

This project models the deterministic core of both programs. Operations
are pure functions over immutable datatypes. Contracts and lemmas state
what each one promises.

- `wrappers.dfy` (`Wrappers`): the `Option` type.
- `geometry.dfy` (`Geometry`):
  - the layout description and its JavaScript `||`/`??` defaults;
  - the shift anchors computed once at startup (`SHIFT_X/Z`, `SPAWN_X/Z`,
    the door-wall rows) and the derived patrol points, exits and spawn
    height;
  - the `fill`/`setblock`/`tp` commands of `fillRect`, `buildWalls`,
    `carveVerticalDoor` and `carveAllDoors`, with the exact set of world
    cells each writes.
- `build.dfy` (`Build`): `buildLayout` as an ordered list of eight
  command phases, plus the `last_build.json` record it reads and writes.
- `patrol.dfy` (`Patrol`): one callback of the `startPatrol` timer as an
  atomic transition over `(tick, patrolIdx, dwell, doorsState)`; also
  `startPatrol`, `stopPatrol`, the status line and the villager wander.
- `lane.dfy` (`Lane`): `CommandQueue` as an alive flag, a FIFO of pending
  jobs and an execution log; `sendSlashCommand` as an ordered fallback
  over three channels.
- `ground.dfy` (`Ground`):
  - `highestSurfaceYAt`, a method with a loop, checked against a
    recursive reference scan;
  - the sort and median of `detectGroundYNearCorridor`.
- `sweep_layout.dfy` (`SweepLayout`): `MCConfig`; the grid painting of the
  `MCSweepEnv` constructor, including numpy's negative-index wrap; the
  door list and the patrol order.
- `sweep_env.dfy` (`SweepEnv`): `reset`, `neighbors`, `nearest_exit`,
  `_greedy_move`, `_door_room_cell` and `step`.

How inputs and effects are represented:

- The world the ground scan reads is a function `(x, y, z) -> Option<name>`.
- The agent position of a patrol tick is a parameter of real coordinates.
- The random choices of the simulator are parameters: for each occupant,
  the greedy move or a random draw.
- Commands carry the pause the lane takes after them as data.

Two behaviours of the code that a reader might not expect are modelled as
written:

- `doorsState` is built once, from the patrol points at startup
  (src/main.js:219). A later build that moves the patrol points does not
  rebuild it.
- In the Python simulator, the `cleared` flags and the CLEAR event are
  indexed by patrol position rather than by door-list position
  (test/mc_onefloor_model_realtime.py:150-154). The patrol walks the bottom
  doors in reverse, so a bottom-row clearance can flag and log the door
  list's entry for a different room. `SweepEnv.PatrolPositionLogsOtherRoom`
  shows this for the default configuration.

## Model

| member | source | states |
|---|---|---|
| Geometry.ComputeAnchors | src/main.js:113-133 | The shift carries the corridor midpoint onto the configured origin, which is the sync point (SPAWN_X = ORIGIN_X, SPAWN_Z = ORIGIN_Z). The door-wall rows are the configured (or default 24/15) z values plus the same shift. |
| Geometry.ShiftRoundTrip | src/main.js:115-116 | Local-to-world and world-to-local by the shift are inverse to each other, in both orders. |
| Geometry.RecomputeDerived | src/main.js:574-585 | The spawn height is one above the layer. There are 2·\|DOOR_XS\| patrol points: the top ones one row inside the top wall, then the bottom ones one row inside the bottom wall, in DOOR_XS order, all on the layer. The two exits are the corridor's first and last columns on its middle row. |
| Geometry.DefaultLayoutAlignment | src/main.js:88-146 | For the built-in layout, under any origin, the shift is origin minus (50, 20). All six patrol points lie inside the corridor. The exits are local (5, 20) and (94, 20). |
| Geometry.FillRect | src/main.js:364-371 | One fill with the given block, exactly w columns by h rows. For a non-empty rectangle it writes exactly the layer-`y` cells whose unshifted position is inside the rectangle. |
| Geometry.BuildWalls | src/main.js:374-387 | Exactly four fills of the wall material. Together they write exactly the cells on the rectangle's outer ring from one above the layer to `height` above it: no roof, no interior, no floor. |
| Geometry.CarveDoor | src/main.js:390-401 | An air fill at one wall row, from one above the layer to `height` above it, with the door pad. For width ≥ 1 it is exactly `width` columns containing x, and an even width puts its extra column on the +x side. |
| Geometry.DefaultDoorShaft | src/main.js:390-401 | With the default width 1 and height 2, the carve writes exactly column x at the wall row, two blocks tall. |
| Geometry.CarveRow | src/main.js:410-411 | One carve per door column, in DOOR_XS order, each at the shifted column. |
| Geometry.CarveAllDoors | src/main.js:406-412 | Exactly 2·\|DOOR_XS\| carves: every top-wall door in DOOR_XS order, then every bottom-wall door in the same order. |
| Geometry.CarveRowCells | src/main.js:410-411 | The cells one carve row writes are exactly the two-high shafts at the shifted door columns on that wall row. |
| Geometry.DoorShaftsExact | src/main.js:406-412 | carveAllDoors writes exactly the two-high shafts at the shifted door columns on the two door walls, and no other cell. |
| Build.RoomsCmds | src/main.js:460-467 | Five commands per room, in list order: the room's floor, then its four walls. |
| Build.PhaseOffsets | src/main.js:429-478 | Where each phase starts: cleanup takes 2 commands or none, the footprint 2, the corridor 1, each room 5 and each door column 2. |
| Build.BuildLayout | src/main.js:415-488 | Only the construction layer changes, and only when ground detection produced a value. The record written holds the build's shift and layer. The command count is (2 if a record exists) + 2 + 1 + 5·rooms + 2·\|DOOR_XS\| + 2 + 1. |
| Build.BuildBeginsWithFootprints | src/main.js:429-457 | A build starts with the previous record's air and grass fills when a record exists, then the current footprint's air fill above the layer and grass fill on it (both with the heavy pad), then the corridor floor. |
| Build.BuildRoomsInOrder | src/main.js:459-467 | After the corridor come the top rooms, then the bottom rooms, each in list order and each as its floor followed by its four walls. |
| Build.BuildCarvesDoorsAfterRooms | src/main.js:469-470 | Right after the rooms come all the door carves of carveAllDoors, on the layer the build uses. |
| Build.BuildEndsWithExitsAndTeleport | src/main.js:472-478 | The last three commands are the two exit-marker setblocks at the corridor's end columns on the sync row, then the teleport to the sync point one above the layer with the 800 ms pad. |
| Build.NextBuildClearsPreviousFootprint | src/main.js:429-487 | With the frame unchanged, the cleanup fills of the next build equal the footprint fills the previous build issued. |
| Build.RebuildIsIdempotent | src/main.js:428-478 | Whatever record is read, everything after the cleanup phase is the same, and so are the layer and the record written. |
| Patrol.InitialDoors | src/main.js:219 | One door state per patrol point, with index i and position of patrol point i. |
| Patrol.Tick | src/main.js:511-551 | The tick grows by one and cleared doors never change. Off the checkpoint only a path goal is set. On it, dwell grows and the patrol index advances exactly when dwell reaches 8, resetting dwell. The callback aborts exactly when there are no patrol points, or no doors on a first dwell tick. An aborted callback sets no goal and leaves the state with only the tick counted, plus the dwell when it died on the door list. A clearance happens exactly on a first dwell tick at an uncleared door: it flips that door, stamps the tick and emits the blue_concrete setblock. The wander fires exactly on multiples of 80. |
| Patrol.TickClearedMonotone | src/main.js:524-532 | The cleared count grows by exactly one when a tick emits a clearance, and otherwise stays the same. |
| Patrol.Run | src/main.js:511-551 | Over a run of ticks, the tick grows by the number of ticks, the door list keeps its length and cleared doors stay cleared. |
| Patrol.RunUntilDeath | src/main.js:511-551 | A run stops at the first callback that dies. With no patrol points the first callback dies after counting its tick. With patrol points and doors none dies, and the run is the plain run. |
| Patrol.DwellThenAdvance | src/main.js:519-535 | An agent standing on its checkpoint advances the patrol exactly on the 8th dwelling tick, no earlier. Starting from dwell 0, its door ends up cleared. |
| Patrol.Start | src/main.js:504-507 | Refused while locked (the state is unchanged). Otherwise the timer runs with tick, patrol index and dwell at 0, and the door states are untouched. |
| Patrol.Stop | src/main.js:554-558 | Only the timer is removed. |
| Patrol.StartStopIdempotent | src/main.js:504-558 | Starting twice equals starting once, and stopping twice equals stopping once. A restart after a stop keeps the door states. |
| Patrol.StatusOf | src/main.js:695 | The status reports the cleared-door count, the door total and the current tick. The count is 0 exactly when no door is cleared and equals the total exactly when every door is. |
| Patrol.ClearedCountNoneAll | src/main.js:695 | The cleared count is 0 iff no door's flag is set, and equals the door count iff every flag is set. |
| Patrol.ClearedCountIsSetSize | src/main.js:695 | The cleared count is the number of door indices whose flag is set, as `filter(d => d.cleared).length` counts them. |
| Patrol.InitialNothingCleared | src/main.js:216-219 | Before any patrol the status is 0 cleared of \|PATROL\| doors at tick 0. |
| Patrol.WanderCmds | src/main.js:538-550 | One teleport per villager, selected near its position, to a point ±2 on x and on z and unchanged on y, with the 800 ms pad. |
| Lane.TryInOrder | src/main.js:176-202 | The attempts made are a prefix of the candidates. Every attempt but a successful last one failed. A success is the last attempt. With no success every candidate was tried. |
| Lane.SendSlash | src/main.js:176-202 | The send ends on bot.chat exactly when chat exists and does not throw. It fails altogether exactly when the client exists and both raw writes throw (and chat is absent or throws). A chat_command attempt carries the command without its slash. |
| Lane.SendSlashIsFallback | src/main.js:176-202 | sendSlashCommand is the ordered fallback over chat, chat_message and chat_command. |
| Lane.Step | src/main.js:159-165 | The alive flag never comes back. The log grows by at most one outcome and keeps its past. A turn is skipped exactly when the lane is dead. A kill marks the lane dead and leaves its pending jobs and log unchanged. A push appends the job and runs nothing. |
| Lane.StepFifo | src/main.js:159-165 | One event keeps the order of logged-then-pending jobs and appends a pushed job at the end. |
| Lane.FifoOrder | src/main.js:149-173 | Jobs take their turns in push order, whatever mixture of pushes, turns and disconnects happens. |
| Lane.DeadStaysDead | src/main.js:154-161 | Once the lane is dead it stays dead, and every later turn is a skip. |
| Lane.LiveDrainRunsAll | src/main.js:159-164 | On a live lane every pending job runs in order, whether or not earlier ones throw. |
| Lane.ChatCommandJob | src/main.js:167-172 | A chatCommand job sends exactly its command and keeps its delay. A slash job is modelled as never throwing into the lane, because the send returns a failure as data instead of raising. |
| Lane.SendSlashFailureIsData | src/main.js:176-202 | A send that fails has tried every strategy, and each attempt failed; it still returns an answer rather than raising. |
| Lane.ChatCommandRuns | src/main.js:159-172 | A chatCommand pushed on a live, idle lane runs on its turn and is logged as not having thrown. |
| Lane.DeadAddsNoWait | src/main.js:160-163 | After the connection is gone the lane adds no further pause. |
| Ground.SurfaceFrom | src/main.js:599-613 | The reference scan answers one above the topmost ground block at or below the start layer. It answers None when no layer from the start down to 0 holds ground. |
| Ground.HighestSurfaceYAt | src/main.js:599-613 | With no world it answers None. Otherwise its top-down loop answers what the reference scan answers from the reported height minus one, or from 255 when the height is missing or zero. |
| Ground.InsertSorted | src/main.js:637 | Inserting into a sorted list keeps it sorted. |
| Ground.Sort | src/main.js:637 | The numeric sort returns a sorted rearrangement of the samples. |
| Ground.Median | src/main.js:637-638 | The median is one of the samples, and it sits at position ⌊n/2⌋ of a sorted rearrangement. |
| Ground.MedianOrderIndependent | src/main.js:637-638 | The median does not depend on the order the samples arrive in. |
| Ground.MedianOfSorted | src/main.js:637-638 | Every sorted rearrangement of the samples has the median at position ⌊n/2⌋. |
| Ground.MedianExample | src/main.js:637-638 | The samples 10, 12, 11, 9, 100 give 11. |
| Ground.Fallback | src/main.js:632-636 | With no position there is no answer. With feet below height 1 the answer is 0. Otherwise it is the floor of one below the feet. |
| Ground.CollectSamples | src/main.js:627-631 | The loop keeps, in column order, the answers of exactly the columns that found ground. |
| Ground.DetectGround | src/main.js:615-639 | Sampling runs on the row four past the corridor's z. With no sample it falls back to the feet; otherwise it answers the samples' median. |
| SweepLayout.PyIndex | test/mc_onefloor_model_realtime.py:50-52 | A numpy index is valid exactly in -n..n-1, and it denotes i or i+n. |
| SweepLayout.InAnyRoomExists | test/mc_onefloor_model_realtime.py:56-72 | A cell is painted by the room loop exactly when some room column covers it. |
| SweepLayout.BuildGrid | test/mc_onefloor_model_realtime.py:48-72 | The constructor raises exactly on a negative dimension or an out-of-range corridor row or exit column. Otherwise every cell of the grid has the code of the closed-form layout: rooms win, then exits, then the corridor row. |
| SweepLayout.LayoutCells | test/mc_onefloor_model_realtime.py:48-72 | Every cell holds 0–3. A cell is room exactly when it lies within room_depth rows of the corridor and room_width//2 columns of some room. The in-range corridor row is corridor except its two exit columns. |
| SweepLayout.Doors | test/mc_onefloor_model_realtime.py:75-78 | The doors are the cells one row above the corridor at each room column in room order, then the cells one row below in the same order. |
| SweepLayout.Patrol | test/mc_onefloor_model_realtime.py:80-83 | The patrol is the top door cells in room order, then the bottom door cells in reverse room order. |
| SweepLayout.PatrolOrder | test/mc_onefloor_model_realtime.py:75-83 | The patrol visits the top doors in door order, then the bottom doors in reverse door order. |
| SweepLayout.PatrolPermutesDoors | test/mc_onefloor_model_realtime.py:75-83 | The patrol is a rearrangement of the door list. |
| SweepLayout.DoorsAreRoomCells | test/mc_onefloor_model_realtime.py:56-78 | With rooms at least one row deep, every in-grid door cell is a room cell. |
| SweepEnv.SliceStop | test/mc_onefloor_model_realtime.py:95 | The slice `[:n]` keeps min(n, len) items for n ≥ 0, and len+n (at least 0) for negative n. |
| SweepEnv.Reset | test/mc_onefloor_model_realtime.py:86-105 | It raises exactly with fewer than two room columns. Otherwise t, dwell and the patrol index are 0, the responder is at (corridor_y, exits[0]), every flag is clear, the occupants are the n_occupants slice of the three starts (two rows above the first and the last room column, two rows below the second, in that order), and every log is empty with one track per occupant. |
| SweepEnv.Make | test/mc_onefloor_model_realtime.py:43-84 | Construction succeeds exactly when the grid can be painted and reset succeeds. The result holds the painted grid, the doors and the patrol. |
| SweepEnv.Neighbors | test/mc_onefloor_model_realtime.py:111-114 | The neighbours are exactly the in-bounds walkable cells one unit step away, at most four, listed in the order up, down, left, right. |
| SweepEnv.NearestExit | test/mc_onefloor_model_realtime.py:116-122 | One of the two exits, no farther than the other, and exits[0] on a tie. |
| SweepEnv.GreedyMove | test/mc_onefloor_model_realtime.py:124-134 | Either stay, or take one passable unit step that gets one closer. The move never gets farther. A passable row step toward the target is always taken. When the row step is not available, a passable column step toward the target is taken. With neither available, it stays. |
| SweepEnv.DoorRoomCell | test/mc_onefloor_model_realtime.py:136-138 | Defined exactly for a valid list index. It gives the cell in the door's column one row farther from the corridor than the door. |
| SweepEnv.ArgMax | test/mc_onefloor_model_realtime.py:171 | The first position of a largest value. |
| SweepEnv.LargestGainIsClosest | test/mc_onefloor_model_realtime.py:168-171 | The candidate with the largest gain is a candidate closest to the exit. |
| SweepEnv.MoveOccupant | test/mc_onefloor_model_realtime.py:161-174 | A boxed-in occupant stays put; otherwise it moves to one of its neighbours. The greedy choice is the first neighbour closest to its nearest exit, as np.argmax breaks ties. A random draw picks the neighbour at the draw modulo the neighbour count. |
| SweepEnv.PatrolPhase | test/mc_onefloor_model_realtime.py:142-157 | t grows by one, and the responder takes the greedy move toward the patrol target. Off target, dwell and the patrol index are unchanged. On target, dwell grows and the patrol index advances with dwell reset once dwell reaches dwell_k. Flags only go clear→cleared, and a flag changes exactly when an event is logged: the flag at the patrol position, on a first dwell tick at the target, with one CLEAR event naming that position and its room cell. |
| SweepEnv.OccupantPhase | test/mc_onefloor_model_realtime.py:159-180 | It raises exactly when there are fewer tracks than occupants. Otherwise every occupant takes its chosen move and every track gains the occupant's new position. |
| SweepEnv.Step | test/mc_onefloor_model_realtime.py:141-180 | It keeps a valid simulator valid. t grows by one and the patrol index by 0 or 1. Dwell stays below dwell_k. Every track gains exactly its new position. An occupant stays put only when boxed in, and otherwise moves to a neighbour. |
| SweepEnv.StepClears | test/mc_onefloor_model_realtime.py:147-154 | A step changes at most the flag at the patrol position, only clear→cleared, only on the first dwell tick at the target. Each change logs exactly one CLEAR event with that position and the room cell of the door list's entry there. |
| SweepEnv.PatrolPositionLogsOtherRoom | test/mc_onefloor_model_realtime.py:149-154 | In the default building, clearing patrol point 3 (the bottom door of the third room) logs door 3 and room cell (9, 9), which belong to the first room. |
| SweepEnv.StepKeepsEventCount | test/mc_onefloor_model_realtime.py:149-154 | A step keeps the number of CLEAR events equal to the number of cleared flags, so no more events are logged than there are doors. |
| SweepEnv.MakeValid | test/mc_onefloor_model_realtime.py:84-105 | A freshly built simulator is valid and has logged nothing. |
| SweepEnv.Run | test/mc_onefloor_model_realtime.py:249-255 | A run of steps never raises on a valid simulator, and it stays valid. t and the responder track grow by the number of steps. The event count stays equal to the cleared count and at most the number of doors. |

## Left out

- Config loading and `switchBuilding` (src/main.js:64-107, 701-735) read files. A layout is a parameter, and the built-in layout is the constant `DefaultLayout`. The anchors are computed once from the startup layout, as the code does; `switchBuilding` would not recompute them either.
- Reading and writing `last_build.json` (src/main.js:429-444, 484-487) is file I/O. The record read is an `Option<LastBuild>` parameter, and the record written is part of the build result.
- Bot creation, event wiring, the pathfinder, the chat and terminal menus, locking, the datapack and the CSV/event logging (src/main.js:206-359, 641-698) are network, UI or file work. A path goal is an output of a patrol tick, and the lock is a parameter of `Patrol.Start`.
- `spawnActors` (src/main.js:490-502) only queues commands. It is not part of this model.
- The text of each slash command (`/fill x1 y1 z1 x2 y2 z2 block`, `/setblock …`, `/tp …`) is not modelled. A command is the `Cmd` datatype, which carries the same coordinates and block names.
- Wall-clock time is not modelled: the `sleep` pauses, the timer periods, the 15-second heartbeat and the player sync. Each command carries its delay as data, and `Lane.Waited` totals the pauses.
- Overlapping async timer callbacks are not modelled. A patrol tick is one atomic transition.
- Patrol.Run: it keeps ticking after a callback dies, as a runtime that only warns on an unhandled rejection would. The code installs no rejection handler, so under Node's default (version 15 and later) the process ends at the first dying callback. `Patrol.RunUntilDeath` models that default.
- Patrol.WanderCmds: the `Math.random` signs are a parameter. The villager positions are taken as already rounded, so `Math.round` of fractional coordinates is not modelled.
- Ground.DetectGround: the five fractional sample columns and their `Math.round` are a parameter (the column list). The 300 ms settle pause is not modelled.
- Ground.HighestSurfaceYAt: a block lookup that throws and one with no chunk are the same `None` answer, as getBlockSafe makes them.
- Lane.Step: error messages and `console.log` output are not modelled. A throwing job is recorded only as "threw".
- SweepEnv.Step: when the Python code raises midway, the partly updated state is not modelled; the step answers None.
- SweepEnv.MoveOccupant: the numpy generator is a parameter. The `random() < 0.75` test becomes a choice of `Greedy` or `Random(draw)`, and the draw selects the candidate at `draw mod count`.
- `max_steps` is only read by the driver. `seed` only seeds the random generator, whose draws the model takes as the `Choice` parameter. `LiveViewer`, `render_layout_rgb`, `export_figs_and_logs` and the argparse entry point are drawing and file output.
- `shim-ajv.cjs` is a module-resolution shim around a library. `test/test.js` is a connection smoke test. Neither is part of this model.
