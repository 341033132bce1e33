# Simulated robot: drive-command state machine in Dafny

This project models the core of a small robot simulator testbed. Three nodes
talk over publish/subscribe topics:

- the **RC input node** turns arrow-key escape bytes into a direction and, once per
  tick, into at most one drive command (`JoystickDeflection`);
- the **simulator** keeps a pose (position, heading) and a fixed obstacle list and
  applies each drive command. A turn changes the heading. A move is accepted,
  blocked by an obstacle, or resets the whole simulation when it leaves the
  world [-10, 10]². It publishes `Odometry` snapshots;
- the **viewer** renders a snapshot as a 21 × 21 ASCII map.

Units: positions and deflections are integers counting tenths (10 is 1.0),
since every position the simulator reaches is rounded to one decimal.
Obstacles `[1, 2]` become `Pos(10, 20)`. Headings are whole degrees.

Files and modules:

| file | module | models |
|---|---|---|
| `wrappers.dfy` | `Wrappers` | `Option`, for Python's `None` results |
| `messages.dfy` | `Messages` | `src/ipc/messages.py`: `JoystickType`, `JoystickDeflection`, `Odometry` |
| `simulator.dfy` | `Simulation` | `src/node/simulator.py`: `Step` (one `rcv_js` call, as a function on states) and class `Simulator` (the same state in fields) |
| `simulator_properties.dfy` | `SimulationProperties` | what each branch of `rcv_js` does, plus worked scenarios |
| `heading_finding.dfy` | `HeadingFinding` | `_normalize_heading` on fractional headings (see Findings) |
| `rc_input.dfy` | `RcInput` | `src/node/rc_input.py`: `_extract_direction`, the command table, one tick of `_viz_pub_loop` |
| `rc_viewer.dfy` | `RcViewer` | `src/node/rc_viewer.py`: `_viz_heading_char` and the grid loops of `_viz_map` |
| `drive.dfy` | `Drive` | key press → command → pose → map, end to end |

The simulator's invariant (`Simulation.Invariant`) holds after every call:

- the position lies inside the world;
- the position is not an obstacle;
- the heading lies in [0, 359];
- the obstacle list equals the loaded one.

`Simulator.RcvJs` is proved to perform exactly `Step`. The lemmas about `Step` say
what each branch does. `Drive.Press` shows that every sequence of RC key presses
keeps the invariant. Along the way the heading stays on a quarter turn.

The trigonometry of a move is a quarter-turn table: heading 0 moves
towards −y, 90 towards +x, 180 towards +y and 270 towards −x. The tables
`Simulation.Sin` and `Simulation.Cos` are the exact sine and cosine of those
headings. `Simulation.CandidateIsTrigonometric` proves that the table equals
`x + Sin(h)·d, y − Cos(h)·d` built from them. In the source, `np.sin` and
`np.cos` leave a small float residue (np.cos(np.radians(90)) is about 6.1e−17),
and tenths such as 0.1 are not exact doubles. The `round(…, 1)` there removes
that residue, so its rounded candidate is the table's. The residue and the
rounding themselves are not modelled. The turn increment (90) is
the module constant `HEADING_INCREMENT`. The source sets it once in the
constructor and never changes it.

Three facts about the code shape the model:

- `_normalize_heading`'s loop does not end for a heading in (359, 360).
  See Findings.
- Obstacles are a list tested with `in`, so the model keeps a list.
- The simulator never checks deflections; the message's field constraint
  does. The model puts that constraint in the `Deflection` type and in
  `Messages.MakeJoystickDeflection`.

## Model

| member | source | states |
|---|---|---|
| `Messages.FromValue` | src/ipc/messages.py:28-41 | lookup by value returns a member carrying exactly that value, and fails only when no member carries it |
| `Messages.FromValueOfValue` | src/ipc/messages.py:28-41 | every member is found again from its value, so value → member is injective |
| `Messages.EightDistinctMembers` | src/ipc/messages.py:28-41 | the enumeration has exactly eight members, and their string values are pairwise distinct |
| `Messages.TrackMembers` | src/ipc/messages.py:29-33 | the track joysticks are exactly TRACK_LEFT, TRACK_RIGHT, TRACK_FORWARD and TRACK_BACKWARD |
| `Messages.MakeJoystickDeflection` | src/ipc/messages.py:44-46 | a command is accepted iff its deflection lies in the closed interval [-1.0, 1.0], both ends included, and it keeps the given fields |
| `Simulation.LoadObstacles` | src/node/simulator.py:84-87 | three obstacles, all inside the world, none at the start position (0, 0) |
| `Simulation.InitialSatisfiesInvariant` | src/node/simulator.py:22-26 | the initial state (0, 0), heading 90, loaded obstacles satisfies the invariant |
| `Simulation.Normalized` | src/node/simulator.py:76-82 | the normalised heading lies in [0, 359] and is congruent to the input mod 360; an input already in [0, 359] is unchanged |
| `Simulation.TurnDelta` | src/node/simulator.py:37-39 | a turn changes the heading by deflection × 90, exactly, in whole degrees, at most 90 either way |
| `Simulation.Sin` | src/node/simulator.py:46-48 | sine of a quarter-turn heading, within [-1, 1] |
| `Simulation.Cos` | src/node/simulator.py:50-52 | cosine of a quarter-turn heading, within [-1, 1] |
| `Simulation.SinCosIdentities` | src/node/simulator.py:46-53 | on quarter turns the tables satisfy sin² + cos² = 1 and sin(h) = cos(h − 90) |
| `Simulation.Candidate` | src/node/simulator.py:45-53 | a move changes exactly one coordinate, by exactly the deflection in one direction or the other |
| `Simulation.CandidateIsTrigonometric` | src/node/simulator.py:46-53 | the table's candidate is (x + Sin(h)·d, y − Cos(h)·d) with the exact sine and cosine tables |
| `Simulation.Step` | src/node/simulator.py:32-64 | one command keeps the invariant; the obstacle list is kept or the whole state is the initial one |
| `Simulation.Simulator.constructor` | src/node/simulator.py:13-16 | a new simulator starts in the initial state, which satisfies the invariant |
| `Simulation.Simulator.SetInitialValues` | src/node/simulator.py:22-26 | position (0, 0), heading 90, obstacles the loaded list |
| `Simulation.Simulator.ResetSimulation` | src/node/simulator.py:28-30 | the state is back to its initial values, whatever it was |
| `Simulation.Simulator.NormalizeHeading` | src/node/simulator.py:76-82 | the add/subtract-360 loop terminates on every whole-degree heading and returns `Normalized(h)` |
| `Simulation.Simulator.IsValidLocation` | src/node/simulator.py:89-101 | the flag stays true iff both coordinates lie in the closed interval [-10, 10] |
| `Simulation.Simulator.RcvJs` | src/node/simulator.py:32-64 | the new state is `Step` of the old state; the invariant holds and the obstacle list is unchanged |
| `Simulation.Simulator.Snapshot` | src/node/simulator.py:66-74 | an odometry snapshot carries exactly the current position, heading and obstacle list |
| `SimulationProperties.NormalizedUnique` | src/node/simulator.py:76-82 | any value in [0, 359] congruent to h mod 360 is the normalised heading, so the loop's result is determined |
| `SimulationProperties.TurnChangesHeadingOnly` | src/node/simulator.py:33-39 | a turn sets heading to normalize(heading + deflection·90) and leaves position and obstacles unchanged |
| `SimulationProperties.TurnIgnoresChannel` | src/node/simulator.py:33-39 | TRACK_LEFT and TRACK_RIGHT with the same deflection have the same effect: the sign of the deflection decides the direction |
| `SimulationProperties.MoveIgnoresChannel` | src/node/simulator.py:41-53 | TRACK_FORWARD and TRACK_BACKWARD with the same deflection have the same effect |
| `SimulationProperties.MoveAccepted` | src/node/simulator.py:55-60 | a free in-bounds candidate replaces the position; heading and obstacles are unchanged |
| `SimulationProperties.MoveBlocked` | src/node/simulator.py:55-58 | a candidate equal to an obstacle leaves position, heading and obstacles unchanged |
| `SimulationProperties.MoveOutOfBoundsResets` | src/node/simulator.py:62-64 | an out-of-bounds candidate resets to (0, 0), heading 90, obstacles [[1,2],[4,3],[-6,7]], whatever the prior state |
| `SimulationProperties.OtherJoystickIgnored` | src/node/simulator.py:32-64 | CAB_SWING, STICK, BUCKET and BOOM leave the whole state unchanged |
| `SimulationProperties.BoundaryExactness` | src/node/simulator.py:89-101 | the edges ±10 are inside the world, and ±10.1 are outside |
| `SimulationProperties.ZeroDeflectionNoOp` | src/node/simulator.py:32-64 | a command with deflection 0 leaves a state that keeps the invariant unchanged |
| `SimulationProperties.ScenarioForwardFromStart` | src/node/simulator.py:41-60 | from the start, forward 1.0 moves to (1.0, 0.0) |
| `SimulationProperties.ScenarioTurnRightFromStart` | src/node/simulator.py:33-39 | from the start, turn right 1.0 gives heading 180 |
| `SimulationProperties.ScenarioLeaveWorld` | src/node/simulator.py:62-64 | from (9.9, 0) heading 90, forward 1.0 resets the simulation |
| `SimulationProperties.ScenarioHitObstacle` | src/node/simulator.py:55-58 | from (1.0, 1.0) heading 180, forward 1.0 would hit (1, 2), so nothing changes |
| `HeadingFinding.GuardsAgreeOnWholeDegrees` | src/node/simulator.py:80 | on whole degrees the written guard `> 359` and the intended `>= 360` agree |
| `HeadingFinding.AsWrittenLoop` | src/node/simulator.py:80-82 | the loop as written returns only a heading for which its guard is false |
| `HeadingFinding.StuckBelowZero` | src/node/simulator.py:80-81 | subtracting 360 from a negative heading never leaves the loop |
| `HeadingFinding.StuckAbove359` | src/node/simulator.py:80-81 | adding 360 to a heading above 359 never leaves the loop |
| `HeadingFinding.AsWrittenDiverges` | src/node/simulator.py:78-82 | for 359.5° and −0.5° the loop as written exits within no number of iterations |
| `HeadingFinding.NormalizeHeadingTenths` | src/node/simulator.py:76-82 | with the guard `>= 360`, the loop terminates on every heading in tenths of a degree, returns a value in [0, 360) congruent to the input, and leaves [0, 360) unchanged |
| `RcInput.ExtractDirection` | src/node/rc_input.py:27-39 | a recognised direction is the one whose bytes were read ("[D" L, "[C" R, "[A" F, "[B" B); any other string gives None |
| `RcInput.ExtractArrowKey` | src/node/rc_input.py:27-39 | each arrow key's bytes yield its own direction |
| `RcInput.Command` | src/node/rc_input.py:71-85 | each key gets its own channel: TRACK_LEFT iff left, TRACK_RIGHT iff right, TRACK_FORWARD iff up, TRACK_BACKWARD iff down; the left and right keys, and only they, give turn channels with deflection ±1.0; up and down give ±0.5; the deflection is negative exactly for left and down |
| `RcInput.CommandInjectiveAndValid` | src/node/rc_input.py:72-85 | distinct keys give distinct commands, and each command passes the deflection constraint [-1.0, 1.0] |
| `RcInput.Label` | src/node/rc_input.py:67-68 | the label is a space iff no direction is pending, else the direction's letter |
| `RcInput.Published` | src/node/rc_input.py:71-86 | a tick publishes exactly one command, the key's command, when a direction is pending, and none otherwise |
| `RcInput.PotreroRc.constructor` | src/node/rc_input.py:18 | no direction is pending at start |
| `RcInput.PotreroRc.ReadKey` | src/node/rc_input.py:47-60 | after ESC the next two bytes set or clear the pending direction; other characters leave it; 'q' quits |
| `RcInput.PotreroRc.Tick` | src/node/rc_input.py:64-89 | the tick shows the label, publishes `Published` of the pending direction, and leaves no direction pending |
| `RcInput.OneKeyOneCommand` | src/node/rc_input.py:71-87 | one arrow key followed by two ticks publishes that key's command once, then nothing |
| `RcViewer.Floor` | src/node/rc_viewer.py:36 | the floor of a coordinate in tenths: 10·r ≤ t < 10·r + 10 |
| `RcViewer.HeadingChar` | src/node/rc_viewer.py:49-60 | '>' iff 90, 'v' iff 180, '<' iff 270, '^' for every other heading including 0 |
| `RcViewer.Row` | src/node/rc_viewer.py:33-42 | every row is 29 characters: a four-character left border, 21 cells, a four-character right border |
| `RcViewer.Render` | src/node/rc_viewer.py:32-44 | the map has 21 rows |
| `RcViewer.VizMap` | src/node/rc_viewer.py:32-44 | the nested loops build exactly `Render`: 21 rows for y = −10..10 top to bottom, each the 21 cells for x = −10..10 between the borders |
| `RcViewer.RenderAt` | src/node/rc_viewer.py:32-44 | row k, column 4 + c of the map is cell (c − 10, k − 10), framed by the two four-character borders |
| `RcViewer.GlyphIffRobotCell` | src/node/rc_viewer.py:36-37 | a cell shows the heading glyph iff it is (floor x, floor y) |
| `RcViewer.RobotDrawnOnce` | src/node/rc_viewer.py:36-37 | for a position in bounds the robot cell lies on the map, so exactly one map cell shows the glyph |
| `RcViewer.ObstacleCell` | src/node/rc_viewer.py:38-41 | any other cell is 'X' iff its whole point is in the obstacle list, else '-' |
| `RcViewer.RobotOverObstacle` | src/node/rc_viewer.py:36-39 | the robot's cell shows the glyph even when an obstacle lies there |
| `RcViewer.DrawnObstaclesOnMap` | src/node/rc_viewer.py:38-41 | every 'X' drawn is an obstacle at a whole point inside [-10, 10]², so obstacles outside are never drawn |
| `Drive.InitialReachable` | src/node/simulator.py:22-26 | the initial state keeps the invariant on a quarter-turn heading |
| `Drive.QuarterTurnClosed` | src/node/simulator.py:37-39 | a quarter-turn heading turned by ±90 and normalised is again a quarter turn |
| `Drive.RcCommandKeepsReachable` | src/node/rc_input.py:71-85 | every command the RC node emits is admitted by the simulator model and keeps the invariant and a quarter-turn heading |
| `Drive.Press` | src/node/rc_input.py:71-87 | any series of key presses, each sent as its command, keeps the invariant and a quarter-turn heading |
| `Drive.PressConcat` | src/node/rc_input.py:71-87 | pressing keys a and then keys b is the same as pressing a + b, since commands are applied one at a time in order |
| `Drive.LeftRightCancel` | src/node/rc_input.py:72-77 | a left-arrow turn followed by a right-arrow turn gives back the same state |
| `Drive.ForwardBackwardReturns` | src/node/rc_input.py:78-83 | an accepted up-arrow step followed by a down-arrow step gives back the same state |
| `Drive.PressKeepsWorld` | src/node/simulator.py:55-64 | after any key presses from the start, the obstacle list is unchanged and the robot is in bounds and off every obstacle |
| `Drive.ReachableDrawnOnce` | src/node/rc_viewer.py:32-41 | for every reachable pose, the viewer draws the robot on exactly one map cell |
| `Drive.GlyphPointsForward` | src/node/rc_viewer.py:49-60 | the glyph points the way forward motion moves the robot on the map: '^' up (−y), '>' right, 'v' down (+y), '<' left |
| `Drive.RightArrowFromStart` | src/node/rc_input.py:27-39 | from the start, the right-arrow bytes give heading 180, and the centre cell of the map then shows 'v' |

## Left out

- The asyncio publish loops and their sleeps are left out. `_pub_odometry_loop` is modelled as one `Snapshot`; `_viz_pub_loop` as one `Tick`. They are scheduling, not logic.
- The publish/subscribe transport and node lifecycle are left out: `base_node`, `pubsub`, `registry`, `core`, and `stop()`. They are foreign code and not part of this model. `ReadKey` returns `quit` in place of stopping the node.
- Terminal raw-mode keyboard reading (`termios`, `tty`, `sys.stdin`) is I/O. `ReadKey` takes the character read and the two bytes after it as parameters.
- Every `print` is left out: diagnostics, banners, screen clearing and the float-formatted footer of the map. They are output only.
- The pydantic validation machinery is left out. The deflection range is the `Deflection` subset type plus `MakeJoystickDeflection`.
- `Debug`, `DebugRequest` and `NavigateRequest` are left out. No modelled code uses them.
- Aliasing between the live position and the published `Odometry` is not modelled, because snapshots are values. It is harmless because the position is always replaced, never changed in place.
- Deflections are modelled in tenths. Finer deflections, such as 0.05, are not represented. The RC node only sends ±1.0 and ±0.5.
- Simulation.Step: a move is modelled only on a quarter-turn heading (0, 90, 180, 270), where `np.sin`/`np.cos` followed by rounding to one decimal is exact. Moves from other headings are not modelled, nor is floating-point rounding. `Drive.RcCommandKeepsReachable` shows every command the RC node sends keeps the heading on quarter turns.
- Simulation.TurnDelta: the delta is exact, deflection × 90 in whole degrees. The source multiplies doubles, and 0.7 × 90 is 62.99999999999999 there, not 63 (every other tenth gives a whole degree). That float drift is not modelled.
- Simulation.Step: a turn is computed in exact arithmetic, so the model does not capture the hang that float turns can cause. From the start, turns by −1.0, 0.7, −0.6 and −0.1 take the source's heading to about −7.1e−15. The sign is then +1, −7.1e−15 + 360 rounds to 360.0, and `_normalize_heading` adds 360 for ever, so `rcv_js` never returns. The model's heading goes 90 → 0 → 63 → 9 → 0 and the invariant holds. Only turns by ±1.0, which is all the RC node sends, stay on whole degrees in both.
- Simulation.Simulator.RcvJs: same restriction as `Step` for moves, by its `Admissible` precondition. It also inherits `Step`'s exact turn arithmetic, so the float-turn hang described under `Simulation.Step` is not captured.
- Simulation.Simulator.NormalizeHeading: headings are whole degrees. The loop as written does not terminate on some fractional headings. See Findings.
- RcInput.PotreroRc.ReadKey: modelled as one atomic step. In the source `_read_keyboard` is a blocking, non-async function registered as a task beside the async `_viz_pub_loop`. It likely runs on another thread; the scheduler in `base_node` is not part of this model. If so, `self._direction = …` (rc_input.py:56) can land after the tick has read the direction (line 71 or lines 85-86) but before it clears it (line 87). That key is then cleared without being published.
- RcInput.PotreroRc.Tick: modelled as one atomic step, so the lost-key interleaving described under `ReadKey` is not captured.
- RcInput.OneKeyOneCommand: holds for the atomic model only. Under the interleaving described under `ReadKey` a key press can yield no command.
- Headings arrive as floats in the viewer; `HeadingChar` takes whole degrees.
- In `_viz_pub_loop`, a pending direction other than L, R, F or B would leave the command unset. That cannot happen, because `_extract_direction` yields only those four. The `Direction` type rules it out.

## Findings

| source | as written | input that shows it | evidently intended | confidence | as-written member | corrected member |
|---|---|---|---|---|---|---|
| src/node/simulator.py:80 | the loop runs while `heading < 0 or heading > 359`, stepping by 360 in a direction fixed from the input's sign | heading 359.5 steps to −0.5, −360.5, … for ever; −0.5 steps to 359.5, 719.5, … for ever | loop while `heading < 0 or heading >= 360`, so every heading in exact tenths of a degree lands in [0, 360). This does not cover float residue: with the sign fixed, a heading of about −7.1e−15 becomes 360.0 and this loop also runs for ever; only choosing the sign on each pass, or `heading % 360`, ends there | high; not executed | `HeadingFinding.AsWrittenDiverges` | `HeadingFinding.NormalizeHeadingTenths` |

On whole degrees both guards agree (`HeadingFinding.GuardsAgreeOnWholeDegrees`). So the whole-degree `Simulator.NormalizeHeading`, which the rest of the model uses, behaves as the corrected loop does.
