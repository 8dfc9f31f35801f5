# Rhythm game timing and judgement core, in Dafny

This project models the browser rhythm game's engine: the part that records a
chart from key presses, schedules chart entries onto the board, and judges taps,
holds and hold checkpoints against the hit zone. It also models the older
standalone player in `play/play.js`. Each source file becomes one module:

- `Chart`: the chart entry (`Tap` or `Hold`) and the scheduler's effective time.
- `State`: the shared game state, as `class Game`. `Game.View()` gives a value
  snapshot of it (`EngineState`).
- `Input`: the record-mode keydown/keyup handlers.
- `NoteSpawner`: `spawnNote` and the one-second checkpoints of a hold.
- `HoldLogic`: `handleActiveHoldNotes`, the per-tick judge (holds, checkpoints, taps).
- `GameControl`: `stopGame`, `resetGame`, `endGame`.
- `GameLoop`: one tick of `gameLoop`.
- `Controls`: the record, stop-recording and play buttons.
- `Play`: `class Player`, the standalone player.

Every state-changing handler is a method on a `Game` (or a `Player`). Each
handler requires and keeps `Game.Valid()`, the class invariant that record
mode and play mode are never on together. Its `ensures` also ties the new state to a pure function of the old one, such as
`KeyDownState`, `SpawnState`, `JudgeState`, `TickState` or `PlayClickState`, and
the lemmas prove what the game promises about those functions. A loop in the
source is a `while` loop in the model. It is proved against a recursive
function that walks the same indices: `HoldSweep`, `CheckpointsFrom`,
`GroupsFrom`, `TapsFrom`, `DueCount`/`SpawnAll`, `Fallen`/`MissCount` or
`FirstHit`.

Clock readings (`Date.now()`) are parameters. So is everything the DOM reports:
- the hit zone's extent and one extent per active hold note (`Rect`);
- the top of every tap-note element.

Tap notes exist in the engine only as DOM elements, so the state keeps their lanes
in document order (`taps`). Keys reach `Input` already upper-cased.

Some behaviour follows from the code as it is written, and the model keeps it:
- **The splice skip.** When a hold note reaches the end of its progress it is
  spliced out of `activeHoldNotes` inside the `forEach` over that array. The note
  behind it moves into its index and is not visited in that tick.
  `HoldSweep` models this with a `shift` into the tick's extents, and
  `SpliceSkipsSuccessor` exhibits it.
- **Taps at time 0.** The scheduler reads `entry.time || entry.startTime`, which
  is undefined for a tap at time 0. Such an entry is never due and blocks the
  queue behind it (`ZeroTimeTapBlocksQueue`).
- **The dead checkpoint branch.** The "missed checkpoint" branch requires
  `now > time + 200` inside a guard of `|now - time| <= 150`, so it never runs.
  `CheckpointStep` keeps the branch, and its ensures proves that a checkpoint
  visit never changes hp.
- **Press times survive a reset.** `resetGame` does not clear the record-mode
  press times (`holdStartTimes`); `ResetEffect` states this.
- **Hold progress.** It is an IEEE double division, so a zero-length or reversed
  hold is judged as `ProgressDone` spells out.
- **Holds in the standalone player.** A hold entry has no `time`, so
  `currentTime >= undefined` is false. A hold in the standalone player's chart
  stops its spawn loop for good (`PlayDue`).

## Model

| member | source | states |
|---|---|---|
| State.Game.constructor | js/gameControl.js:14-24 | The initial state is idle: both modes off, not stopped, clock origin 0, combo 0, hp 500, no key state, no charts, no live notes. |
| State.LoadChart | js/fileInput.js:10-12 | Loading a chart stores it as both the pristine copy and the play queue and changes nothing else. |
| Input.KeyDown | js/input.js:2-13 | The new state is `KeyDownState` of the old one: ignored for a non-lane key; otherwise the lane is pressed, its tap credit re-armed, and the press time stored only while recording and only if none is stored. |
| Input.KeyUp | js/input.js:15-31 | The new state is `KeyUpState` of the old one: the lane is released; while recording with a stored press time, one entry is appended and the press time forgotten. |
| Input.ForeignKeyIgnored | js/input.js:4 | A key that is not a lane leaves the whole state unchanged, on press and on release. |
| Input.KeyDownEffect | js/input.js:8-12 | After a lane press the lane is pressed and not credited. The press time is set (relative to the session start) exactly when recording with none stored. The recorded notes and every other field are unchanged. |
| Input.RepeatedPressKeepsPressTime | js/input.js:10-11 | Key repeat: a second press before the release never moves the stored press time. |
| Input.KeyUpEffect | js/input.js:19-30 | A release marks the lane released. While recording with a stored press time it appends exactly one entry, after the unchanged earlier ones, built from the press and release times, and deletes the press time; otherwise only the pressed flag changes. |
| Input.NotRecordingRecordsNothing | js/input.js:10-11 | Outside record mode neither handler changes the recorded notes or the press times. |
| Input.RecordedNoteClassifies | js/input.js:22-28 | A press shorter than 200 ms records a tap at the press time. 200 ms or longer (200 included) records a hold from press to release, in the key's lane, and a recorded hold lasts at least 200 ms. |
| Input.PressReleaseCycle | js/input.js:2-31 | A full press/release cycle in record mode, with no press time stored, appends exactly the entry for that pair, leaves the lane released and the press-time map as before, and changes nothing else. |
| NoteSpawner.Checkpoints | js/noteSpawner.js:21-25 | A hold's checkpoints are unpassed, one per whole second t >= 1 with t*1000 strictly below the duration (exactly those), at start + t*1000. They lie strictly inside the hold and strictly increase; a hold of at most one second has none. |
| NoteSpawner.BuildCheckpoints | js/noteSpawner.js:21-25 | The `for` loop builds exactly `Checkpoints(startTime, endTime)`. |
| NoteSpawner.SpawnNote | js/noteSpawner.js:1-43 | The new state is `SpawnState` of the old one. |
| NoteSpawner.SpawnEffect | js/noteSpawner.js:2-41 | An entry in an unknown lane is dropped. A tap adds one tap element and no hold bookkeeping. A hold adds one checkpoint group and one runtime note (not holding, lastTick 0, not missed) and no tap element. Nothing else changes. |
| HoldLogic.ProgressDoneAtEnd | js/holdLogic.js:32-42 | For a hold that ends after it starts, the progress fraction reaches 1 exactly when the clock reaches the hold's end. |
| HoldLogic.HoldStep | js/holdLogic.js:7-55 | One visit to a hold note costs at most 2 hp and never raises hp. It removes the note only if it is holding and its progress reached 1, never clears the missed flag, and keeps its times and lane. |
| HoldLogic.EngageTransitions | js/holdLogic.js:11-27 | Overlapping with the lane pressed starts a hold with exactly one more combo. Overlapping with the lane released ends a running hold with hp - 1 and combo 0. A held note that stays held, or a note out of the zone, changes nothing here. |
| HoldLogic.SustainTicks | js/holdLogic.js:35-45 | While holding: 250 ms or more since the last tick gives one more combo and moves the tick time to now, otherwise nothing changes; the note is removed exactly when its progress reached 1. |
| HoldLogic.HoldRemovedExactly | js/holdLogic.js:29-45 | For a proper hold, a visit removes the note exactly when it is holding after the engage stage and the clock reached the end. |
| HoldLogic.MissLatches | js/holdLogic.js:48-55 | The miss-hold penalty is charged at most once per note: a flagged note is never penalised again, a penalty leaves the note flagged, and a note newly flagged in a visit is not removed in it. |
| HoldLogic.HoldSweep | js/holdLogic.js:6-56 | The sweep never raises hp and never grows the array of hold notes. |
| HoldLogic.HoldSweepTraces | js/holdLogic.js:6-56 | The sweep never invents a hold: every note it leaves is a record, possibly updated, of a note that was there before, with the same lane, start and end. |
| HoldLogic.JudgeHolds | js/holdLogic.js:6-56 | The loop leaves the hold notes, combo and hp as `HoldSweep` over the tick's extents gives them, splice skip included; nothing else changes. |
| HoldLogic.SpliceSkipsSuccessor | js/holdLogic.js:42-45 | Two held notes end in the same tick: the first is spliced out, and the second, which a visit would also remove, is skipped and stays unchanged. |
| HoldLogic.CheckpointStep | js/holdLogic.js:60-75 | A checkpoint visit never changes hp, so the "missed checkpoint" branch is dead. It keeps the time and leaves a passed checkpoint alone. It passes exactly when the lane is pressed within 150 ms of the time, with one more combo exactly when it newly passes. |
| HoldLogic.CheckpointsFrom | js/holdLogic.js:60-76 | The inner loop keeps the list's length, its times and every passed checkpoint. A later checkpoint passes exactly when pressed within the window. Combo rises by exactly the number of newly passed checkpoints (`PassCount`) and hp never changes. |
| HoldLogic.GroupsFrom | js/holdLogic.js:59-77 | The outer loop keeps the number of groups, their lanes and sizes, and every passed checkpoint, and leaves the groups before its start alone. In every later group each checkpoint keeps its time and is passed afterwards exactly when it was passed or its lane is pressed within 150 ms of it. Combo rises by exactly the number of new passes (`GroupPassCount`) and hp never changes. |
| HoldLogic.JudgeCheckpoints | js/holdLogic.js:58-77 | The nested loops leave the checkpoint groups, combo and hp as `GroupsFrom` gives them; nothing else changes. |
| HoldLogic.TapWindows | js/holdLogic.js:83-98 | A tap is credited exactly when its top is within 30 px of the hit zone, the lane is pressed and the press is not yet credited. It is missed exactly when its top is more than 100 px past the zone's bottom. A press already credited is never credited again. |
| HoldLogic.TapsFrom | js/holdLogic.js:79-100 | The loop never raises hp and gives one verdict per element, after the earlier ones. It keeps at most the elements it visits, and a lane's credit latch, once set, stays set. |
| HoldLogic.TapsFromCreditsOncePerLane | js/holdLogic.js:84-89 | In a sweep from any index, no two credited taps share a lane, and a lane credited before the sweep gets no credit in it. |
| HoldLogic.TapsFromVerdicts | js/holdLogic.js:82-98 | Each tap element gets the verdict `TapJudge` gives for its top and lane, under the latch as it stands when the loop reaches it: set before the loop, or set by an earlier credit in the same lane. |
| HoldLogic.TapsFromLatch | js/holdLogic.js:84-89 | After the loop the credit latch is set for exactly the lanes set before it and the lanes of the credited taps. |
| HoldLogic.TapsFromKept | js/holdLogic.js:84-97 | The elements left on the board are exactly the taps judged waiting, in document order, after those kept before. |
| HoldLogic.TapsFromScore | js/holdLogic.js:84-96 | hp falls by exactly 5 per missed tap. With no miss, combo rises by one per credit; after a miss it counts only the credits since the last miss. |
| HoldLogic.AtMostOneCreditPerLane | js/holdLogic.js:79-100 | In one tick at most one tap per lane is credited, and none in a lane whose current press was already credited. |
| HoldLogic.JudgeTaps | js/holdLogic.js:79-100 | The loop leaves the tap elements, the credit latch, combo and hp as `TapsFrom` gives them; nothing else changes. |
| HoldLogic.JudgeState | js/holdLogic.js:3-101 | The judge never raises hp. It changes only the hold notes, checkpoints, tap elements, credit latch, combo and hp, keeps the number of checkpoint groups, and never adds hold notes or tap elements. |
| HoldLogic.HandleActiveHoldNotes | js/holdLogic.js:3-101 | Holds, then checkpoints (on their own clock reading), then taps: the new state is `JudgeState` of the old one. |
| GameControl.StopGame | js/gameControl.js:3-10 | The new state is `StopState` of the old one. |
| GameControl.ResetGame | js/gameControl.js:12-25 | The new state is `ResetState` of the old one. |
| GameControl.EndGame | js/gameControl.js:27-30 | Game over is the same state change as a stop. |
| GameControl.StopEffect | js/gameControl.js:3-10 | After a stop neither mode is on, the game counts as stopped and no note element is left. Charts, recorded notes, combo, hp, press times and hold bookkeeping are unchanged. |
| GameControl.ResetEffect | js/gameControl.js:12-25 | After a reset the game is idle and not stopped, with hp 500, combo 0, clock origin 0 and no live notes or key flags. It keeps the recorded notes, both charts and the press times. |
| GameControl.ResetIdempotent | js/gameControl.js:12-25 | Resetting twice is the same as resetting once. |
| GameLoop.DueCount | js/gameLoop.js:21-23 | The spawn loop pops the longest prefix of the queue whose every entry is due; the entry after it, if any, is not due. |
| GameLoop.SpawnAllAppends | js/noteSpawner.js:1-43 | Spawning a run of entries appends, in chart order, one tap element per known-lane tap, and per known-lane hold one fresh runtime note and the group of that hold's one-second checkpoints in its lane (`KnownCheckGroups`); nothing else changes. |
| GameLoop.SpawnDue | js/gameLoop.js:21-23 | The while loop spawns the due prefix in order and leaves the rest as the queue. |
| GameLoop.Tick | js/gameLoop.js:5-26 | The new state is `TickState` of the old one: guard, judge, hp check, then the spawn loop. |
| GameLoop.TickIdle | js/gameLoop.js:6 | A tick while not playing, or after a stop, changes nothing. |
| GameLoop.TickGameOver | js/gameLoop.js:14-19 | When the judge leaves hp at 0 or below, the tick stops the game and spawns nothing: the queue is as before, and the hold notes and checkpoints are as the judge left them. |
| GameLoop.TickSpawnsDuePrefix | js/gameLoop.js:14-23 | A tick that passes the hp check takes a prefix of due entries off the queue and spawns exactly those in order: their tap elements, runtime notes and checkpoint groups follow the judged ones. Afterwards the queue's head, if any, is not due, and the game is still playing with the judged combo and hp. |
| GameLoop.ZeroTimeTapBlocksQueue | js/gameLoop.js:21 | A tap at time 0 at the head of the queue is never due, so nothing is spawned. |
| GameLoop.EffectiveTimeCases | js/gameLoop.js:21 | An entry's scheduling time is a tap's nonzero time or a hold's start time, and is undefined for a tap at time 0. |
| Controls.RecordClick | js/controls.js:5-14 | The new state is `RecordClickState` of the old one. |
| Controls.StopRecordingClick | js/controls.js:16-21 | The new state is `StopRecordingState` of the old one, and the download is `Download` of the old state. |
| Controls.PlayClick | js/controls.js:23-38 | The new state is `PlayClickState` of the old one. |
| Controls.RecordClickEffect | js/controls.js:5-10 | Ignored while recording. Otherwise a reset, then record mode on, play mode off, not stopped, an empty recording and the clock origin at now. |
| Controls.StopRecordingEffect | js/utils.js:2 | Ignored unless recording. Otherwise only record mode ends, and the recording is offered for download exactly when it is non-empty. |
| Controls.PlayClickEffect | js/controls.js:23-32 | While playing, only a stop. With no chart loaded, nothing. Otherwise a reset with the queue refilled from the pristine chart, play mode on, record mode off, the clock origin at now, full hp and no live notes. |
| Controls.EveryHandlerKeepsModesExclusive | js/controls.js:4-38 | Every button, key handler, stop, reset and tick keeps record mode and play mode from being on together. |
| Play.NewNotes | play/play.js:96-103 | Notes created for a run of entries: one per entry, in order, in its lane, at the top. |
| Play.FallenCount | play/play.js:105-118 | One moveNotes pass keeps or drops every note: kept plus missed equals the number before. |
| Play.FallenMembers | play/play.js:106-117 | After one moveNotes pass, a note is kept exactly when it is an advanced earlier note that is not below the 600 px miss line. |
| Play.NoMissAdvancesAll | play/play.js:106-117 | No miss is counted exactly when no note crosses the miss line, and then every note is just advanced, in place. |
| Play.FirstHit | play/play.js:141-154 | The first hit, if any, is the lowest-indexed note in the key's lane within 50 px of the 500 px line; None means no note hits. |
| Play.Player.constructor | play/play.js:5-12 | The player starts with no notes, no chart, not playing, hp 100, combo 0. |
| Play.Player.Start | play/play.js:14-53 | Ignored while playing or with no song selected. Otherwise the notes are cleared and the chart replaced. The loop starts (index 0, clock origin now) exactly when the chart is non-empty; hp and combo are not reset. |
| Play.Player.CreateNote | play/play.js:96-103 | One note is appended in the lane, at the top. |
| Play.Player.SpawnNotes | play/play.js:81-84 | The loop creates notes for exactly the run of due entries from the current index and stops at the first entry that is not due, or at the end. |
| Play.Player.EndGame | play/play.js:125-130 | Game over ends play. |
| Play.Player.MoveNotes | play/play.js:105-123 | The notes become `Fallen` of the old ones, hp drops 10 per miss, the combo resets on any miss, and play ends exactly when hp reaches 0 or below. |
| Play.Player.Frame | play/play.js:77-90 | One frame spawns the due run and then moves the notes: the new notes, hp, combo and playing flag are those of moveNotes applied to the old notes plus the spawned ones. |
| Play.Player.KeyDown | play/play.js:137-160 | Ignored unless playing and the key is a lane. Otherwise the first hit is removed with one more combo and hp + 2 capped at 100; with no hit, hp - 5 and combo 0. hp never exceeds 100. |

## Left out

- DOM geometry: element positions come in as integers per tick. The model does not
  derive them from `fallSpeed` and frame counts, and does not compute the hold note's
  shrinking height (js/holdLogic.js:30-33, js/noteSpawner.js:11-15 and 29-31).
- Floating point: times and pixel positions are exact integers. The one division
  whose IEEE edge cases matter (hold progress) is modelled case by case. The
  standalone player's 7.5 px step is modelled as 15 half-pixels.
- Clocks and frames: `Date.now()` readings and `requestAnimationFrame` become
  parameters and one method call per tick or frame. The checkpoint loop's own
  clock reading is a separate parameter.
- Audio, alerts, lane highlighting, the button label, and the hp, combo and
  judgement text (`ui.js` is not part of this model).
- Input: `e.key.toUpperCase()`, because keys arrive already upper-cased.
- Chart loading in the standalone player: `fetch`, `response.json()` and the
  `await` become a `loaded` chart parameter (empty when loading failed).
  Overlapping async starts are not modelled (no concurrency).
- Entries whose type is neither tap nor hold: the chart datatype has no such
  entries. The DOM `.note` query's visit to hold elements in the tap loop needs
  no model, since it does nothing for them.
- JSON copies: `JSON.parse(JSON.stringify(...))` is a value copy, so the model
  copies the sequence.
- `state.js` and `main.js` are not part of this model. The initial state is the
  one `State.Game.constructor` states, matching what `resetGame` establishes.
- HoldLogic.HoldSweep: its ensures gives bounds rather than the full result.
  The exact result is the function itself. `HoldSweepTraces` adds provenance, and
  `SpliceSkipsSuccessor` pins the skip down on a concrete case.
- HoldLogic.JudgeState: its ensures states the frame and hp monotonicity. The
  exact result is the composition of the three sweeps, stated by
  `HandleActiveHoldNotes`.
