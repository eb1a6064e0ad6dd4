# Animation Library for KSL: a verified model

This project models the core of the Animation Library for KSL (the Kotlin
Simulation Library) in Dafny. The library replays a discrete-event
simulation log as an animation and lets an author build the scene it plays
in. The model covers:

- **The log.** Each line is `<time>: <command words>`. It is cut into
  tokens (`Text`, `LogCursor.EventCursor`), and each keyword is parsed by its
  event reader (`LogEvents`: OBJECT, QUEUE, RESOURCE, VARIABLE, MOVE, START,
  STOP). The loader (`LogLoading`, `LogCursor.AnimationLog`,
  `AnimationLogLoad`) reads every line, stably sorts the events by time and
  back-fills each MOVE's duration up to the next event of the same object.
- **Replay.** The viewer (`Viewer.AnimationViewer`) holds the registries of
  objects, queues, resources, stations and variables. It runs the tick loop,
  executes due events and steps movement jobs through the easing functions
  (`MovementFunctions`, `SimEntities`). Every method is proved equal to a
  pure specification in `Replay`, and the properties are proved about that
  specification.
- **Setup and editing.** The setup file's entries become registries
  (`Setup`, `LinkedMaps`). In the builder, the scene (`AnimationScenes`) owns
  the renderables (`EditorEntities`), their drag geometry (`Geometry`) and
  text colours (`Colors`), plus an undo/redo history of changes (`History`,
  `SceneChanges`).
- **Earlier prototypes kept in the repository.** These are the `parser.kt`
  command grammar (`LegacyParser`) and the first viewer in `Main.kt`
  (`LegacyDemo`). They also include the pharmacy log generator in
  `test/index.js` (`LegacyPharmacy`) and the elevator demo of the game
  module (`LegacyElevator`).

Exceptions become `Err` values of a `Result` or `Outcome`, carrying the
exception's kind and message. Kotlin `Float` and `Double` values are
modelled as `real`. Random draws, frame times and the Base64 image decoder
are parameters of the operations that use them.

A few behaviours of the program differ from what a reader might expect. The
model follows the code in each of them:

- A malformed log line (for example a bad number after SIZED) makes the
  whole load fail.
- The tick loop runs only while the timer is strictly greater than one
  tick (`timer > 1 / ticksPerSecond`).
- Playback does not pause by itself at the log's end time.
- A log without START or STOP uses 0.0 for the missing time.
- Undo does not always bring back the state from before a change. An add
  over an id that is already registered loses the old entry for good.
  AddObject's undo and RemoveObject's apply act on the queue registry (see
  Findings).

## Model

| member | source | states |
|---|---|---|
| MovementFunctions.ApplyFunction | core/src/main/kotlin/ksl/animation/sim/MovementFunctions.kt:13-35 | fails exactly for an unknown curve name; INSTANT gives 1 for every input, LINEAR is the unclamped identity, each cubic lies in [0, 1] |
| MovementFunctions.EasingEndpoints | core/src/main/kotlin/ksl/animation/sim/MovementFunctions.kt:16-35 | LINEAR and the three cubics map 0 to 0 and 1 to 1 |
| MovementFunctions.EaseInOutHalves | core/src/main/kotlin/ksl/animation/sim/MovementFunctions.kt:32-35 | both branches of EASE_IN_OUT give 0.5 at 0.5 |
| MovementFunctions.EasingMonotone | core/src/main/kotlin/ksl/animation/sim/MovementFunctions.kt:13-35 | every named curve is non-decreasing in its input |
| SimEntities.ProgressOf | core/src/main/kotlin/ksl/animation/sim/KSLObject.kt:53 | the double `elapsed / duration`: a ratio exactly when the duration is positive, NaN exactly for 0/0, +Infinity otherwise |
| SimEntities.MovementStep | core/src/main/kotlin/ksl/animation/sim/KSLObject.kt:52-61 | a completed progress (`amount >= 1`) gives the end position and true; otherwise start + (end - start) * eased amount and false, or the unknown-curve error |
| SimEntities.StepAtStart | core/src/main/kotlin/ksl/animation/sim/KSLObject.kt:57-59 | at elapsed 0 with a positive duration, LINEAR and every EASE curve leave the object at its start point, not completed |
| SimEntities.StepStaysBetween | core/src/main/kotlin/ksl/animation/sim/KSLObject.kt:52-61 | a LINEAR or cubic step always lies within the box spanned by the start and end points |
| SimEntities.InstantWithoutDurationNeverCompletes | core/src/main/kotlin/ksl/animation/sim/KSLObject.kt:53-59 | an INSTANT job with zero duration and zero elapsed time is placed at its end but never reports completion (0/0 is NaN) |
| SimEntities.InstantWithDurationCompletes | core/src/main/kotlin/ksl/animation/sim/KSLObject.kt:53-56 | an INSTANT job whose elapsed time equals a positive duration completes at its end point |
| SimEntities.SimObject.constructor | core/src/main/kotlin/ksl/animation/sim/KSLObject.kt:14-21 | the object holds the given id, position, type, width and height |
| SimEntities.SimObject.ApplyMovement | core/src/main/kotlin/ksl/animation/sim/KSLObject.kt:52-61 | writes the step's position and returns its completion flag; on the unknown-curve error the position is unchanged; only `position` may change |
| SimEntities.SimQueue.constructor | core/src/main/kotlin/ksl/animation/sim/KSLQueue.kt:12-15 | no members; the renderable position is the midpoint of the endpoints |
| SimEntities.SimQueue.AddObject | core/src/main/kotlin/ksl/animation/sim/KSLQueue.kt:17-19 | the member list becomes the insertion-ordered map with the object's id bound to it |
| SimEntities.SimQueue.RemoveObject | core/src/main/kotlin/ksl/animation/sim/KSLQueue.kt:21-23 | the member list becomes the map without the object's id (absent: unchanged) |
| SimEntities.JoinKeepsDrawOrder | core/src/main/kotlin/ksl/animation/sim/KSLQueue.kt:17-66 | a join keeps every member's draw slot, puts a newcomer last and leaves a re-joining id in its old slot |
| SimEntities.JoinAndLeaveLookups | core/src/main/kotlin/ksl/animation/sim/KSLQueue.kt:15-23 | after a join the id maps to the object, after a leave it is absent, and every other id keeps its entry |
| SimEntities.SimResource.Init | core/src/main/kotlin/ksl/animation/sim/KSLResource.kt:10-14 | the resource keeps its states, position and size, and its current state starts as "idle" |
| SimEntities.SimResource.Create | core/src/main/kotlin/ksl/animation/sim/KSLResource.kt:10-14 | construction fails with "No default state found" exactly when no state is a default; otherwise the current state is "idle" whatever the default is |
| SimEntities.SimResource.SetState | core/src/main/kotlin/ksl/animation/sim/KSLResource.kt:16-18 | the current state becomes any given string |
| SimEntities.SimResource.Image | core/src/main/kotlin/ksl/animation/sim/KSLResource.kt:20-21 | the drawn image is `getImage` of the current state |
| Setup.FirstNamed | core/src/main/kotlin/ksl/animation/setup/ResourceStates.kt:24 | the index of the first state with that name, or none when no state has it |
| Setup.FirstDefault | core/src/main/kotlin/ksl/animation/setup/ResourceStates.kt:15 | the index of the first state flagged default, or none when no state is |
| Setup.WithDefault | core/src/main/kotlin/ksl/animation/setup/ResourceStates.kt:48-52 | fails exactly when no state has the name; otherwise every flag is cleared and only the first state with the name is flagged |
| Setup.Updated | core/src/main/kotlin/ksl/animation/setup/ResourceStates.kt:33-41 | fails exactly when no state has the old name; the list keeps its length |
| Setup.ImageFor | core/src/main/kotlin/ksl/animation/setup/ResourceStates.kt:54-61 | the named state's image, or the default state's image for an unknown name; fails exactly when that image is not loaded |
| Setup.WithDefaultIsUnique | core/src/main/kotlin/ksl/animation/setup/ResourceStates.kt:48-52 | after setDefaultState the first (and only) default is the first state carrying the name |
| Setup.UpdatedTouchesOnlyTarget | core/src/main/kotlin/ksl/animation/setup/ResourceStates.kt:33-41 | updateState gives the found state the new name and image and keeps every other state's name and image |
| Setup.WithDefaultKeepsNames | core/src/main/kotlin/ksl/animation/setup/ResourceStates.kt:48-52 | setDefaultState changes only default flags |
| Setup.AddedKeepsLookups | core/src/main/kotlin/ksl/animation/setup/ResourceStates.kt:29-31 | appending a state leaves the lookup of every existing name unchanged |
| Setup.ResourceStates.Create | core/src/main/kotlin/ksl/animation/setup/ResourceStates.kt:11-21 | construction fails with "No default state found" exactly when no state is a default; `defaultState` is the first default |
| Setup.ResourceStates.FindState | core/src/main/kotlin/ksl/animation/setup/ResourceStates.kt:24 | the loop stops at the first state with the name, as the pure lookup does |
| Setup.ResourceStates.GetState | core/src/main/kotlin/ksl/animation/setup/ResourceStates.kt:23-27 | returns the first state with the name, or "No state found" exactly when there is none |
| Setup.ResourceStates.AddState | core/src/main/kotlin/ksl/animation/setup/ResourceStates.kt:29-31 | appends one fresh non-default state with image "default_resource"; the existing states are unchanged |
| Setup.ResourceStates.UpdateState | core/src/main/kotlin/ksl/animation/setup/ResourceStates.kt:33-41 | fails without change exactly when no state has the old name; otherwise the states become the pure update |
| Setup.ResourceStates.RemoveState | core/src/main/kotlin/ksl/animation/setup/ResourceStates.kt:43-46 | removes the first state with the name, or fails without change; `defaultState` is never reassigned |
| Setup.ResourceStates.ClearDefaultFlags | core/src/main/kotlin/ksl/animation/setup/ResourceStates.kt:49 | every default flag is cleared, names and images untouched |
| Setup.ResourceStates.SetDefaultState | core/src/main/kotlin/ksl/animation/setup/ResourceStates.kt:48-52 | clears every flag, then flags the first state with the name, failing (flags already cleared) when none has it |
| Setup.ResourceStates.GetImage | core/src/main/kotlin/ksl/animation/setup/ResourceStates.kt:54-61 | the image name drawn, as the pure lookup gives it |
| Setup.CollectOnlyPicked | core/src/main/kotlin/ksl/animation/viewer/AnimationViewer.kt:43-80 | a registry filled by loadAnimationSetup holds only ids of entries of its kind |
| Setup.CollectHasEvery | core/src/main/kotlin/ksl/animation/viewer/AnimationViewer.kt:43-80 | every setup entry of the kind is registered under its id |
| Setup.CollectLastWins | core/src/main/kotlin/ksl/animation/viewer/AnimationViewer.kt:43-80 | the last entry with an id is the one its registry holds |
| Setup.CollectStep | core/src/main/kotlin/ksl/animation/viewer/AnimationViewer.kt:57-59 | each `registry[it.id] = ...` adds exactly that entry to the fill of the entries before it |
| Viewer.AnimationViewer.constructor | core/src/main/kotlin/ksl/animation/viewer/AnimationViewer.kt:17-41 | empty registries, paused at tick 0 with timer 0, cursor 0 and one tick per second |
| Viewer.AnimationViewer.LoadAnimationSetup | core/src/main/kotlin/ksl/animation/viewer/AnimationViewer.kt:43-80 | each registry gains the setup entries of its kind, later ids overwriting; undecodable images are skipped; a resource without a default aborts the load, leaving earlier resources registered |
| Viewer.AnimationViewer.LoadImages | core/src/main/kotlin/ksl/animation/viewer/AnimationViewer.kt:45-54 | the images gain the ids of the image entries whose data decodes |
| Viewer.AnimationViewer.LoadObjectTypes | core/src/main/kotlin/ksl/animation/viewer/AnimationViewer.kt:57-59 | the object types gain every type entry, in order |
| Viewer.AnimationViewer.LoadObjects | core/src/main/kotlin/ksl/animation/viewer/AnimationViewer.kt:62-64 | the objects gain every object entry with its position, type and size |
| Viewer.AnimationViewer.LoadStations | core/src/main/kotlin/ksl/animation/viewer/AnimationViewer.kt:67-69 | the stations gain every station entry's position |
| Viewer.AnimationViewer.LoadQueues | core/src/main/kotlin/ksl/animation/viewer/AnimationViewer.kt:72-74 | the queues gain every queue entry, empty, with its endpoints and scale |
| Viewer.AnimationViewer.LoadResources | core/src/main/kotlin/ksl/animation/viewer/AnimationViewer.kt:77-79 | every resource entry is registered in state "idle" up to the first whose states have no default, which throws |
| Viewer.AnimationViewer.LoadAnimationLog | core/src/main/kotlin/ksl/animation/viewer/AnimationViewer.kt:82-84 | installs the log to replay |
| Viewer.AnimationViewer.ExecuteAdd | core/src/main/kotlin/ksl/animation/sim/events/ObjectEvent.kt:65-69 | the registries change exactly as the ADD effect says |
| Viewer.AnimationViewer.ExecuteRemove | core/src/main/kotlin/ksl/animation/sim/events/ObjectEvent.kt:70-75 | the registries change exactly as the REMOVE effect says, including its exception |
| Viewer.AnimationViewer.ExecuteQueue | core/src/main/kotlin/ksl/animation/sim/events/QueueEvent.kt:40-50 | the registries change exactly as the queue effect says |
| Viewer.AnimationViewer.JoinQueue | core/src/main/kotlin/ksl/animation/sim/KSLQueue.kt:17-19 | the queue's member ids gain the object's id, kept in its place when present; nothing else changes |
| Viewer.AnimationViewer.LeaveQueue | core/src/main/kotlin/ksl/animation/sim/KSLQueue.kt:21-23 | the queue's member ids lose the object's id; nothing else changes |
| Viewer.AnimationViewer.ExecuteResource | core/src/main/kotlin/ksl/animation/sim/events/ResourceEvent.kt:29-34 | the registries change exactly as the resource effect says |
| Viewer.AnimationViewer.ExecuteVariable | core/src/main/kotlin/ksl/animation/sim/events/VariableEvent.kt:32-42 | the registries change exactly as the variable effect says |
| Viewer.AnimationViewer.ExecuteMove | core/src/main/kotlin/ksl/animation/sim/events/MoveEvent.kt:54-63 | the registries change exactly as the MOVE effect says: a job is appended, no object moves |
| Viewer.AnimationViewer.Execute | core/src/main/kotlin/ksl/animation/sim/KSLLogEvent.kt:95-97 | executing any event changes the registries exactly as its specified effect |
| Viewer.AnimationViewer.RunEvents | core/src/main/kotlin/ksl/animation/viewer/AnimationViewer.kt:88-90 | events run in order, stopping at the first that throws, as the run specification says |
| Viewer.AnimationViewer.RunInstantEvents | core/src/main/kotlin/ksl/animation/viewer/AnimationViewer.kt:86-91 | every event within 0.0001 of the start time is executed, in log order, whatever the cursor |
| Viewer.AnimationViewer.RunWindow | core/src/main/kotlin/ksl/animation/viewer/AnimationViewer.kt:103-109 | from the cursor, every event up to the first later than the tick is executed once, in order, and the cursor ends at that event |
| Viewer.AnimationViewer.RunTicks | core/src/main/kotlin/ksl/animation/viewer/AnimationViewer.kt:99-110 | the tick loop leaves the registries, clock and cursor as the tick specification says |
| Viewer.AnimationViewer.TickLoop | core/src/main/kotlin/ksl/animation/viewer/AnimationViewer.kt:99-110 | while the timer exceeds the quantum, one quantum is taken, the tick count grows and the due events run |
| Viewer.AnimationViewer.StepMovements | core/src/main/kotlin/ksl/animation/viewer/AnimationViewer.kt:113-127 | the positions and job list become what the movement-pass specification gives; queues and resources do not change |
| Viewer.AnimationViewer.MoveAll | core/src/main/kotlin/ksl/animation/viewer/AnimationViewer.kt:114-126 | the iterator loop over the jobs computes the movement-pass specification |
| Viewer.AnimationViewer.MoveObject | core/src/main/kotlin/ksl/animation/viewer/AnimationViewer.kt:120-122 | only the named object's position changes, to the step's position |
| Viewer.AnimationViewer.Render | core/src/main/kotlin/ksl/animation/viewer/AnimationViewer.kt:93-127 | the timer grows only while playing, the tick loop runs either way, jobs move only while playing; the end time is never consulted |
| Viewer.AnimationViewer.RenderPaused | core/src/main/kotlin/ksl/animation/viewer/AnimationViewer.kt:97-110 | a paused frame runs the tick loop on the timer as it is and moves no job |
| Viewer.AnimationViewer.RenderPlaying | core/src/main/kotlin/ksl/animation/viewer/AnimationViewer.kt:97-127 | a playing frame grows the timer, runs the tick loop, then the movement pass |
| Replay.ExecuteSpec | core/src/main/kotlin/ksl/animation/sim/KSLLogEvent.kt:95 | every exception of `execute` leaves the registries unchanged; only a MOVE touches the jobs, and it appends at most its own job |
| Replay.ExecuteAll | core/src/main/kotlin/ksl/animation/viewer/AnimationViewer.kt:103-109 | an empty run changes nothing; a run stops at the first exception |
| Replay.ExecuteAllKeepsJobs | core/src/main/kotlin/ksl/animation/sim/events/MoveEvent.kt:57-59 | a run of events whose durations are filled in keeps every job's times non-negative |
| Replay.ExecuteAllAppend | core/src/main/kotlin/ksl/animation/viewer/AnimationViewer.kt:103-109 | running a then b is running a + b; a failure in a is the failure of the whole run |
| Replay.ExecuteAllKeepsFailure | core/src/main/kotlin/ksl/animation/viewer/AnimationViewer.kt:103-109 | once a run has thrown, later events change nothing |
| Replay.ExecuteWindowStep | core/src/main/kotlin/ksl/animation/viewer/AnimationViewer.kt:103-109 | one more event of a window extends the run by exactly that event's effect |
| Replay.AddThenRemove | core/src/main/kotlin/ksl/animation/sim/events/ObjectEvent.kt:65-75 | ADD inserts or overwrites the object; REMOVE right after leaves the registry as before minus that id |
| Replay.RemoveOfAbsent | core/src/main/kotlin/ksl/animation/sim/events/ObjectEvent.kt:67-75 | removing an absent object throws "Object … not found" and changes nothing |
| Replay.QueueEffects | core/src/main/kotlin/ksl/animation/sim/events/QueueEvent.kt:40-50 | without the object the event throws before the queue is read; JOIN makes the object last unless already queued, LEAVE drops it, other queues unchanged |
| Replay.ResourceEffect | core/src/main/kotlin/ksl/animation/sim/events/ResourceEvent.kt:29-34 | succeeds exactly when the resource exists, then sets its state to any name; other resources, objects and queues unchanged |
| Replay.VariableEffect | core/src/main/kotlin/ksl/animation/sim/events/VariableEvent.kt:32-42 | a value that read as a number is stored as that number, any other as its text |
| Replay.MoveOnlyQueuesAJob | core/src/main/kotlin/ksl/animation/sim/events/MoveEvent.kt:54-63 | MOVE does not move the object: it appends one job at elapsed 0 carrying the event's current duration and curve |
| Replay.MarkIsNoOp | core/src/main/kotlin/ksl/animation/sim/events/AnimationEvent.kt:28 | START and STOP change nothing when executed |
| Replay.SecondRunOfAnEvent | core/src/main/kotlin/ksl/animation/viewer/AnimationViewer.kt:86-109 | an event run by runInstantEvents and again by the cursor: a second ADD changes nothing, a second REMOVE throws, a second MOVE adds a second job |
| Replay.FirstLater | core/src/main/kotlin/ksl/animation/viewer/AnimationViewer.kt:103-109 | the cursor's stopping index never precedes its start |
| Replay.FirstLaterIsFirst | core/src/main/kotlin/ksl/animation/viewer/AnimationViewer.kt:103-109 | every event the cursor passes is due by the tick, and it stops at the first later one |
| Replay.FirstLaterMonotone | core/src/main/kotlin/ksl/animation/viewer/AnimationViewer.kt:103-109 | a later tick moves the cursor at least as far |
| Replay.FirstLaterResumes | core/src/main/kotlin/ksl/animation/viewer/AnimationViewer.kt:99-110 | stopping at one tick and resuming at a later one ends where a single scan would |
| Replay.FirstLaterOnSorted | core/src/main/kotlin/ksl/animation/viewer/AnimationViewer.kt:103-109 | on a time-sorted log the cursor has executed exactly the events at or before the tick |
| Replay.Quanta | core/src/main/kotlin/ksl/animation/viewer/AnimationViewer.kt:99-101 | the loop takes no quantum exactly when the timer is at most one quantum (the test is strict) |
| Replay.Leftover | core/src/main/kotlin/ksl/animation/viewer/AnimationViewer.kt:99-101 | the timer left is at most one quantum, and positive when a quantum was taken |
| Replay.LeftoverAccounting | core/src/main/kotlin/ksl/animation/viewer/AnimationViewer.kt:99-101 | no time is lost: the leftover is the timer less one quantum per tick |
| Replay.QuantaStep | core/src/main/kotlin/ksl/animation/viewer/AnimationViewer.kt:99-101 | one pass of the loop takes exactly one quantum |
| Replay.ClockAccounting | core/src/main/kotlin/ksl/animation/viewer/AnimationViewer.kt:97-101 | a positive timer ends in (0, quantum], the start less one quantum per tick |
| Replay.AdvancedIsSteppable | core/src/main/kotlin/ksl/animation/viewer/AnimationViewer.kt:117-118 | after `elapsedTime += delta * tps` (or the INSTANT jump to the duration) a job's step is well defined |
| Replay.StepJobs | core/src/main/kotlin/ksl/animation/viewer/AnimationViewer.kt:113-127 | the movement pass keeps the object ids and never lengthens the job list |
| Replay.StepJobsKeepsKnownObjects | core/src/main/kotlin/ksl/animation/viewer/AnimationViewer.kt:120-125 | after a pass that got through, every remaining job names an existing object |
| Replay.StepJobsKeepsFailure | core/src/main/kotlin/ksl/animation/viewer/AnimationViewer.kt:120-125 | once a job throws, the jobs after it stay as they were |
| Replay.StepJobsNext | core/src/main/kotlin/ksl/animation/viewer/AnimationViewer.kt:114-126 | one more job: a missing object throws, an unknown curve throws, otherwise the object moves and the job is dropped iff finished |
| Replay.StepJobsDropsFinished | core/src/main/kotlin/ksl/animation/viewer/AnimationViewer.kt:120-122 | a job is removed exactly when applyMovement returns true, and then its object sits exactly at the end position |
| Replay.CursorAfter | core/src/main/kotlin/ksl/animation/viewer/AnimationViewer.kt:99-110 | the cursor after a frame never precedes where it started |
| Replay.CursorAfterNext | core/src/main/kotlin/ksl/animation/viewer/AnimationViewer.kt:99-110 | the cursor after k ticks is where tick k's scan stops |
| Replay.CursorAfterMonotone | core/src/main/kotlin/ksl/animation/viewer/AnimationViewer.kt:99-110 | more ticks never leave the cursor further back |
| Replay.TickWindow | core/src/main/kotlin/ksl/animation/viewer/AnimationViewer.kt:99-110 | tick k runs exactly the events due by it after those of earlier ticks; an exception there is the frame's outcome |
| Replay.ExecuteSlices | core/src/main/kotlin/ksl/animation/viewer/AnimationViewer.kt:103-109 | running a slice is running its two halves in order |
| Replay.Ticks | core/src/main/kotlin/ksl/animation/viewer/AnimationViewer.kt:99-110 | the tick loop reports a clock exactly when no event threw, and keeps the jobs well formed |
| Replay.Frame | core/src/main/kotlin/ksl/animation/viewer/AnimationViewer.kt:93-127 | a frame has a clock unless it threw, and keeps the jobs well formed |
| Replay.FrameWhenStopped | core/src/main/kotlin/ksl/animation/viewer/AnimationViewer.kt:97-113 | a paused frame, or one whose events threw, is just its tick loop: no job moves |
| Replay.FrameWhenPlaying | core/src/main/kotlin/ksl/animation/viewer/AnimationViewer.kt:113-127 | a playing frame runs the movement pass with step delta * tps after the events |
| Replay.TicksClock | core/src/main/kotlin/ksl/animation/viewer/AnimationViewer.kt:99-101 | the cursor never goes back, one tick is counted per quantum and the timer ends at most one quantum |
| Replay.TicksRunsDueEvents | core/src/main/kotlin/ksl/animation/viewer/AnimationViewer.kt:99-110 | a frame runs exactly the events from the cursor up to the first later than the last tick, and none when no tick happened |
| Replay.InstantEvents | core/src/main/kotlin/ksl/animation/viewer/AnimationViewer.kt:86-91 | exactly the events within 0.0001 of the start time, in log order |
| LogEvents.ReadToken | core/src/main/kotlin/ksl/animation/sim/KSLLogEvent.kt:21-25 | reading a token succeeds exactly inside the list and gives that token; past the end it throws |
| LogEvents.ReadUnquoted | core/src/main/kotlin/ksl/animation/sim/KSLLogEvent.kt:74-78 | succeeds exactly inside the list, giving the token without surrounding quotes |
| LogEvents.ReadRegistered | core/src/main/kotlin/ksl/animation/sim/KSLLogEvent.kt:34-65 | succeeds exactly when the unquoted id is registered; otherwise throws "<kind> <id> not found" |
| LogEvents.ReadStation | core/src/main/kotlin/ksl/animation/sim/KSLLogEvent.kt:67-72 | succeeds exactly for a registered station, giving its position |
| LogEvents.ReadNumber | core/src/main/kotlin/ksl/animation/sim/KSLLogEvent.kt:80-85 | succeeds exactly when the token reads as a double, giving that value; otherwise throws "Invalid number: <token>" |
| LogEvents.Record | core/src/main/kotlin/ksl/animation/sim/KSLLogEvent.kt:27-32 | parseObjectId adds the id to the log's ordered object set, keeping it duplicate-free and touching nothing else |
| LogEvents.ObjectKeywordDecides | core/src/main/kotlin/ksl/animation/sim/events/ObjectEvent.kt:30-34 | OBJECT parse declines exactly a first token other than OBJECT, and then records nothing |
| LogEvents.QueueKeywordDecides | core/src/main/kotlin/ksl/animation/sim/events/QueueEvent.kt:24-27 | QUEUE parse declines exactly a first token other than QUEUE, and then records nothing |
| LogEvents.ResourceKeywordDecides | core/src/main/kotlin/ksl/animation/sim/events/ResourceEvent.kt:17-20 | RESOURCE parse declines exactly a first token other than RESOURCE, and never records an object |
| LogEvents.MoveKeywordDecides | core/src/main/kotlin/ksl/animation/sim/events/MoveEvent.kt:23-25 | MOVE parse declines exactly a first token other than MOVE, and then records nothing |
| LogEvents.AnimationKeywordDecides | core/src/main/kotlin/ksl/animation/sim/events/AnimationEvent.kt:12-26 | the START/STOP parse declines exactly other first tokens and never records an object |
| LogEvents.VariableDeclines | core/src/main/kotlin/ksl/animation/sim/events/VariableEvent.kt:18-30 | a registered variable followed by anything but SET is declined rather than an error |
| LogEvents.VariableValue | core/src/main/kotlin/ksl/animation/sim/events/VariableEvent.kt:18-30 | the value is one unquoted token, with its reading as a double kept beside it |
| LogEvents.SkippedObjectToken | core/src/main/kotlin/ksl/animation/sim/events/ObjectEvent.kt:36-38 | the token OBJECT ADD passes over with next() can be any word |
| LogEvents.SkippedResourceTokens | core/src/main/kotlin/ksl/animation/sim/events/ResourceEvent.kt:21 | the two tokens next(2) passes over can be any words |
| LogEvents.SkippedMoveToken | core/src/main/kotlin/ksl/animation/sim/events/MoveEvent.kt:23-52 | the FROM and TO tokens of MOVE can be any words |
| LogEvents.AddWithoutClauses | core/src/main/kotlin/ksl/animation/sim/events/ObjectEvent.kt:35-49 | OBJECT ADD without clauses places the object at (0, 0) sized 1x1 and records its id |
| LogEvents.AddWithClauses | core/src/main/kotlin/ksl/animation/sim/events/ObjectEvent.kt:35-49 | OBJECT ADD of a registered type is the event its clause loop yields |
| LogEvents.SizedClause | core/src/main/kotlin/ksl/animation/sim/events/ObjectEvent.kt:42-45 | SIZED with two numbers sets width and height and consumes three tokens |
| LogEvents.AtClause | core/src/main/kotlin/ksl/animation/sim/events/ObjectEvent.kt:41 | AT with a registered station sets the position and consumes two tokens |
| LogEvents.AddOfUnknownType | core/src/main/kotlin/ksl/animation/sim/events/ObjectEvent.kt:36 | an unregistered object type throws before the object id is read or recorded |
| LogEvents.RemoveAndUnknownAction | core/src/main/kotlin/ksl/animation/sim/events/ObjectEvent.kt:50-51 | REMOVE reads and records only the id, whatever is registered; any other action throws "Unknown action" |
| LogEvents.ClausesInAnyOrder | core/src/main/kotlin/ksl/animation/sim/events/ObjectEvent.kt:40-48 | clauses may come in any order and repeat: the last of each kind wins and stray words are skipped |
| LogEvents.QueueActionCheckedLast | core/src/main/kotlin/ksl/animation/sim/events/QueueEvent.kt:28-37 | an unknown queue action throws only after the object id was read and recorded |
| LogEvents.ResourceStateUnchecked | core/src/main/kotlin/ksl/animation/sim/events/ResourceEvent.kt:21-26 | the new state is taken as written, not checked against the resource's states |
| LogEvents.MoveEasing | core/src/main/kotlin/ksl/animation/sim/events/MoveEvent.kt:36-48 | the curve defaults to LINEAR, a seventh token other than AS is ignored, and AS must name one of the five curves |
| LogEvents.MoveParsedShape | core/src/main/kotlin/ksl/animation/sim/events/MoveEvent.kt:23-52 | a parsed MOVE has the line's time, the line's object id, a zero duration and a known curve |
| LogEvents.AnimationMarkIgnoresRest | core/src/main/kotlin/ksl/animation/sim/events/AnimationEvent.kt:12-26 | START and STOP look only at the first token and set the log's start or end time |
| LogEvents.TestLineTokens | core/src/test/kotlin/ksl/animation/sim/ObjectEventTest.kt:30-36 | a test line of space-free words splits back into those words |
| LogEvents.UnquoteTestIds | core/src/test/kotlin/ksl/animation/sim/ObjectEventTest.kt:25-29 | the quoted test ids unquote to themselves |
| LogEvents.TestNumber | core/src/test/kotlin/ksl/animation/sim/ObjectEventTest.kt:56-64 | a token "1.d" reads as 1 + d/10 |
| LogEvents.TestNumbers | core/src/test/kotlin/ksl/animation/sim/ObjectEventTest.kt:56-64 | the test's size tokens 1.5 and 1.7 read as 1.5 and 1.7 |
| LogEvents.TestViewRegistersTestIds | core/src/test/kotlin/ksl/animation/sim/ObjectEventTest.kt:25-29 | the test setup registers the quoted test ids, with the station at (1.1, 1.3) |
| LogEvents.ObjectAddTest1 | core/src/test/kotlin/ksl/animation/sim/ObjectEventTest.kt:38-45 | spawnEventTest1: OBJECT ADD parses to an object at (0, 0) sized 1x1 |
| LogEvents.ObjectAddTest2 | core/src/test/kotlin/ksl/animation/sim/ObjectEventTest.kt:46-54 | spawnEventTest2: AT places the object at the station |
| LogEvents.AddSized | core/src/test/kotlin/ksl/animation/sim/ObjectEventTest.kt:55-64 | spawnEventTest3: SIZED sets the size |
| LogEvents.AddAtSized | core/src/test/kotlin/ksl/animation/sim/ObjectEventTest.kt:65-75 | spawnEventTest4: AT and SIZED together set position and size |
| LogEvents.ObjectRemoveTest | core/src/test/kotlin/ksl/animation/sim/ObjectEventTest.kt:76-82 | spawnEventTest5: OBJECT REMOVE parses to a removal of that id |
| LogEvents.QueueJoinTest | core/src/test/kotlin/ksl/animation/sim/QueueEventTest.kt:33-40 | queueEventTest1: JOIN parses with the queue and object ids |
| LogEvents.QueueLeaveTest | core/src/test/kotlin/ksl/animation/sim/QueueEventTest.kt:41-48 | queueEventTest2: LEAVE parses with the queue and object ids |
| LogEvents.ResourceTest | core/src/test/kotlin/ksl/animation/sim/ResourceEventTest.kt:34-40 | resourceEventTest: the new state is the fifth token |
| LogCursor.AnimationLog.constructor | core/src/main/kotlin/ksl/animation/sim/KSLAnimationLog.kt:11-14 | a new log has no events, no recorded ids and start and end times 0.0 |
| LogCursor.AnimationLog.ParseLogLine | core/src/main/kotlin/ksl/animation/sim/KSLAnimationLog.kt:52-66 | computes LineSpec: no event without ": " or a numeric time, otherwise the first candidate that accepts; the events are untouched |
| LogCursor.AnimationLog.ParseCandidates | core/src/main/kotlin/ksl/animation/sim/KSLAnimationLog.kt:59-65 | tries Object, Queue, Resource, Move and Animation events in that order on fresh events, stopping at the first that accepts or throws |
| LogCursor.AnimationLog.ParseLines | core/src/main/kotlin/ksl/animation/sim/KSLAnimationLog.kt:27-28 | computes LinesSpec: the parsed events in line order, the first exception aborting the load |
| LogCursor.AnimationLog.FillDurations | core/src/main/kotlin/ksl/animation/sim/KSLAnimationLog.kt:34-46 | the events become BackFilled: each MOVE's duration is the time to the next event involving its object, id by id |
| LogCursor.AnimationLog.FillObject | core/src/main/kotlin/ksl/animation/sim/KSLAnimationLog.kt:37-45 | one id's pass of the back-fill over every event, remembering the last event that involved it |
| LogCursor.EventCursor.constructor | core/src/main/kotlin/ksl/animation/sim/KSLLogEvent.kt:6-14 | a new event has its time, the viewer's registries and the log, with no tokens |
| LogCursor.EventCursor.StartParsing | core/src/main/kotlin/ksl/animation/sim/KSLLogEvent.kt:16-19 | installs the tokens and rewinds the cursor to 0 |
| LogCursor.EventCursor.Next | core/src/main/kotlin/ksl/animation/sim/KSLLogEvent.kt:91-93 | moves the cursor by the amount with no bound check |
| LogCursor.EventCursor.ParseKeyword | core/src/main/kotlin/ksl/animation/sim/KSLLogEvent.kt:21-25 | returns ReadToken at the cursor, and moves on exactly when it succeeded |
| LogCursor.EventCursor.ParseObjectId | core/src/main/kotlin/ksl/animation/sim/KSLLogEvent.kt:27-32 | returns the unquoted token and records it in the log's ids without any registry check |
| LogCursor.EventCursor.ParseRegistered | core/src/main/kotlin/ksl/animation/sim/KSLLogEvent.kt:34-65 | the shared shape of the id parsers: the cursor moves on, then the id is checked against the registry |
| LogCursor.EventCursor.ParseObjectTypeId | core/src/main/kotlin/ksl/animation/sim/KSLLogEvent.kt:34-43 | the id if it is a registered object type, else "Object type <id> not found" |
| LogCursor.EventCursor.ParseQueueId | core/src/main/kotlin/ksl/animation/sim/KSLLogEvent.kt:45-54 | the id if it is a registered queue, else "Queue <id> not found" |
| LogCursor.EventCursor.ParseResourceId | core/src/main/kotlin/ksl/animation/sim/KSLLogEvent.kt:56-65 | the id if it is a registered resource, else "Resource <id> not found" |
| LogCursor.EventCursor.ParseVariableId | core/src/main/kotlin/ksl/animation/sim/events/VariableEvent.kt:23 | the id if it is a registered variable, else "Variable <id> not found" |
| LogCursor.EventCursor.ParseStation | core/src/main/kotlin/ksl/animation/sim/KSLLogEvent.kt:67-72 | the position of the registered station named by the token |
| LogCursor.EventCursor.ParseString | core/src/main/kotlin/ksl/animation/sim/KSLLogEvent.kt:74-78 | the token without surrounding quotes |
| LogCursor.EventCursor.ParseNumber | core/src/main/kotlin/ksl/animation/sim/KSLLogEvent.kt:80-85 | the token read as a double; the cursor has moved on even when it is not one |
| LogCursor.EventCursor.ParseAddClauses | core/src/main/kotlin/ksl/animation/sim/events/ObjectEvent.kt:40-48 | the while (hasNext()) clause loop computes AddClauses from the cursor, starting at (0, 0) and 1x1 |
| LogCursor.EventCursor.ParseClause | core/src/main/kotlin/ksl/animation/sim/events/ObjectEvent.kt:41-47 | one clause moves the cursor forward and leaves the rest of the loop's result unchanged |
| LogCursor.EventCursor.ParseObjectEvent | core/src/main/kotlin/ksl/animation/sim/events/ObjectEvent.kt:30-57 | computes ObjectEventSpec, including the ids recorded in the log |
| LogCursor.EventCursor.ParseQueueEvent | core/src/main/kotlin/ksl/animation/sim/events/QueueEvent.kt:24-38 | computes QueueEventSpec, including the ids recorded in the log |
| LogCursor.EventCursor.ParseResourceEvent | core/src/main/kotlin/ksl/animation/sim/events/ResourceEvent.kt:17-27 | computes ResourceEventSpec and records nothing |
| LogCursor.EventCursor.ParseVariableEvent | core/src/main/kotlin/ksl/animation/sim/events/VariableEvent.kt:18-30 | computes VariableEventSpec and records nothing |
| LogCursor.EventCursor.ParseMoveEvent | core/src/main/kotlin/ksl/animation/sim/events/MoveEvent.kt:23-52 | computes MoveEventSpec, including the id recorded in the log |
| LogCursor.EventCursor.ParseAnimationEvent | core/src/main/kotlin/ksl/animation/sim/events/AnimationEvent.kt:12-26 | computes AnimationEventSpec, setting the log's start or end time |
| LogLoading.WithDuration | core/src/main/kotlin/ksl/animation/sim/KSLAnimationLog.kt:41 | setting a MOVE's duration keeps its time and object |
| LogLoading.NextInvolving | core/src/main/kotlin/ksl/animation/sim/KSLAnimationLog.kt:37-45 | a found index lies in the range and involves the id |
| LogLoading.LastInvolving | core/src/main/kotlin/ksl/animation/sim/KSLAnimationLog.kt:40 | lastEvent[id]: a found index lies below the bound and involves the id |
| LogLoading.BackFilled | core/src/main/kotlin/ksl/animation/sim/KSLAnimationLog.kt:34-46 | the back-fill keeps the number of events |
| LogLoading.LineWithoutSeparator | core/src/main/kotlin/ksl/animation/sim/KSLAnimationLog.kt:53-54 | a line without ": " yields no event and records nothing |
| LogLoading.LineSplitAtFirstSeparator | core/src/main/kotlin/ksl/animation/sim/KSLAnimationLog.kt:53-57 | the line is cut at its first ": "; a non-numeric time drops it, otherwise the rest split at spaces goes to the candidates |
| LogLoading.DoubledSpaceGivesEmptyToken | core/src/main/kotlin/ksl/animation/sim/KSLAnimationLog.kt:57 | split(" ") keeps empty tokens: two spaces give an empty token between the words |
| LogLoading.CandidatesByKeyword | core/src/main/kotlin/ksl/animation/sim/KSLAnimationLog.kt:59-65 | the first token picks the grammar: OBJECT, QUEUE, RESOURCE, MOVE, START/STOP; any other first token (VARIABLE included) yields no event |
| LogLoading.LinesSpecSnoc | core/src/main/kotlin/ksl/animation/sim/KSLAnimationLog.kt:27-28 | one more line extends a load that has not thrown by that line's outcome |
| LogLoading.DroppedLineKeepsEvents | core/src/main/kotlin/ksl/animation/sim/KSLAnimationLog.kt:28 | a line yielding no event leaves the loaded events as they were |
| LogLoading.ErrorAbortsLoad | core/src/main/kotlin/ksl/animation/sim/KSLAnimationLog.kt:27-30 | once a line has thrown, no later line changes the outcome or the recorded ids |
| LogLoading.ParsedDurationsZero | core/src/main/kotlin/ksl/animation/sim/events/MoveEvent.kt:20 | a parsed event has a well-formed duration, zero for a MOVE |
| LogLoading.MoveParsedWithoutDuration | core/src/main/kotlin/ksl/animation/sim/events/MoveEvent.kt:20 | a parsed MOVE carries duration 0.0 |
| LogLoading.LoadedDurationsZero | core/src/main/kotlin/ksl/animation/sim/KSLAnimationLog.kt:27-28 | every event of a successful load has duration 0.0 before the back-fill |
| LogLoading.CandidatesKeepIdsDistinct | core/src/main/kotlin/ksl/animation/sim/KSLLogEvent.kt:27-32 | the recorded object ids stay free of duplicates after a line |
| LogLoading.LinesKeepIdsDistinct | core/src/main/kotlin/ksl/animation/sim/KSLAnimationLog.kt:27-28 | ... and after a whole load |
| LogLoading.InsertByTimePermutes | core/src/main/kotlin/ksl/animation/sim/KSLAnimationLog.kt:29 | inserting adds exactly that event |
| LogLoading.InsertByTimeSorted | core/src/main/kotlin/ksl/animation/sim/KSLAnimationLog.kt:29 | inserting into sorted events keeps them sorted |
| LogLoading.SortByTimeSorts | core/src/main/kotlin/ksl/animation/sim/KSLAnimationLog.kt:29 | sortedBy { time } orders by time and is a permutation |
| LogLoading.SortByTimeStable | core/src/main/kotlin/ksl/animation/sim/KSLAnimationLog.kt:29 | the sort is stable: the events at any one time keep their log order |
| LogLoading.SortKeepsDurations | core/src/main/kotlin/ksl/animation/sim/KSLAnimationLog.kt:29 | sorting keeps every duration well formed |
| LogLoading.NextInvolvingNone | core/src/main/kotlin/ksl/animation/sim/KSLAnimationLog.kt:37-38 | no index is found exactly when no event in the range involves the id; a found one is the first |
| LogLoading.LastInvolvingNone | core/src/main/kotlin/ksl/animation/sim/KSLAnimationLog.kt:39-40 | no previous event exactly when none below the bound involves the id; a found one is the last |
| LogLoading.BackFilledMove | core/src/main/kotlin/ksl/animation/sim/KSLAnimationLog.kt:39-43 | a MOVE of a recorded object lasts until the next event involving that object |
| LogLoading.BackFilledLastMove | core/src/main/kotlin/ksl/animation/sim/KSLAnimationLog.kt:39-43 | a MOVE with no later event for its object keeps its duration |
| LogLoading.BackFilledShape | core/src/main/kotlin/ksl/animation/sim/KSLAnimationLog.kt:34-46 | only durations of MOVEs of recorded objects change |
| LogLoading.BackFilledDurationsOk | core/src/main/kotlin/ksl/animation/sim/KSLAnimationLog.kt:29-46 | on sorted events every filled duration is non-negative |
| LogLoading.AnimationMarkEndsMoves | core/src/main/kotlin/ksl/animation/sim/events/AnimationEvent.kt:30-32 | a START or STOP involves every object, so it ends the preceding MOVE of each |
| LogLoading.FillStep | core/src/main/kotlin/ksl/animation/sim/KSLAnimationLog.kt:38-44 | looking at one event in an id's pass changes at most the last MOVE of that id |
| AnimationLogLoad.LoadLog | core/src/main/kotlin/ksl/animation/sim/KSLAnimationLog.kt:25-50 | parse every line (the first exception aborts before anything is installed), stably sort by time, run the instant events, then back-fill the MOVE durations; the ids stay distinct and every duration ends non-negative |
| AnimationLogLoad.InstallLog | core/src/main/kotlin/ksl/animation/sim/KSLAnimationLog.kt:29-46 | installs the sorted events, runs the instant events on the viewer, and back-fills unless they threw |
| LinkedMaps.Get | core/src/main/kotlin/ksl/animation/sim/KSLQueue.kt:15 | a lookup in an insertion-ordered map finds a value exactly when the key is present, and the value stored with it |
| LinkedMaps.Put | core/src/main/kotlin/ksl/animation/sim/KSLQueue.kt:17-19 | `m[k] = v` keeps a present key in its place with the new value, and appends a new key last |
| LinkedMaps.Remove | core/src/main/kotlin/ksl/animation/sim/KSLQueue.kt:21-23 | `m.remove(k)` drops exactly the key's entry and keeps the others in order |
| LinkedMaps.AddToSet | core/src/main/kotlin/ksl/animation/sim/KSLLogEvent.kt:27-32 | adding to an insertion-ordered set appends a new element and leaves a present one where it is |
| LinkedMaps.GetOfPut | core/src/main/kotlin/ksl/animation/sim/KSLQueue.kt:17-19 | after a put the key reads back the new value and every other key its old one |
| LinkedMaps.GetOfRemove | core/src/main/kotlin/ksl/animation/sim/KSLQueue.kt:21-23 | after a removal the key is absent and every other key reads as before |
| LinkedMaps.PutKeepsValid | core/src/main/kotlin/ksl/animation/sim/KSLQueue.kt:17-19 | a put keeps the keys distinct |
| LinkedMaps.RemoveKeepsValid | core/src/main/kotlin/ksl/animation/sim/KSLQueue.kt:21-23 | a removal keeps the keys distinct |
| AnimationLogLoad.StartLog | core/src/main/kotlin/ksl/animation/sim/KSLAnimationLog.kt:27-32 | installs the events sorted by time and runs exactly the instant events on the viewer |
| Viewer.AnimationViewer.LoadLookups | core/src/main/kotlin/ksl/animation/viewer/AnimationViewer.kt:44-59 | images gain the ids whose data decodes, object types gain every type entry, the last entry of an id winning |
| Viewer.AnimationViewer.LoadPlaces | core/src/main/kotlin/ksl/animation/viewer/AnimationViewer.kt:61-74 | objects, stations and queues gain their entries, the last entry of an id winning |
| Viewer.AnimationViewer.LoadRegistries | core/src/main/kotlin/ksl/animation/viewer/AnimationViewer.kt:61-79 | the places, then the resources; a resource without a default state stops the load there |
| Viewer.AnimationViewer.LoadResource | core/src/main/kotlin/ksl/animation/viewer/AnimationViewer.kt:77-79 | one resource entry is stored exactly when its states have a default, with current state "idle"; otherwise "No default state found" and nothing stored |
| Viewer.AnimationViewer.NewQueue | core/src/main/kotlin/ksl/animation/viewer/AnimationViewer.kt:72-74 | a queue entry becomes a new, empty queue under its id, nothing else changing |
| Viewer.AnimationViewer.PutObject | core/src/main/kotlin/ksl/animation/sim/events/ObjectEvent.kt:65-66 | the registry half of an ADD: the object goes in under its own id |
| Viewer.AnimationViewer.Tick | core/src/main/kotlin/ksl/animation/viewer/AnimationViewer.kt:102-109 | tick k of the loop runs the events due by it from where the previous ticks left the cursor |
| History.OperationsKeepValid | core/src/main/kotlin/ksl/animation/common/AnimationScene.kt:47-202 | a fresh history and applyChange, undo, redo and resetScene all keep the pointer non-negative with a stored change in every slot below it (and below redoPointer while redo is possible) |
| History.MovesFindChanges | core/src/main/kotlin/ksl/animation/common/AnimationScene.kt:182-202 | an undo or redo that moves the pointer always finds a stored change; redo moves exactly while canRedo and pointer < redoPointer |
| History.UndoAtStart | core/src/main/kotlin/ksl/animation/common/AnimationScene.kt:183-186 | undo at pointer 0 leaves the history as it is and runs nothing |
| History.ApplyThenUndo | core/src/main/kotlin/ksl/animation/common/AnimationScene.kt:175-192 | undo right after applying c undoes c, returns the pointer and enables redo up to the slot of c |
| History.ApplyDisablesRedo | core/src/main/kotlin/ksl/animation/common/AnimationScene.kt:179-196 | right after an apply, redo does nothing |
| History.UndoThenRedo | core/src/main/kotlin/ksl/animation/common/AnimationScene.kt:182-202 | redo right after an undo redoes the undone change and puts the pointer back |
| History.ResetForgetsMoves | core/src/main/kotlin/ksl/animation/common/AnimationScene.kt:104-105 | after resetScene the changes are still stored but neither undo nor redo does anything |
| History.Undos | core/src/main/kotlin/ksl/animation/common/AnimationScene.kt:182-193 | k undos in a row yield k outcomes |
| History.Redos | core/src/main/kotlin/ksl/animation/common/AnimationScene.kt:195-202 | k redos in a row yield k outcomes |
| History.UndosWalkBack | core/src/main/kotlin/ksl/animation/common/AnimationScene.kt:182-193 | k undos walk the pointer back by k and undo the stored changes newest first |
| History.RedosWalkForward | core/src/main/kotlin/ksl/animation/common/AnimationScene.kt:195-202 | k redos within redoPointer walk the pointer forward by k and redo the stored changes oldest first |
| History.UndosThenRedos | core/src/main/kotlin/ksl/animation/common/AnimationScene.kt:182-202 | k undos then k redos restore the pointer and redo exactly the undone changes in reverse order |
| History.RedosAfterApply | core/src/main/kotlin/ksl/animation/common/AnimationScene.kt:175-202 | after an apply no number of redos changes anything |
| AnimationScenes.NewDefaultQueue | core/src/main/kotlin/ksl/animation/builder/changes/AddRenderableChange.kt:27 | AddQueue's queue: from (-1, 0) to (1, 0), scale 1, empty, placed at its midpoint |
| AnimationScenes.AnimationScene.constructor | core/src/main/kotlin/ksl/animation/common/AnimationScene.kt:23-52 | a new scene has empty registries and history, is centred in the viewport, with screenUnit 0 until resize |
| AnimationScenes.AnimationScene.Resize | core/src/main/kotlin/ksl/animation/common/AnimationScene.kt:204-211 | twenty world units span the viewport width |
| AnimationScenes.AnimationScene.ResetScene | core/src/main/kotlin/ksl/animation/common/AnimationScene.kt:93-106 | empties images, object types and all registries; undo and redo are disabled though the changes stay stored |
| AnimationScenes.AnimationScene.ClearRegistries | core/src/main/kotlin/ksl/animation/common/AnimationScene.kt:96-102 | the six registries become empty |
| AnimationScenes.AnimationScene.RewindHistory | core/src/main/kotlin/ksl/animation/common/AnimationScene.kt:104-105 | the history becomes History.Reset of the old one and stays valid |
| AnimationScenes.AnimationScene.AddRenderable | core/src/main/kotlin/ksl/animation/common/AnimationScene.kt:116-139 | the entity goes under its current id into its own registry and renderables, overwriting |
| AnimationScenes.AnimationScene.Unregister | core/src/main/kotlin/ksl/animation/builder/changes/RemoveRenderableChange.kt:8-11 | `<registry>.remove(id); renderables.remove(id)` is exactly Drop |
| AnimationScenes.AnimationScene.SetQueueEnds | core/src/main/kotlin/ksl/animation/builder/changes/MoveQueueChange.kt:15-23 | the queue registered under the id, if any, gets both endpoints |
| AnimationScenes.AnimationScene.SetQueueStart | core/src/main/kotlin/ksl/animation/builder/changes/MoveStationChange.kt:9-15 | the queue registered under the station's id, if any, gets its start point (the code looks the id up among the queues) |
| AnimationScenes.AnimationScene.SetResourcePosition | core/src/main/kotlin/ksl/animation/builder/changes/MoveResourceChange.kt:13-19 | the resource registered under the id, if any, is moved |
| AnimationScenes.AnimationScene.SetVariableGeometry | core/src/main/kotlin/ksl/animation/builder/changes/MoveAndResizeVariableChange.kt:15-25 | the variable registered under the id, if any, gets the position and size |
| AnimationScenes.AnimationScene.SetGeometry | core/src/main/kotlin/ksl/animation/builder/changes/MoveAndResizeObjectChange.kt:15-37 | the geometry is written wherever the id is found |
| AnimationScenes.AnimationScene.AddDefaultObject | core/src/main/kotlin/ksl/animation/builder/changes/AddRenderableChange.kt:11-13 | a fresh object at (0, 0) of type "default_object_type" is added under the id |
| AnimationScenes.AnimationScene.AddDefaultQueue | core/src/main/kotlin/ksl/animation/builder/changes/AddRenderableChange.kt:26-28 | a fresh default queue is added under the id |
| AnimationScenes.AnimationScene.AddDefaultResource | core/src/main/kotlin/ksl/animation/builder/changes/AddRenderableChange.kt:41-45 | a fresh resource with the one default state "default_state" is added under the id |
| AnimationScenes.AnimationScene.AddDefaultStation | core/src/main/kotlin/ksl/animation/builder/changes/AddRenderableChange.kt:60-62 | a fresh station at the origin is added under the id |
| AnimationScenes.AnimationScene.AddDefaultVariable | core/src/main/kotlin/ksl/animation/builder/changes/AddRenderableChange.kt:75-77 | a fresh variable at (-1, 0), 2 by 1, showing "Variable", is added under the id |
| AnimationScenes.AnimationScene.AddQueueCopy | core/src/main/kotlin/ksl/animation/builder/changes/CopyRenderableChange.kt:12-14 | a copy one unit down with the same scale is added under id + "_copy" |
| AnimationScenes.AnimationScene.AddResourceCopy | core/src/main/kotlin/ksl/animation/builder/changes/CopyRenderableChange.kt:27-29 | a copy one unit down sharing the state list is added under id + "_copy", or the constructor throws when no state is default and nothing changes |
| AnimationScenes.AnimationScene.AddStationCopy | core/src/main/kotlin/ksl/animation/builder/changes/CopyRenderableChange.kt:42-44 | a copy at the same position is added under id + "_copy" |
| AnimationScenes.AnimationScene.AddVariableCopy | core/src/main/kotlin/ksl/animation/builder/changes/CopyRenderableChange.kt:57-59 | a copy with the same geometry and settings, showing its default value, is added under id + "_copy" |
| AnimationScenes.AnimationScene.RunAdd | core/src/main/kotlin/ksl/animation/builder/changes/AddRenderableChange.kt:10-87 | an add's apply (and redo) registers its new default entity |
| AnimationScenes.AnimationScene.RunCopy | core/src/main/kotlin/ksl/animation/builder/changes/CopyRenderableChange.kt:11-69 | a copy's apply (and redo) registers its copy or throws, the history being stored only on success |
| AnimationScenes.AnimationScene.RunRemove | core/src/main/kotlin/ksl/animation/builder/changes/RemoveRenderableChange.kt:7-80 | a removal's apply drops the entity's current id from its registry (RemoveObject: from the queues) and from renderables |
| AnimationScenes.AnimationScene.RunRestore | core/src/main/kotlin/ksl/animation/builder/changes/RemoveRenderableChange.kt:13-19 | a removal's undo and redo add the entity back under its current id |
| AnimationScenes.AnimationScene.RunUnregister | core/src/main/kotlin/ksl/animation/builder/changes/AddRenderableChange.kt:19-22 | an add's or copy's undo removes its id again (AddObject's from the queues) |
| AnimationScenes.AnimationScene.WriteSettings | core/src/main/kotlin/ksl/animation/builder/changes/EditRenderableChange.kt:16-116 | a settings edit writes its new settings, or with back its previous ones; the object edit writes nothing |
| AnimationScenes.AnimationScene.WriteGeometry | core/src/main/kotlin/ksl/animation/builder/changes/MoveQueueChange.kt:7-25 | a move writes its new geometry, or with back its old one |
| AnimationScenes.AnimationScene.RunApply | core/src/main/kotlin/ksl/animation/common/AnimationChange.kt:4 | what change.apply() does for each change class; the moves and the object edit do nothing |
| AnimationScenes.AnimationScene.RunUndo | core/src/main/kotlin/ksl/animation/common/AnimationChange.kt:5 | what change.undo() does for each change class |
| AnimationScenes.AnimationScene.RunRedo | core/src/main/kotlin/ksl/animation/common/AnimationChange.kt:6 | what change.redo() does: a removal's redo is its undo, a move's writes the new geometry, others repeat apply |
| AnimationScenes.AnimationScene.ApplyChange | core/src/main/kotlin/ksl/animation/common/AnimationScene.kt:175-180 | runs apply, then stores the change at the pointer, advances it and disables redo; when apply throws nothing is stored |
| AnimationScenes.AnimationScene.Undo | core/src/main/kotlin/ksl/animation/common/AnimationScene.kt:182-193 | at pointer 0 nothing happens; otherwise the pointer steps back and the stored change is undone |
| AnimationScenes.AnimationScene.Redo | core/src/main/kotlin/ksl/animation/common/AnimationScene.kt:195-202 | while redo is possible the change at the pointer is redone and the pointer advances; otherwise nothing |
| AnimationScenes.AnimationScene.ObjectMouseUp | core/src/main/kotlin/ksl/animation/common/renderables/KSLResizable.kt:165-177 | with a point held: one last drag, then a MoveAndResizeObjectChange from the drag start to the new geometry is applied and the drag dropped; without one nothing |
| AnimationScenes.AnimationScene.VariableMouseUp | core/src/main/kotlin/ksl/animation/common/renderables/KSLVariable.kt:315-327 | the same for a variable, with a MoveAndResizeVariableChange |
| AnimationScenes.AnimationScene.QueueMouseUp | core/src/main/kotlin/ksl/animation/common/renderables/KSLQueue.kt:124-127 | every release applies a MoveQueueChange from the endpoints saved at the press, and clears the selection |
| AnimationScenes.AnimationScene.ResourceMouseUp | core/src/main/kotlin/ksl/animation/common/renderables/KSLResource.kt:112-127 | ending a drag applies a MoveResourceChange from the position at the press; no drag, no change |
| AnimationScenes.AnimationScene.ObjectCloseEditor | core/src/main/kotlin/ksl/animation/common/renderables/KSLObject.kt:87-95 | a typed id differing from the object's records an object-settings change; otherwise nothing |
| EditorEntities.FindClickPoint | core/src/main/kotlin/ksl/animation/common/renderables/KSLResizable.kt:143-163 | the loop over the click points returns the first one within reach of the mouse, in map order, or none |
| EditorEntities.EditorStep | core/src/main/kotlin/ksl/animation/common/renderables/KSLObject.kt:103-115 | an editor step of INSTANT always jumps to the end and reports finished |
| EditorEntities.EditorAndReplayAgree | core/src/main/kotlin/ksl/animation/common/renderables/KSLObject.kt:103-115 | the editor's applyMovement and the replay's put the object at the same point on every step and fail on the same jobs |
| EditorEntities.DrawOutcome | core/src/main/kotlin/ksl/animation/common/renderables/KSLObject.kt:38-57 | drawing fails exactly when the object type or its image is missing, with "Base object … is not found" or the image's message |
| EditorEntities.SceneObject.constructor | core/src/main/kotlin/ksl/animation/common/renderables/KSLObject.kt:15-23 | a new object has the given id, position, type and size, is not in a queue and holds no drag |
| EditorEntities.SceneObject.FromEntry | core/src/main/kotlin/ksl/animation/common/renderables/KSLObject.kt:24 | the object built from a setup entry serialises back to exactly that entry |
| EditorEntities.SceneObject.Serialize | core/src/main/kotlin/ksl/animation/common/renderables/KSLObject.kt:27-35 | the setup entry carries the object's id, type, position and size |
| EditorEntities.SceneObject.Render | core/src/main/kotlin/ksl/animation/common/renderables/KSLObject.kt:97-101 | an object in a queue draws nothing here; otherwise drawing succeeds exactly as DrawOutcome says |
| EditorEntities.SceneObject.ApplyMovement | core/src/main/kotlin/ksl/animation/common/renderables/KSLObject.kt:103-115 | one editor step: position and the finished flag are EditorStep's, and a failure leaves the position alone |
| EditorEntities.SceneObject.RecalculateClickPoints | core/src/main/kotlin/ksl/animation/common/renderables/KSLResizable.kt:44-55 | the click points become the eight handles of the current rectangle |
| EditorEntities.SceneObject.HandleDraggedPoint | core/src/main/kotlin/ksl/animation/common/renderables/KSLResizable.kt:106-141 | the rectangle becomes Geometry.HandleDraggedPoint of the old one, the held point and the new position |
| EditorEntities.SceneObject.OnMouseDown | core/src/main/kotlin/ksl/animation/common/renderables/KSLResizable.kt:143-163 | the click points are recomputed and the first one hit is held with the drag start; the press is reported exactly when one is hit |
| EditorEntities.SceneObject.OnMouseMove | core/src/main/kotlin/ksl/animation/common/renderables/KSLResizable.kt:179-181 | the held point is dragged to the mouse in world coordinates |
| EditorEntities.SceneQueue.constructor | core/src/main/kotlin/ksl/animation/common/renderables/KSLQueue.kt:24-25 | a new queue has the given endpoints and scale, sits at their midpoint and holds no objects |
| EditorEntities.SceneQueue.Serialize | core/src/main/kotlin/ksl/animation/common/renderables/KSLQueue.kt:27-34 | the setup entry carries the id, the endpoints and the scale |
| EditorEntities.SceneQueue.AddObject | core/src/main/kotlin/ksl/animation/common/renderables/KSLQueue.kt:48-51 | the object goes into the ordered member map under its id and is now drawn by the queue |
| EditorEntities.SceneQueue.RemoveObject | core/src/main/kotlin/ksl/animation/common/renderables/KSLQueue.kt:53-56 | the object's id leaves the member map and the object draws itself again |
| EditorEntities.SceneQueue.OnMouseDown | core/src/main/kotlin/ksl/animation/common/renderables/KSLQueue.kt:88-122 | the endpoints are saved for the release; a press near an endpoint selects it, one near the line selects the whole queue with its grip offset |
| EditorEntities.SceneQueue.OnMouseMove | core/src/main/kotlin/ksl/animation/common/renderables/KSLQueue.kt:129-144 | the selected endpoint, or the whole line, follows the (possibly snapped) world mouse |
| EditorEntities.SceneQueue.RefreshMidpoint | core/src/main/kotlin/ksl/animation/common/renderables/KSLQueue.kt:146-150 | the queue's position becomes the midpoint of its endpoints |
| EditorEntities.PressedEndpointUnderMouse | core/src/main/kotlin/ksl/animation/common/renderables/KSLQueue.kt:88-122 | converting the mouse to world coordinates and back gives the mouse again, so a grabbed endpoint sits exactly under it |
| EditorEntities.SceneResource.Init | core/src/main/kotlin/ksl/animation/common/renderables/KSLResource.kt:13-21 | a new resource has the given id, position, states and size, is not dragging and remembers its position |
| EditorEntities.SceneResource.Create | core/src/main/kotlin/ksl/animation/common/renderables/KSLResource.kt:13-21 | construction fails exactly when no state is default, with "No default state found"; otherwise the current state is the first default's name |
| EditorEntities.SceneResource.SetState | core/src/main/kotlin/ksl/animation/common/renderables/KSLResource.kt:60-62 | any string becomes the current state |
| EditorEntities.SceneResource.OnMouseDown | core/src/main/kotlin/ksl/animation/common/renderables/KSLResource.kt:91-100 | a press is taken exactly for the left button inside the box; it starts a drag remembering the position and the grip offset |
| EditorEntities.SceneResource.OnMouseMove | core/src/main/kotlin/ksl/animation/common/renderables/KSLResource.kt:102-110 | while dragging the resource keeps its grip under the (possibly snapped) mouse; otherwise it stays |
| EditorEntities.SceneStation.constructor | core/src/main/kotlin/ksl/animation/common/renderables/KSLStation.kt:18 | a new station has the given id and position |
| EditorEntities.SceneStation.Serialize | core/src/main/kotlin/ksl/animation/common/renderables/KSLStation.kt:22-27 | the setup entry carries the id and position |
| EditorEntities.SceneVariable.constructor | core/src/main/kotlin/ksl/animation/common/renderables/KSLVariable.kt:30-58 | a new variable has the given geometry and settings, shows its default value and holds no drag |
| EditorEntities.SceneVariable.FromEntry | core/src/main/kotlin/ksl/animation/common/renderables/KSLVariable.kt:40-54 | built from a setup entry: fails exactly when the colour text does not decode, otherwise carries the entry's fields and the decoded colour |
| EditorEntities.SceneVariable.Serialize | core/src/main/kotlin/ksl/animation/common/renderables/KSLVariable.kt:60-76 | the entry carries the geometry and settings, the current value as default value, and the colour as "#" plus hex digits of its packed RGBA |
| EditorEntities.SceneVariable.SetValue | core/src/main/kotlin/ksl/animation/common/renderables/KSLVariable.kt:167-169 | the text is stored as it is |
| EditorEntities.SceneVariable.SetValueNumber | core/src/main/kotlin/ksl/animation/common/renderables/KSLVariable.kt:170-174 | the number is stored formatted to the variable's precision |
| EditorEntities.SceneVariable.RecalculateClickPoints | core/src/main/kotlin/ksl/animation/common/renderables/KSLVariable.kt:148-159 | the click points become the eight handles of the current box |
| EditorEntities.SceneVariable.HandleDraggedPoint | core/src/main/kotlin/ksl/animation/common/renderables/KSLVariable.kt:257-292 | the box becomes Geometry.HandleDraggedPoint of the old one |
| EditorEntities.SceneVariable.OnMouseDown | core/src/main/kotlin/ksl/animation/common/renderables/KSLVariable.kt:293-313 | as for an object: recompute the click points and hold the first one hit |
| EditorEntities.SceneVariable.OnMouseMove | core/src/main/kotlin/ksl/animation/common/renderables/KSLVariable.kt:329-331 | the held point is dragged to the mouse |
| SceneChanges.Entry | core/src/main/kotlin/ksl/animation/common/AnimationScene.kt:28-32 | an entry found in typed registry k is of class k |
| SceneChanges.EqualByEntries | core/src/main/kotlin/ksl/animation/common/AnimationScene.kt:28-33 | two sets of registries are equal when all their entries and drawables agree |
| SceneChanges.PutEntries | core/src/main/kotlin/ksl/animation/common/AnimationScene.kt:116-139 | addRenderable stores the entity under the id in its own registry and in renderables and changes no other entry |
| SceneChanges.DropEntries | core/src/main/kotlin/ksl/animation/builder/changes/RemoveRenderableChange.kt:8-11 | a removal empties that registry's entry and the drawable entry and changes no other entry |
| SceneChanges.PutThenDrop | core/src/main/kotlin/ksl/animation/builder/changes/AddRenderableChange.kt:10-87 | an add (or copy) undone from the entity's own registry leaves the registries as a plain removal would, and restores them exactly when the add overwrote nothing |
| SceneChanges.DropThenPut | core/src/main/kotlin/ksl/animation/builder/changes/RemoveRenderableChange.kt:7-80 | a removal undone adds the entity back as addRenderable would, and restores the registries exactly when it was registered under that id in both maps |
| SceneChanges.PutTwice | core/src/main/kotlin/ksl/animation/builder/changes/RemoveRenderableChange.kt:13-19 | adding the same entity twice is adding it once, so a removal's redo after its undo changes nothing more |
| SceneChanges.AddObjectUndoLeavesObject | core/src/main/kotlin/ksl/animation/builder/changes/AddRenderableChange.kt:19-22 | AddObject's undo removes the id from the queues: the new object stays in objects though it is no longer drawn, and a queue under the same id is lost |
| SceneChanges.RemoveObjectKeepsObject | core/src/main/kotlin/ksl/animation/builder/changes/RemoveRenderableChange.kt:8-11 | RemoveObject's apply removes the id from the queues: the object stays registered and only its drawable entry goes |
| SceneChanges.CopyKeepsOriginal | core/src/main/kotlin/ksl/animation/builder/changes/CopyRenderableChange.kt:11-69 | a copy is stored under id + "_copy", which is never id, so the original's entries are left as they were |
| Geometry.ValuesDistinct | core/src/main/kotlin/ksl/animation/common/renderables/KSLResizable.kt:19-31 | the nine drag points have nine different bit values |
| Geometry.SharesDirectionFacts | core/src/main/kotlin/ksl/animation/common/renderables/KSLResizable.kt:32-34 | sharesDirection is symmetric and reflexive, and CENTER shares only with itself |
| Geometry.CornerShares | core/src/main/kotlin/ksl/animation/common/renderables/KSLResizable.kt:19-34 | a corner shares a direction exactly with its two edges, itself and the corners on those edges |
| Geometry.ClickPoints | core/src/main/kotlin/ksl/animation/common/renderables/KSLResizable.kt:44-55 | there are nine click points |
| Geometry.ClickIndex | core/src/main/kotlin/ksl/animation/common/renderables/KSLResizable.kt:44-55 | each drag point has a place among the nine |
| Geometry.ClickPointsAreAnchors | core/src/main/kotlin/ksl/animation/common/renderables/KSLResizable.kt:44-55 | the click points are the corners, edge midpoints and centre, each drag point once at the point its bits name |
| Geometry.CenterRecentres | core/src/main/kotlin/ksl/animation/common/renderables/KSLResizable.kt:106-141 | dragging CENTER keeps the size and puts the centre on the new position |
| Geometry.DragFollowsMouse | core/src/main/kotlin/ksl/animation/common/renderables/KSLResizable.kt:106-141 | right after the press, dragging an edge or corner puts that point of the rectangle on the new position and keeps the opposite side fixed |
| Geometry.DragPathIndependent | core/src/main/kotlin/ksl/animation/common/renderables/KSLResizable.kt:106-141 | every move recomputes from the press, so only the last mouse position counts |
| Geometry.Round | core/src/main/kotlin/ksl/animation/common/renderables/KSLResizable.kt:106-141 | kotlin's round lands within one half of its argument, ties to even |
| Geometry.RoundOfInteger | core/src/main/kotlin/ksl/animation/common/renderables/KSLResizable.kt:106-141 | a grid coordinate rounds to itself |
| Geometry.SnapIdempotent | core/src/main/kotlin/ksl/animation/common/renderables/KSLResizable.kt:106-141 | snapping twice is snapping once |
| Geometry.HandleDraggedPoint | core/src/main/kotlin/ksl/animation/common/renderables/KSLResizable.kt:106-141 | with no point held nothing changes |
| Geometry.ClickHitIsCentred | core/src/main/kotlin/ksl/animation/common/renderables/KSLResizable.kt:143-163 | the hit test of a click point is a square of side clickPointSize·screenUnit centred on it on screen |
| Geometry.FirstHit | core/src/main/kotlin/ksl/animation/common/renderables/KSLResizable.kt:143-163 | the found click point is hit and no earlier one is |
| Geometry.QueueDragged | core/src/main/kotlin/ksl/animation/common/renderables/KSLQueue.kt:129-144 | START and END move their own endpoint to the mouse, BOTH moves the line keeping its shape, none moves nothing |
| Geometry.BothKeepsShape | core/src/main/kotlin/ksl/animation/common/renderables/KSLQueue.kt:88-144 | a BOTH drag keeps the line's length and direction and puts its midpoint under the grip |
| Geometry.ClosestParam | core/src/main/kotlin/ksl/animation/common/renderables/KSLResource.kt:43-58 | the clamped projection parameter lies in [0, 1] |
| Geometry.ClosestPointOnSegment | core/src/main/kotlin/ksl/animation/common/renderables/KSLResource.kt:43-58 | the closest point lies on the segment; a degenerate segment gives its start |
| Geometry.ClosestPointIsClosest | core/src/main/kotlin/ksl/animation/common/renderables/KSLResource.kt:43-58 | no point of the segment is nearer than the result |
| Geometry.GrabbedDrag | core/src/main/kotlin/ksl/animation/common/renderables/KSLResource.kt:91-110 | a resource dragged without snapping moves by exactly the mouse's move divided by screenUnit |
| Geometry.ScreenRoundTrip | core/src/main/kotlin/ksl/animation/common/AnimationScene.kt:108-114 | worldToScreen and screenToWorld are inverse to each other |
| Colors.DecodeColor | core/src/main/kotlin/ksl/animation/common/renderables/KSLVariable.kt:41-51 | fewer than six characters after trimming `#` throw IndexOutOfBounds before padEnd runs; otherwise the colour is Ok exactly when the six characters parse as hexadecimal, and it then has byte channels and full alpha |
| Colors.EncodeColor | core/src/main/kotlin/ksl/animation/common/renderables/KSLVariable.kt:61-75 | serialize writes `#` and hexadecimal digits whose value is the packed rounded channels |
| Colors.ChannelByte | core/src/main/kotlin/ksl/animation/common/renderables/KSLVariable.kt:62-64 | `(c*255 + 0.5).toInt()` is the nearest byte to the channel, halves rounded up |
| Colors.PackedColor | core/src/main/kotlin/ksl/animation/common/renderables/KSLVariable.kt:61-65 | the packed colour fits in 24 bits |
| Colors.ChannelByteOfByte | core/src/main/kotlin/ksl/animation/common/renderables/KSLVariable.kt:51-64 | a byte stored as byte/255 rounds back to the same byte |
| Colors.BytesOfPacked | core/src/main/kotlin/ksl/animation/common/renderables/KSLVariable.kt:47-49 | the masks and shifts recover the three bytes of a packed colour |
| Colors.HexLength | core/src/main/kotlin/ksl/animation/common/renderables/KSLVariable.kt:75 | `toString(16)` of a number below 16^k has at most k digits, and exactly k when it is at least 16^(k-1) |
| Colors.EncodeDecodeRoundTrip | core/src/main/kotlin/ksl/animation/common/renderables/KSLVariable.kt:40-75 | a byte colour written by serialize is read back unchanged exactly when its red byte is at least 0x10; below that the decode throws IndexOutOfBounds |
| Colors.DecodeSixDigits | core/src/main/kotlin/ksl/animation/common/renderables/KSLVariable.kt:41-51 | six digits of `toString(16)` after a `#` decode to the bytes of their value |
| Colors.DecodeFewDigits | core/src/main/kotlin/ksl/animation/common/renderables/KSLVariable.kt:41-44 | one to five hexadecimal digits after a `#` make the decode throw |
| Colors.DecodeEncodeRoundTrip | core/src/main/kotlin/ksl/animation/common/renderables/KSLVariable.kt:40-75 | six lower-case digits without a leading zero are decoded and written back unchanged |
| Colors.PackedOfBytes | core/src/main/kotlin/ksl/animation/common/renderables/KSLVariable.kt:47-65 | packing the decoded bytes of a 24-bit number gives the number back |
| Colors.EncodeColorPadded | core/src/main/kotlin/ksl/animation/common/renderables/KSLVariable.kt:75 | the corrected serialize writes `#` and exactly six digits holding the packed colour |
| Colors.DecodeHexDigits | core/src/main/kotlin/ksl/animation/common/renderables/KSLVariable.kt:41-51 | any six hexadecimal digits after a `#` decode to the bytes of their value |
| Colors.PaddedRoundTrip | core/src/main/kotlin/ksl/animation/common/renderables/KSLVariable.kt:40-75 | with the zero-padded encoding every byte colour round-trips, whatever its red byte |
| LegacyParser.EntityAt | parser.kt:43-49 | reading an entity succeeds exactly when the word "Entity" and two more words are there; it yields Entity(type, id) and moves three words on |
| LegacyParser.ObjectAt | parser.kt:69-75 | an object is an entity when the next word is "Entity", otherwise the single word as a unique object; it fails only when words run out |
| LegacyParser.TimeAt | parser.kt:79-84 | "at tick <n>" succeeds exactly when both keywords match and n parses as a Long, and yields n three words on |
| LegacyParser.CellAt | parser.kt:93-98 | the optional cell gives both column and row or neither, and gives them exactly when the next word is "at" |
| LegacyParser.ChangeVariableAt | parser.kt:89-104 | a Change Variable line yields a variable change whose column and row are both present or both absent |
| LegacyParser.ChangeImageAt | parser.kt:117-126 | a Change Image line yields an image change |
| LegacyParser.ChangeAt | parser.kt:134-141 | a Change line is a variable change exactly when its second word is "Variable", otherwise an image change |
| LegacyParser.PushAt | parser.kt:147-155 | a Push line yields a push command |
| LegacyParser.PopAt | parser.kt:163-172 | a Pop line yields a pop command |
| LegacyParser.AddResourceAt | parser.kt:180-189 | an Add line yields an add-resource command |
| LegacyParser.PickupAt | parser.kt:197-205 | a Pickup line yields a pickup command |
| LegacyParser.DropoffAt | parser.kt:213-221 | a Dropoff line yields a dropoff command |
| LegacyParser.MoveAt | parser.kt:229-240 | a Move line yields a move command with a Long duration |
| LegacyParser.DespawnAt | parser.kt:248-254 | a Despawn line yields a despawn command |
| LegacyParser.CommandAt | parser.kt:262-276 | an unknown first word is an IllegalArgumentException; a parsed command's keyword is the line's first word |
| LegacyParser.Tokens.constructor | parser.kt:1-3 | the cursor holds the line split at single spaces and stands at the first word |
| LegacyParser.Tokens.Next | parser.kt:5-7 | next returns the current word (out of bounds past the end) and always advances the index by one |
| LegacyParser.Tokens.Peek | parser.kt:8-10 | peek returns the word offset places ahead and leaves the index |
| LegacyParser.Tokens.AssertNext | parser.kt:11-16 | assertNext consumes one word and fails with "Expected ... got ..." when it differs |
| LegacyParser.Tokens.CheckNext | parser.kt:17-24 | checkNext advances exactly when the next word matches and reports whether it did |
| LegacyParser.Tokens.AssertPeek | parser.kt:25-30 | assertPeek fails when the word ahead differs and never moves the index |
| LegacyParser.Tokens.CheckPeek | parser.kt:31-37 | checkPeek reports whether the word ahead matches and never moves the index |
| LegacyParser.EntityFromString | parser.kt:43-49 | the cursor-based entity reader agrees with EntityAt on result and final index |
| LegacyParser.UniqueFromString | parser.kt:57-61 | the cursor-based unique reader agrees with UniqueAt |
| LegacyParser.ObjectFromString | parser.kt:69-75 | the cursor-based object reader agrees with ObjectAt |
| LegacyParser.ParseTime | parser.kt:79-84 | the cursor-based time reader agrees with TimeAt |
| LegacyParser.ChangeVariableFromString | parser.kt:89-104 | the cursor-based Change Variable reader agrees with ChangeVariableAt |
| LegacyParser.ChangeImageFromString | parser.kt:117-126 | the cursor-based Change Image reader agrees with ChangeImageAt |
| LegacyParser.ChangeFromString | parser.kt:134-141 | the cursor-based Change reader agrees with ChangeAt |
| LegacyParser.PushFromString | parser.kt:147-155 | the cursor-based Push reader agrees with PushAt |
| LegacyParser.PopFromString | parser.kt:163-172 | the cursor-based Pop reader agrees with PopAt |
| LegacyParser.AddResourceFromString | parser.kt:180-189 | the cursor-based Add Resource reader agrees with AddResourceAt |
| LegacyParser.PickupFromString | parser.kt:197-205 | the cursor-based Pickup reader agrees with PickupAt |
| LegacyParser.DropoffFromString | parser.kt:213-221 | the cursor-based Dropoff reader agrees with DropoffAt |
| LegacyParser.MoveFromString | parser.kt:229-240 | the cursor-based Move reader agrees with MoveAt |
| LegacyParser.DespawnFromString | parser.kt:248-254 | the cursor-based Despawn reader agrees with DespawnAt |
| LegacyParser.CommandFromString | parser.kt:262-276 | parsing a line with a fresh cursor gives the same result as the pure reader over its words |
| LegacyParser.CommandText | parser.kt:106-113 | printing fails ("This shouldn't be possible!") exactly for a variable change with a column and no row |
| LegacyParser.NumberIsWord | parser.kt:109 | a printed number holds no space |
| LegacyParser.ObjectAtWords | parser.kt:51-75 | an object's printed words are read back as the same object |
| LegacyParser.TimeAtWords | parser.kt:79-84 | "at tick <time>" printed from a Long is read back as the time |
| LegacyParser.CellAtWords | parser.kt:89-109 | a printed variable change with a cell is read back with the same cell, value and time |
| LegacyParser.NoCellAtWords | parser.kt:89-111 | a printed variable change without a cell is read back without one |
| LegacyParser.Dispatch | parser.kt:134-141 | the first word (and for Change the second) selects exactly the reader the source's `when` selects |
| LegacyParser.ChangeVariableReadBack | parser.kt:87-113 | a well-formed variable change prints to space-free words that read back as itself |
| LegacyParser.ChangeImageReadBack | parser.kt:115-130 | a well-formed image change prints to words that read back as itself |
| LegacyParser.PushQueueStackReadBack | parser.kt:145-159 | a well-formed push prints to words that read back as itself |
| LegacyParser.PopQueueStackReadBack | parser.kt:161-176 | a well-formed pop prints to words that read back as itself |
| LegacyParser.AddResourceReadBack | parser.kt:178-193 | a well-formed add-resource prints to words that read back as itself |
| LegacyParser.PickupEntityReadBack | parser.kt:195-209 | a well-formed pickup prints to words that read back as itself |
| LegacyParser.DropoffEntityReadBack | parser.kt:211-225 | a well-formed dropoff prints to words that read back as itself |
| LegacyParser.MoveReadBack | parser.kt:227-244 | a well-formed move prints to words that read back as itself |
| LegacyParser.DespawnReadBack | parser.kt:246-258 | a well-formed despawn prints to words that read back as itself |
| LegacyParser.ReadBack | parser.kt:85-278 | every well-formed command prints to at least two space-free words that the dispatching reader reads back as the command |
| LegacyParser.ParsePrintRoundTrip | parser.kt:262-291 | for every well-formed command, parsing its printed text gives the command back |
| LegacyParser.TestLineOfText | parser.kt:281-291 | a well-formed command's own text passes testLine |
| LegacyParser.RunTestsPasses | parser.kt:292-375 | a run of test lines each printed from its well-formed command ends without error |
| LegacyParser.MainLines | parser.kt:293-374 | the test lines of main are the sample words joined by single spaces, one per case |
| LegacyParser.SampleWords | parser.kt:293-374 | each of main's eleven expected commands is well-formed and prints as its line's words |
| LegacyParser.MainPasses | parser.kt:292-375 | main runs to completion: every sample line parses to its expected command and prints back to the line |
| LegacyElevator.FirstDifferent | MyGame/core/src/main/kotlin/ElevatorSimulation.kt:135-137 | the do-while retry loop stops at the first draw that differs from the start floor, every earlier draw being the start floor |
| LegacyElevator.DrawnBox | MyGame/core/src/main/kotlin/ElevatorSimulation.kt:132-140 | a drawn box starts at the drawn floor, targets a different floor of the building taken from the draws, and has the drawn colour with full alpha |
| LegacyElevator.PutBox | MyGame/core/src/main/kotlin/ElevatorSimulation.kt:143 | getOrPut(floor).add(box) appends the box to the list at that floor, creating it when absent, and leaves every other floor's list alone |
| LegacyElevator.DrawnBoxesStep | MyGame/core/src/main/kotlin/ElevatorSimulation.kt:42-44 | each further draw adds exactly its box to the boxes drawn so far |
| LegacyElevator.StepWithoutRequests | MyGame/core/src/main/kotlin/ElevatorSimulation.kt:148 | with an empty request queue processNextEvent changes nothing |
| LegacyElevator.StepMovesTowardHead | MyGame/core/src/main/kotlin/ElevatorSimulation.kt:153-155 | away from the head request's floor the elevator moves one floor closer to it and nothing else changes |
| LegacyElevator.HeadServedAfterDistance | MyGame/core/src/main/kotlin/ElevatorSimulation.kt:147-177 | the head request is served, with the elevator on its floor, after as many frames as it was floors away, plus one |
| LegacyElevator.KeptAndUnloaded | MyGame/core/src/main/kotlin/ElevatorSimulation.kt:167-174 | removeAll partitions the boxes aboard: those bound elsewhere stay, exactly those for this floor leave, and no box is lost or duplicated |
| LegacyElevator.UnloadIntoAppends | MyGame/core/src/main/kotlin/ElevatorSimulation.kt:167-174 | the removeAll pass appends exactly the leaving boxes, in order, to this floor's list, creating it only when a box leaves, and touches no other floor |
| LegacyElevator.StepServesHead | MyGame/core/src/main/kotlin/ElevatorSimulation.kt:156-175 | at the head floor the request is removed, the waiting boxes board, the boxes bound here leave onto this floor's list and every other floor is unchanged |
| LegacyElevator.WaitingUpToAgrees | MyGame/core/src/main/kotlin/ElevatorSimulation.kt:28 | waiting maps with equal lists on the counted floors hold the same boxes |
| LegacyElevator.WaitingUpToUpdate | MyGame/core/src/main/kotlin/ElevatorSimulation.kt:28 | replacing one floor's list swaps its boxes in the total |
| LegacyElevator.StepKeepsBoxes | MyGame/core/src/main/kotlin/ElevatorSimulation.kt:147-177 | processNextEvent neither creates nor loses a box: aboard plus waiting is the same multiset before and after |
| LegacyElevator.StepKeepsRange | MyGame/core/src/main/kotlin/ElevatorSimulation.kt:24-28 | processNextEvent keeps the elevator, every request and every waiting list on a floor of the building |
| LegacyElevator.PutBoxAddsBox | MyGame/core/src/main/kotlin/ElevatorSimulation.kt:143 | putting a box on a floor of the building adds exactly that box to the total |
| LegacyElevator.Elevator.constructor | MyGame/core/src/main/kotlin/ElevatorSimulation.kt:15 | the elevator starts on the given floor |
| LegacyElevator.ElevatorSimulation.constructor | MyGame/core/src/main/kotlin/ElevatorSimulation.kt:24-33 | the simulation starts on floor 0 with no requests, no boxes and the timer at two seconds |
| LegacyElevator.ElevatorSimulation.Create | MyGame/core/src/main/kotlin/ElevatorSimulation.kt:35-45 | create adds exactly the five drawn boxes and keeps every floor in range |
| LegacyElevator.ElevatorSimulation.Render | MyGame/core/src/main/kotlin/ElevatorSimulation.kt:47-63 | the timer runs down by delta; at or below zero a request and a box are added and the timer reset to two seconds; then one processNextEvent step |
| LegacyElevator.ElevatorSimulation.AddRandomRequest | MyGame/core/src/main/kotlin/ElevatorSimulation.kt:125-129 | the drawn request joins the back of the queue |
| LegacyElevator.ElevatorSimulation.AddRandomBox | MyGame/core/src/main/kotlin/ElevatorSimulation.kt:132-144 | the drawn box, with a target other than its start, is appended to the waiting list at its start floor and adds exactly one box to the total |
| LegacyElevator.ElevatorSimulation.ProcessNextEvent | MyGame/core/src/main/kotlin/ElevatorSimulation.kt:147-177 | one frame of processNextEvent is exactly Step, and every floor stays in range |
| LegacyElevator.RemoveArrived | MyGame/core/src/main/kotlin/ElevatorSimulation.kt:167-174 | the removeAll loop keeps the boxes bound elsewhere in order and appends the others to this floor's waiting list in order |
| LegacyPharmacy.ArrivalGapBounds | test/index.js:21-23 | getRandomArrivalTime with a draw in [0, 1) gives a gap between arrivalMin and arrivalMax inclusive |
| LegacyPharmacy.Arrivals | test/index.js:25-31 | generateArrivals yields one arrival per round, the i-th being the sum of the first i+1 gaps |
| LegacyPharmacy.ArrivalsNondecreasing | test/index.js:25-31 | with 0 <= arrivalMin <= arrivalMax successive arrivals are arrivalMin to arrivalMax apart and never decrease |
| LegacyPharmacy.ServiceStart | test/index.js:52 | service starts at max(currentTime, arrivalTime) |
| LegacyPharmacy.DeparturesOfServed | test/index.js:58-69 | one round of service logs exactly one LEAVE, its customer's |
| LegacyPharmacy.ServiceIsFifo | test/index.js:49-72 | customers leave the queue in queue order, each exactly once |
| LegacyPharmacy.ServiceLogBlocks | test/index.js:49-72 | processQueue logs four commands per customer: LEAVE and active at the service start, busy serviceTime later, idle busyTime after that |
| LegacyPharmacy.ServiceClockGrows | test/index.js:52-66 | with non-negative service and busy times the clock never goes back along the queue |
| LegacyPharmacy.RunLogBlocks | test/index.js:33-47 | run logs six commands per customer: SPAWN and QUEUE JOIN at its arrival, then its four service commands |
| LegacyPharmacy.NotInTimeOrder | test/index.js:33-76 | the log is in generation order, not time order: with the program's own parameters and arrivals 2 and 4 an idle at 11 precedes a SPAWN at 4 |
| LegacyPharmacy.ArrivalsOfZeroDraws | test/index.js:21-31 | two draws of 0 with the program's parameters give arrivals 2 and 4 |
| LegacyPharmacy.CustomerIdIsPlain | test/index.js:35 | an entity_N id holds no space, quote or line break |
| LegacyPharmacy.WrittenIsLogLine | test/index.js:17-19 | every logged line is "<timestamp>: " followed by the command's words joined by spaces |
| LegacyPharmacy.CommandReads | test/index.js:37-69 | every generated command's line reads back in the legacy viewer as its event and holds no line break |
| LegacyPharmacy.LogLoads | test/index.js:46 | newline-joined lines of plain-name commands load in the legacy viewer as their events sorted by time, ties in written order |
| LegacyPharmacy.EmptyLogLoads | test/index.js:46 | an empty output loads as no events |
| LegacyPharmacy.RunOutputLoads | test/index.js:33-47 | the generator's whole output loads in the legacy viewer as the run's events in time order |
| LegacyPharmacy.SpawnUnknownToMainParser | test/index.js:37 | a SPAWN line yields no event in the main viewer's parser, which has no SPAWN keyword |
| LegacyPharmacy.SpawnIsNoCandidate | test/index.js:37 | no candidate of the main parser accepts a line starting with SPAWN |
| LegacyPharmacy.PharmacySimulation.constructor | test/index.js:2-15 | the parameters are stored, the queue and log are empty, the clock and counter are 0, the pharmacist is free, and the arrivals are generated |
| LegacyPharmacy.PharmacySimulation.LogCommand | test/index.js:17-19 | logCommand appends exactly the line "<timestamp>: <command>" |
| LegacyPharmacy.PharmacySimulation.GenerateArrivals | test/index.js:25-31 | generateArrivals appends the running sums of one gap per customer |
| LegacyPharmacy.PharmacySimulation.Log | test/index.js:17-19 | logging a command keeps the lines the rendering of the logged commands |
| LegacyPharmacy.PharmacySimulation.ProcessQueue | test/index.js:49-72 | processQueue empties the queue, logs ServiceLog of the old queue from the old clock, ends at ServiceEnd and leaves the pharmacist free |
| LegacyPharmacy.PharmacySimulation.ServeFront | test/index.js:50-70 | one round removes the front customer, logs its service from max(clock, arrival) and advances the clock by the service and busy times |
| LegacyPharmacy.PharmacySimulation.Run | test/index.js:33-47 | run logs RunLog of the arrivals, counts one entity per arrival, and outputs the lines joined by newlines |
| LegacyPharmacy.PharmacySimulation.Arrive | test/index.js:34-44 | one arrival gets the next entity id, is spawned, joins the queue and is served at once |
| LegacyPharmacy.OneServiceLog | test/index.js:49-72 | a queue of one is served in exactly one round |
| LegacyDemo.ResourceStates.GetImage | core/src/main/kotlin/ksl/animation/Main.kt:37-41 | "active" and "busy" show their own image; every other state shows the idle one |
| LegacyDemo.ParseEvent | core/src/main/kotlin/ksl/animation/Main.kt:102-109 | SPAWN, QUEUE and RESOURCE build their event at the line's time; any other first word gives no event; too few words is an index-out-of-bounds error |
| LegacyDemo.ParseLogLine | core/src/main/kotlin/ksl/animation/Main.kt:97-110 | a line without ": " or whose time does not parse as a Double gives no event |
| LegacyDemo.ParseLines | core/src/main/kotlin/ksl/animation/Main.kt:86-87 | mapNotNull keeps at most one event per line and fails exactly when some line throws |
| LegacyDemo.LoadLog | core/src/main/kotlin/ksl/animation/Main.kt:85-95 | a loaded log is sorted by time and loads exactly when every line parses without throwing |
| LegacyDemo.LineParts | core/src/main/kotlin/ksl/animation/Main.kt:98-102 | a line written as "<int>: <words>" splits back into its time and its words |
| LegacyDemo.QuotedWord | core/src/main/kotlin/ksl/animation/Main.kt:105-107 | trimming quotes off a quoted plain name gives the name back, and the quoted word holds no space or line break |
| LegacyDemo.SpawnLineParses | core/src/main/kotlin/ksl/animation/Main.kt:105 | a SPAWN line of plain names reads back as the Spawn it describes |
| LegacyDemo.QueueLineParses | core/src/main/kotlin/ksl/animation/Main.kt:106 | a QUEUE line reads back as its QueueEvent |
| LegacyDemo.ResourceLineParses | core/src/main/kotlin/ksl/animation/Main.kt:107 | a RESOURCE ... SET STATE line reads back as a ResourceEvent with action STATE |
| LegacyDemo.ParseLinesOfEvents | core/src/main/kotlin/ksl/animation/Main.kt:86-87 | lines that each hold one event load as those events, in order |
| LegacyDemo.LinesOfJoin | core/src/main/kotlin/ksl/animation/Main.kt:86 | lines without line breaks joined by newlines split back into the same lines |
| LegacyDemo.InsertByTimePermutes | core/src/main/kotlin/ksl/animation/Main.kt:88-94 | inserting an event adds exactly that event |
| LegacyDemo.InsertByTimeSorted | core/src/main/kotlin/ksl/animation/Main.kt:88-94 | inserting into a time-sorted sequence keeps it sorted |
| LegacyDemo.SortByTimeOrders | core/src/main/kotlin/ksl/animation/Main.kt:88-94 | sortedBy time yields a sequence sorted by time |
| LegacyDemo.SortByTimePermutes | core/src/main/kotlin/ksl/animation/Main.kt:88-94 | sortedBy time is a permutation of its input |
| LegacyDemo.InsertByTimeStable | core/src/main/kotlin/ksl/animation/Main.kt:88-94 | an inserted event goes after every event already at its time |
| LegacyDemo.SortByTimeStable | core/src/main/kotlin/ksl/animation/Main.kt:88-94 | the sort is stable: the events of each time keep their log order |
| LegacyDemo.LoadLogSorts | core/src/main/kotlin/ksl/animation/Main.kt:85-95 | the loaded log is a stable sort of the parsed lines: sorted, a permutation, and same-time events in log order |
| LegacyDemo.Spawned | core/src/main/kotlin/ksl/animation/Main.kt:351-358 | a spawned entity has the event's id and type as its base entity |
| LegacyDemo.Process | core/src/main/kotlin/ksl/animation/Main.kt:346-388 | processEvent never adds or removes a queue or resource, never forgets an entity, and only appends sprites |
| LegacyDemo.ProcessIsLenient | core/src/main/kotlin/ksl/animation/Main.kt:346-388 | an unknown base entity, queue, queue action, joining entity or resource leaves the world unchanged |
| LegacyDemo.ProcessAllAppend | core/src/main/kotlin/ksl/animation/Main.kt:315-330 | processing two runs of events in turn equals processing their concatenation |
| LegacyDemo.ProcessKeepsWorldOk | core/src/main/kotlin/ksl/animation/Main.kt:346-388 | every entity stays registered under its own id from a known base, and queues hold only registered entities |
| LegacyDemo.ProcessAllKeepsWorldOk | core/src/main/kotlin/ksl/animation/Main.kt:315-330 | any run of events keeps the world well-formed |
| LegacyDemo.FirstLater | core/src/main/kotlin/ksl/animation/Main.kt:315-330 | the event loop of one tick stops at the first event later than the tick, having run every event up to it |
| LegacyDemo.FirstLaterResumes | core/src/main/kotlin/ksl/animation/Main.kt:310-331 | resuming at a later tick from where an earlier one stopped ends where a single pass would |
| LegacyDemo.RenderClock | core/src/main/kotlin/ksl/animation/Main.kt:307-331 | a render only advances the cursor and ticks, and leaves the timer at most one quantum |
| LegacyDemo.TickLoopClock | core/src/main/kotlin/ksl/animation/Main.kt:310-331 | the tick loop only advances the cursor and ticks, and leaves the timer at most one quantum |
| LegacyDemo.RenderRunsDueEvents | core/src/main/kotlin/ksl/animation/Main.kt:305-331 | the events a render runs are exactly those due by the final tick |
| LegacyDemo.TickLoopIsStrict | core/src/main/kotlin/ksl/animation/Main.kt:310 | a timer of exactly one quantum does not tick; a little more ticks once |
| LegacyDemo.DemoQueue.constructor | core/src/main/kotlin/ksl/animation/Main.kt:189-190 | a new queue keeps its geometry and holds no entity |
| LegacyDemo.DemoQueue.AddEntity | core/src/main/kotlin/ksl/animation/Main.kt:192-194 | addEntity maps the entity's id to the entity, replacing any earlier entry |
| LegacyDemo.DemoQueue.RemoveEntity | core/src/main/kotlin/ksl/animation/Main.kt:196-198 | removeEntity removes exactly that id |
| LegacyDemo.DemoResource.constructor | core/src/main/kotlin/ksl/animation/Main.kt:241-242 | a new resource keeps its position, states and scale and is idle |
| LegacyDemo.DemoResource.SetState | core/src/main/kotlin/ksl/animation/Main.kt:244-246 | setState sets the current state to the given one |
| LegacyDemo.NoneQueued | core/src/main/kotlin/ksl/animation/Main.kt:296 | new queues hold no entity |
| LegacyDemo.AllIdle | core/src/main/kotlin/ksl/animation/Main.kt:301 | new resources are all idle |
| LegacyDemo.LoadImages | core/src/main/kotlin/ksl/animation/Main.kt:278-287 | exactly the images whose data decodes are registered, by id |
| LegacyDemo.LoadBaseEntities | core/src/main/kotlin/ksl/animation/Main.kt:290-292 | every base entity entry is registered by id, the last of a repeated id winning |
| LegacyDemo.LoadQueues | core/src/main/kotlin/ksl/animation/Main.kt:295-297 | one new, distinct, empty queue per queue id, with the entry's geometry |
| LegacyDemo.LoadResources | core/src/main/kotlin/ksl/animation/Main.kt:300-302 | one new, distinct, idle resource per resource id, with the entry's position, states and scale |
| LegacyDemo.DemoScreen.constructor | core/src/main/kotlin/ksl/animation/Main.kt:262-303 | the setup fills the four registries, every queue empty and every resource idle, with the cursor, ticks and timer at zero |
| LegacyDemo.DemoScreen.ProcessEvent | core/src/main/kotlin/ksl/animation/Main.kt:346-388 | processEvent changes the world exactly as Process says |
| LegacyDemo.DemoScreen.SpawnEntity | core/src/main/kotlin/ksl/animation/Main.kt:348-364 | a spawn changes the world exactly as Process says |
| LegacyDemo.DemoScreen.JoinQueue | core/src/main/kotlin/ksl/animation/Main.kt:370-374 | JOIN adds the entity to that queue only and leaves resource states alone |
| LegacyDemo.DemoScreen.LeaveQueue | core/src/main/kotlin/ksl/animation/Main.kt:375-377 | LEAVE removes the id from that queue only and leaves resource states alone |
| LegacyDemo.DemoScreen.SetResourceState | core/src/main/kotlin/ksl/animation/Main.kt:383-386 | a resource event sets that resource's state only and leaves the queues alone |
| LegacyDemo.DemoScreen.RunFrom | core/src/main/kotlin/ksl/animation/Main.kt:315-330 | the inner loop runs events from the cursor up to the first later one, processing exactly that run |
| LegacyDemo.DemoScreen.Render | core/src/main/kotlin/ksl/animation/Main.kt:305-331 | a render advances the clocks as RenderClock says and processes exactly the events the cursor passed |
| LegacyDemo.DemoScreen.TickLoop | core/src/main/kotlin/ksl/animation/Main.kt:310-331 | the tick loop ends where TickLoopClock says and processes exactly the events the cursor passed |
| LegacyDemo.TickStep | core/src/main/kotlin/ksl/animation/Main.kt:310-331 | one more pass of the tick loop extends the processed run to the first event later than the new tick |
| Text.Split | core/src/main/kotlin/ksl/animation/sim/KSLAnimationLog.kt:57 | split(" ") yields at least one piece and no piece holds the separator |
| Text.JoinOfSplit | core/src/main/kotlin/ksl/animation/sim/KSLAnimationLog.kt:57 | joining the pieces of a split with the separator gives the text back |
| Text.SplitOfJoin | core/src/main/kotlin/ksl/animation/sim/KSLAnimationLog.kt:57 | splitting separator-free words joined by the separator gives the words back |
| Text.SplitAtFirst | core/src/main/kotlin/ksl/animation/sim/KSLAnimationLog.kt:53 | split(": ", limit = 2) finds no separator exactly when none occurs; otherwise the two parts around the first occurrence rebuild the line |
| Text.IndexOf | core/src/main/kotlin/ksl/animation/sim/KSLAnimationLog.kt:53 | the first occurrence of a pattern at or after a position, or none when it does not occur there |
| Text.Lines | core/src/main/kotlin/ksl/animation/sim/KSLAnimationLog.kt:27 | lines() yields at least one line and no line holds a line break |
| Text.TrimOfQuote | core/src/main/kotlin/ksl/animation/sim/KSLLogEvent.kt:28 | trim('"') of a quoted word whose own ends are not quotes gives the word |
| Text.ParseLong | parser.kt:82 | toLong() accepts only a signed decimal within 64 bits |
| Text.ParseInt | parser.kt:96-100 | toInt() accepts only a signed decimal within 32 bits |
| Text.ParseLongOfIntToString | parser.kt:82 | a Long printed in decimal reads back as itself |
| Text.ParseIntOfIntToString | parser.kt:96-100 | an Int printed in decimal reads back as itself |
| Text.ParseDoubleOfDigits | core/src/main/kotlin/ksl/animation/sim/KSLAnimationLog.kt:56 | toDoubleOrNull() of plain decimal digits is their value |
| Text.ParseDoubleOfNegativeDigits | core/src/main/kotlin/ksl/animation/sim/KSLAnimationLog.kt:56 | toDoubleOrNull() of a minus sign and digits is the negated value |
| Text.ParseDoubleOfIntToString | core/src/main/kotlin/ksl/animation/sim/KSLAnimationLog.kt:56 | an integer printed in decimal reads back as that number |
| Text.ParseScientific | core/src/main/kotlin/ksl/animation/sim/KSLLogEvent.kt:82 | a mantissa, an exponent mark and a signed exponent read as the mantissa scaled by that power of ten |
| Text.ParseLargeForm | core/src/main/kotlin/ksl/animation/sim/KSLLogEvent.kt:82 | "1.0E7", the form Double.toString gives a large value, reads as ten million |
| Text.ParseSmallForm | core/src/main/kotlin/ksl/animation/sim/KSLLogEvent.kt:82 | "5.0E-4", the form Double.toString gives a small value, reads as 0.0005 |
| Common.MidpointIsEquidistant | core/src/main/kotlin/ksl/animation/common/renderables/KSLQueue.kt:24-25 | a queue's position, the midpoint of its ends, is as far from one end as from the other |

## Left out

- Text.ParseDouble: reads `toDoubleOrNull` input of the form `[+-]digits[.digits][(e|E)[+-]digits]`. The forms NaN, Infinity, surrounding whitespace, `f`/`F`/`d`/`D` suffixes and hexadecimal floats are not accepted. A log line whose time uses one of them is dropped, and a SIZED or AT number in one of them makes the load fail.
- Viewer.AnimationViewer.ExecuteVariable: the viewer source has no variable registry, although VariableEvent.kt looks one up. The model gives the viewer a `variables` map so that variable events have something to change. `parseVariableId` is not part of this model.
- AnimationScenes.AnimationScene.ApplyChange: an EditObjectSettings change applies, undoes and redoes as a no-op. `EditObjectSettingsChange` is not part of this model.
- EditorEntities.SceneVariable.constructor: `defaultValue` is a constructor parameter in KSLVariable.kt, but the model keeps it as a field so that copies and edits can read it.
- Setup.ResourceStates.Create: the state list is held as a sequence value. Two ResourceStates made by CopyResource therefore do not share one list as they do in Kotlin. The requires that each state object appears at most once excludes a list holding the same object twice, which Kotlin permits.
- Viewer.AnimationViewer.JoinQueue: a queue stores the object instances that joined it, but the contract and the Replay specification speak only of member ids. Which instance a queue still holds after its object is removed and spawned again is not stated.
- LegacyDemo.DemoQueue.AddEntity: the queue's entities are an unordered map. The LinkedHashMap insertion order that drawQueue uses for positions is not modelled.
- Replay.Frame: requires `playing ==> delta > 0.0`. Together with SimEntities.MovementStep's requirement `Steppable`, this excludes the NaN position that a zero-duration, non-INSTANT movement gets in a frame with delta 0.
- SimEntities.MovementStep: requires `Steppable`. It does not model stepping a job with negative times, or with a 0/0 progress under a curve other than INSTANT.
- Exceptions thrown while drawing, such as KSLObject.render on a missing object type or image, are not modelled. Drawing is not modelled at all.
- The viewer loads the log in a coroutine. The model loads it in sequence, before playback starts.
- Kotlin `Float` and `Double` are modelled as exact `real`. Rounding, overflow and NaN are not modelled, apart from the 0/0 progress of a movement.
- LegacyDemo.RenderClock: Main.kt's `Int` tick counter is unbounded in the model, so its overflow is not modelled. Main.kt's `1f / ticksPerSecond` is taken as exactly 0.2.
- Rendering, the UI widgets, file and zip import and export, and JSON deserialisation are not modelled. Base64 image decoding becomes a parameter saying which images decode, and console output is left out.
- LegacyPharmacy.PharmacySimulation.Run: JavaScript numbers are modelled as unbounded integers. `Math.random()` draws are a parameter.
- LegacyElevator.ElevatorSimulation.Render: random draws and the frame time are parameters. Drawing is left out.

## Findings

| source | as written | input that shows it | evidently intended | confidence | as-written member | corrected member |
|---|---|---|---|---|---|---|
| core/src/main/kotlin/ksl/animation/common/renderables/KSLVariable.kt:75 | serialize writes `"#" + colorNum.toString(16)` without zero padding, and the constructor at lines 41-44 takes `substring(0, 6)` before its `padEnd` can help | a text colour whose red byte is below 0x10, such as black: it is saved as `#0`, and loading that throws StringIndexOutOfBounds | a saved colour loads back as the same colour, for example by writing `toString(16).padStart(6, '0')` | high; not executed | Colors.EncodeDecodeRoundTrip | Colors.PaddedRoundTrip |
| core/src/main/kotlin/ksl/animation/builder/changes/AddRenderableChange.kt:19-22 | AddObject's undo removes the id from `scene.queues` and `scene.renderables` | add object `o`, then undo: `o` stays in `scene.objects`, and a queue registered under the same id is removed | the undo removes the id from `scene.objects`, so the registries return to their state before the add | high; not executed | SceneChanges.AddObjectUndoLeavesObject | SceneChanges.PutThenDrop |
| core/src/main/kotlin/ksl/animation/builder/changes/RemoveRenderableChange.kt:8-11 | RemoveObject's apply removes the id from `scene.queues` and `scene.renderables` | remove a registered object: it stays in `scene.objects`, and only its drawable entry goes | the apply removes the id from `scene.objects`, and undoing it puts the object back | high; not executed | SceneChanges.RemoveObjectKeepsObject | SceneChanges.DropThenPut |

The scene model keeps the code as written, because it models the program.
The corrected behaviour is Drop with the entity's own registry, for which
PutThenDrop and DropThenPut prove the round trips. The corrected encoding
is Colors.EncodeColorPadded.
