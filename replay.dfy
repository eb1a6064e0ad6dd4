// What replaying a log does to the viewer's registries, as pure functions:
// the effect of each event's `execute` (sim/events/*.kt), of running a run
// of events in order, of the tick clock and event cursor of
// AnimationViewer.render, and of one pass over the running movements. The
// AnimationViewer class (viewer.dfy) is proved to compute these.

module Replay {
  import opened Common
  import opened MovementFunctions
  import LinkedMaps
  import opened SimEntities
  import opened LogEvents

  /** What the replay can observe of one object. */
  datatype ObjectState = ObjectState(position: Position, objectType: string, width: real, height: real)

  /** A variable's displayed value: a number (formatted with the variable's
      precision when drawn) or a string shown as it is. */
  datatype VariableValue = Number(number: real) | Text(text: string)

  /** The registries events act on: the objects, the member ids of each
      queue in drawing order, each resource's current state, each
      variable's value, and the running movement jobs. */
  datatype World = World(
    objects: map<string, ObjectState>,
    queues: map<string, seq<string>>,
    resources: map<string, string>,
    variables: map<string, VariableValue>,
    movements: seq<MoveQuery>)

  /** A job the movement pass can step: times are never negative. */
  predicate JobOk(job: MoveQuery)
  {
    job.elapsedTime >= 0.0 && job.duration >= 0.0
  }

  predicate JobsOk(jobs: seq<MoveQuery>)
  {
    forall j :: 0 <= j < |jobs| ==> JobOk(jobs[j])
  }

  /** A MOVE whose duration the loader has filled in is never negative. */
  predicate DurationOk(ev: LogEvent)
  {
    ev.body.Move? ==> ev.body.duration >= 0.0
  }

  predicate DurationsOk(evs: seq<LogEvent>)
  {
    forall i :: 0 <= i < |evs| ==> DurationOk(evs[i])
  }

  // --------------------------------------------------------------- execute

  /** ObjectEvent.execute, ADD: inserts or overwrites the object. */
  function AddObject(w: World, objectTypeId: string, objectId: string, position: Position, width: real, height: real): (Outcome, World)
  {
    (Done, w.(objects := w.objects[objectId := ObjectState(position, objectTypeId, width, height)]))
  }

  /** ObjectEvent.execute, REMOVE: deletes the object or throws. */
  function RemoveObject(w: World, objectId: string): (Outcome, World)
  {
    if objectId in w.objects then (Done, w.(objects := w.objects - {objectId}))
    else (Failed(Runtime("Object " + objectId + " not found")), w)
  }

  /** QueueEvent.execute: looks the object up first (throwing the
      RuntimeException) and only then dereferences the queue with `!!`;
      an action other than JOIN and LEAVE does nothing. */
  function ChangeQueue(w: World, queueId: string, action: string, objectId: string): (Outcome, World)
  {
    if objectId !in w.objects then (Failed(Runtime("Object " + objectId + " not found")), w)
    else if action != KEYWORD_JOIN && action != KEYWORD_LEAVE then (Done, w)
    else if queueId !in w.queues then (Failed(NullPointer), w)
    else if action == KEYWORD_JOIN then
      (Done, w.(queues := w.queues[queueId := LinkedMaps.AddToSet(w.queues[queueId], objectId)]))
    else (Done, w.(queues := w.queues[queueId := LinkedMaps.Without(w.queues[queueId], objectId)]))
  }

  /** ResourceEvent.execute. */
  function ChangeResource(w: World, resourceId: string, newState: string): (Outcome, World)
  {
    if resourceId in w.resources then (Done, w.(resources := w.resources[resourceId := newState]))
    else (Failed(Runtime("Resource " + resourceId + " not found")), w)
  }

  /** VariableEvent.execute. */
  function SetVariable(w: World, variableId: string, stringVal: string, doubleVal: Option<real>): (Outcome, World)
  {
    if variableId in w.variables then
      (Done, w.(variables := w.variables[variableId := if doubleVal.Some? then Number(doubleVal.value) else Text(stringVal)]))
    else (Failed(Runtime("Variable " + variableId + " not found")), w)
  }

  /** MoveEvent.execute. */
  function StartMove(w: World, objectId: string, startPosition: Position, endPosition: Position,
                     movementFunction: string, duration: real): (Outcome, World)
  {
    if objectId in w.objects then
      (Done, w.(movements := w.movements + [MoveQuery(objectId, startPosition, endPosition, 0.0, duration, movementFunction)]))
    else (Failed(Runtime("Object " + objectId + " not found")), w)
  }

  /** `execute` of one event. Every exception is raised before anything is
      changed. */
  function ExecuteSpec(w: World, ev: LogEvent): (r: (Outcome, World))
    ensures r.0.Failed? ==> r.1 == w
    ensures !ev.body.Move? ==> r.1.movements == w.movements
    ensures DurationOk(ev) && JobsOk(w.movements) ==> JobsOk(r.1.movements)
    ensures ev.body.Move? ==> r.1.movements == w.movements || r.1.movements == w.movements + [
      MoveQuery(ev.body.objectId, ev.body.startPosition, ev.body.endPosition, 0.0, ev.body.duration, ev.body.movementFunction)]
  {
    match ev.body
    case ObjectAdd(objectTypeId, objectId, position, width, height) =>
      AddObject(w, objectTypeId, objectId, position, width, height)
    case ObjectRemove(objectId) => RemoveObject(w, objectId)
    case QueueChange(queueId, action, objectId) => ChangeQueue(w, queueId, action, objectId)
    case ResourceChange(resourceId, newState) => ChangeResource(w, resourceId, newState)
    case VariableSet(variableId, stringVal, doubleVal) => SetVariable(w, variableId, stringVal, doubleVal)
    case Move(objectId, startPosition, endPosition, movementFunction, duration) =>
      StartMove(w, objectId, startPosition, endPosition, movementFunction, duration)
    case AnimationMark(_) => (Done, w)
  }

  /** The events of `evs` executed in order, stopping at the first that
      throws; the outcome is that exception, or Done. */
  function ExecuteAll(w: World, evs: seq<LogEvent>): (r: (Outcome, World))
    ensures |evs| == 0 ==> r == (Done, w)
    decreases |evs|
  {
    if |evs| == 0 then (Done, w)
    else
      var before := ExecuteAll(w, evs[..|evs| - 1]);
      if before.0.Failed? then before
      else ExecuteSpec(before.1, evs[|evs| - 1])
  }

  /** A run over events whose durations are filled in keeps every
      movement job well formed. */
  lemma {:induction false} ExecuteAllKeepsJobs(w: World, evs: seq<LogEvent>)
    requires DurationsOk(evs) && JobsOk(w.movements)
    ensures JobsOk(ExecuteAll(w, evs).1.movements)
    decreases |evs|
  {
    if |evs| > 0 {
      var init := evs[..|evs| - 1];
      assert DurationsOk(init);
      ExecuteAllKeepsJobs(w, init);
      assert DurationOk(evs[|evs| - 1]);
    }
  }

  /** Running `a` and then `b` is running `a + b`; a failure in `a` is the
      failure of the whole run. */
  lemma {:induction false} ExecuteAllAppend(w: World, a: seq<LogEvent>, b: seq<LogEvent>)
    ensures ExecuteAll(w, a + b) ==
      if ExecuteAll(w, a).0.Failed? then ExecuteAll(w, a) else ExecuteAll(ExecuteAll(w, a).1, b)
    decreases |b|
  {
    if |b| == 0 {
      assert a + b == a;
    } else {
      assert (a + b)[..|a + b| - 1] == a + b[..|b| - 1];
      assert (a + b)[|a + b| - 1] == b[|b| - 1];
      ExecuteAllAppend(w, a, b[..|b| - 1]);
    }
  }

  /** One more event of a slice of the log: it runs unless the slice so
      far has already failed. */
  lemma ExecuteAllNext(w: World, evs: seq<LogEvent>, a: nat, b: nat)
    requires a <= b < |evs|
    ensures var before := ExecuteAll(w, evs[a..b]);
      ExecuteAll(w, evs[a..b + 1]) == if before.0.Failed? then before else ExecuteSpec(before.1, evs[b])
  {
    assert evs[a..b + 1] == evs[a..b] + [evs[b]];
    ExecuteAllSnoc(w, evs[a..b], evs[b]);
  }

  lemma ExecuteAllSnoc(w: World, a: seq<LogEvent>, e: LogEvent)
    ensures var before := ExecuteAll(w, a);
      ExecuteAll(w, a + [e]) == if before.0.Failed? then before else ExecuteSpec(before.1, e)
  {
    assert (a + [e])[..|a|] == a;
  }

  /** A run that has failed stays failed, with the same exception and the
      same registries, however many events follow. */
  lemma ExecuteAllKeepsFailure(w: World, evs: seq<LogEvent>, k: nat)
    requires k <= |evs| && ExecuteAll(w, evs[..k]).0.Failed?
    ensures ExecuteAll(w, evs) == ExecuteAll(w, evs[..k])
  {
    ExecuteAllAppend(w, evs[..k], evs[k..]);
    assert evs[..k] + evs[k..] == evs;
  }

  /** The same for a window evs[a..f] of a longer log: once the run of
      evs[a..b] has failed, running on to f changes nothing. */
  lemma ExecuteAllWindowFailed(w: World, evs: seq<LogEvent>, a: nat, b: nat, f: nat)
    requires a <= b <= f <= |evs| && ExecuteAll(w, evs[a..b]).0.Failed?
    ensures ExecuteAll(w, evs[a..f]) == ExecuteAll(w, evs[a..b])
  {
    assert evs[a..f][..b - a] == evs[a..b];
    ExecuteAllKeepsFailure(w, evs[a..f], b - a);
  }

  /** One step of a replay window evs[a..f]: a run of evs[a..b] that is
      still going, followed by evs[b], is the run of evs[a..b + 1], and if
      that step throws it is already the run of the whole window. */
  lemma ExecuteWindowStep(w: World, evs: seq<LogEvent>, a: nat, b: nat, f: nat, st: World, r: Outcome, st': World)
    requires a <= b < f <= |evs|
    requires ExecuteAll(w, evs[a..b]) == (Done, st) && ExecuteSpec(st, evs[b]) == (r, st')
    ensures ExecuteAll(w, evs[a..b + 1]) == (r, st')
    ensures r.Failed? ==> ExecuteAll(w, evs[a..f]) == (r, st')
  {
    ExecuteAllNext(w, evs, a, b);
    var run := ExecuteAll(w, evs[a..b + 1]);
    assert run == (r, st');
    if r.Failed? {
      ExecuteAllWindowFailed(w, evs, a, b + 1, f);
    }
  }

  // ------------------------------------------------------ event effects

  /** ObjectEvent ADD inserts or overwrites the object; REMOVE deletes it,
      so REMOVE after ADD leaves no entry for the id and the others as they
      were. */
  lemma AddThenRemove(w: World, time: real, t: string, id: string, p: Position, width: real, height: real)
    ensures var added := ExecuteSpec(w, LogEvent(time, ObjectAdd(t, id, p, width, height)));
      added.0 == Done && added.1.objects[id] == ObjectState(p, t, width, height)
      && ExecuteSpec(added.1, LogEvent(time, ObjectRemove(id))) == (Done, w.(objects := w.objects - {id}))
  {
    var added := ExecuteSpec(w, LogEvent(time, ObjectAdd(t, id, p, width, height)));
    assert added.1.objects - {id} == w.objects - {id};
  }

  /** Removing an object that is not there throws and changes nothing. */
  lemma RemoveOfAbsent(w: World, time: real, id: string)
    requires id !in w.objects
    ensures ExecuteSpec(w, LogEvent(time, ObjectRemove(id))) == (Failed(Runtime("Object " + id + " not found")), w)
  {
  }

  /** A queue event needs the object: without it the queue is not touched
      even when the queue is missing too. With it, JOIN makes the object the
      last member unless it is already queued, and LEAVE drops it, leaving
      the other queues alone. */
  lemma QueueEffects(w: World, time: real, q: string, action: string, id: string, other: string)
    requires q in w.queues && other != q
    ensures id !in w.objects ==>
      ExecuteSpec(w, LogEvent(time, QueueChange(q, action, id))) == (Failed(Runtime("Object " + id + " not found")), w)
    ensures id in w.objects && action == KEYWORD_JOIN ==>
      var r := ExecuteSpec(w, LogEvent(time, QueueChange(q, action, id)));
      r.0 == Done && id in r.1.queues[q]
      && r.1.queues[q] == (if id in w.queues[q] then w.queues[q] else w.queues[q] + [id])
      && (other in w.queues ==> r.1.queues[other] == w.queues[other])
    ensures id in w.objects && action == KEYWORD_LEAVE ==>
      var r := ExecuteSpec(w, LogEvent(time, QueueChange(q, action, id)));
      r.0 == Done && id !in r.1.queues[q]
      && (other in w.queues ==> r.1.queues[other] == w.queues[other])
  {
  }

  /** A resource event sets the current state to any name at all, and only
      that resource's. */
  lemma ResourceEffect(w: World, time: real, res: string, s: string, other: string)
    requires other != res
    ensures var r := ExecuteSpec(w, LogEvent(time, ResourceChange(res, s)));
      (r.0 == Done <==> res in w.resources)
      && (res in w.resources ==> r.1.resources[res] == s && r.1.objects == w.objects && r.1.queues == w.queues)
      && (other in w.resources ==> r.1.resources[other] == w.resources[other])
  {
  }

  /** A variable event stores the number when the value read as one, and
      the text otherwise. */
  lemma VariableEffect(w: World, time: real, v: string, s: string, d: Option<real>)
    requires v in w.variables
    ensures var r := ExecuteSpec(w, LogEvent(time, VariableSet(v, s, d)));
      r.0 == Done && r.1.variables[v] == (if d.Some? then Number(d.value) else Text(s))
  {
  }

  /** MoveEvent.execute does not move the object: it only appends a job
      starting at elapsed time 0 with the event's duration as it is now. */
  lemma MoveOnlyQueuesAJob(w: World, ev: LogEvent)
    requires ev.body.Move? && ev.body.objectId in w.objects
    ensures var r := ExecuteSpec(w, ev);
      r.0 == Done && r.1.objects == w.objects && |r.1.movements| == |w.movements| + 1
      && r.1.movements[..|w.movements|] == w.movements
      && r.1.movements[|w.movements|] == MoveQuery(ev.body.objectId, ev.body.startPosition, ev.body.endPosition,
                                                   0.0, ev.body.duration, ev.body.movementFunction)
  {
  }

  /** START and STOP change nothing when executed. */
  lemma MarkIsNoOp(w: World, ev: LogEvent)
    requires ev.body.AnimationMark?
    ensures ExecuteSpec(w, ev) == (Done, w)
  {
  }

  /** runInstantEvents executes the events at the start time, and the cursor
      executes them again later. Running an ADD twice is harmless, but a
      second REMOVE throws and a second MOVE queues a second job. */
  lemma SecondRunOfAnEvent(w: World, ev: LogEvent)
    requires ExecuteSpec(w, ev).0 == Done
    ensures ev.body.ObjectAdd? ==> ExecuteSpec(ExecuteSpec(w, ev).1, ev) == ExecuteSpec(w, ev)
    ensures ev.body.ObjectRemove? ==> ExecuteSpec(ExecuteSpec(w, ev).1, ev).0.Failed?
    ensures ev.body.Move? ==> |ExecuteSpec(ExecuteSpec(w, ev).1, ev).1.movements| == |w.movements| + 2
  {
    if ev.body.ObjectAdd? {
      var s := ObjectState(ev.body.position, ev.body.objectTypeId, ev.body.width, ev.body.height);
      assert w.objects[ev.body.objectId := s][ev.body.objectId := s] == w.objects[ev.body.objectId := s];
    }
  }

  // ------------------------------------------------------------- cursor

  /** Where the event cursor of render stops: at the first event from `c`
      on that lies after `t`, or at the end. */
  function FirstLater(evs: seq<LogEvent>, c: nat, t: real): (j: nat)
    requires c <= |evs|
    ensures c <= j <= |evs|
    decreases |evs| - c
  {
    if c == |evs| || evs[c].time > t then c else FirstLater(evs, c + 1, t)
  }

  /** The scan stops at the first event later than `t`: every event it
      passes is due by `t`. */
  lemma {:induction false} FirstLaterIsFirst(evs: seq<LogEvent>, c: nat, t: real)
    requires c <= |evs|
    ensures forall i :: c <= i < FirstLater(evs, c, t) ==> evs[i].time <= t
    ensures FirstLater(evs, c, t) < |evs| ==> evs[FirstLater(evs, c, t)].time > t
    decreases |evs| - c
  {
    if c < |evs| && evs[c].time <= t {
      FirstLaterIsFirst(evs, c + 1, t);
    }
  }

  /** The cursor never goes back, and moves at least as far for a later
      tick. */
  lemma {:induction false} FirstLaterMonotone(evs: seq<LogEvent>, c: nat, t1: real, t2: real)
    requires c <= |evs| && t1 <= t2
    ensures FirstLater(evs, c, t1) <= FirstLater(evs, c, t2)
    decreases |evs| - c
  {
    if c < |evs| && evs[c].time <= t1 {
      FirstLaterMonotone(evs, c + 1, t1, t2);
    }
  }

  /** Stopping at tick t1 and resuming at a later tick t2 ends where a
      single scan at t2 would: the events a frame executes do not depend on
      how its ticks were split. */
  lemma {:induction false} FirstLaterResumes(evs: seq<LogEvent>, c: nat, t1: real, t2: real)
    requires c <= |evs| && t1 <= t2
    ensures FirstLater(evs, FirstLater(evs, c, t1), t2) == FirstLater(evs, c, t2)
    decreases |evs| - c
  {
    if c < |evs| && evs[c].time <= t1 {
      FirstLaterResumes(evs, c + 1, t1, t2);
    }
  }

  /** On a time-sorted log the cursor stops at the first event after `t`
      counting from the start, whatever it skipped: it has executed exactly
      the events at or before `t`. */
  lemma FirstLaterOnSorted(evs: seq<LogEvent>, t: real, i: nat)
    requires forall a, b :: 0 <= a < b < |evs| ==> evs[a].time <= evs[b].time
    requires i < |evs|
    ensures i < FirstLater(evs, 0, t) <==> evs[i].time <= t
  {
    var j := FirstLater(evs, 0, t);
    FirstLaterIsFirst(evs, 0, t);
    if i >= j && j < |evs| {
      assert evs[j].time <= evs[i].time;
    }
  }

  // -------------------------------------------------------------- clock

  /** How many quanta `q` the `while (timer > 1 / ticksPerSecond)` loop
      takes out of `t`. */
  function Quanta(t: real, q: real): (n: nat)
    requires q > 0.0
    ensures n == 0 <==> t <= q
    decreases if t > q then (t / q).Floor else 0
  {
    if t > q then
      QuantumDecreases(t, q);
      1 + Quanta(t - q, q)
    else 0
  }

  /** The timer after the tick loop: quanta are taken off while more than
      one is left, so what remains is at most q, and positive when a
      quantum was taken. */
  function Leftover(t: real, q: real): (l: real)
    requires q > 0.0
    ensures l <= q
    ensures t > q ==> l > 0.0
    decreases if t > q then (t / q).Floor else 0
  {
    if t > q then
      QuantumDecreases(t, q);
      Leftover(t - q, q)
    else t
  }

  /** No time is lost: the leftover is the timer less one quantum per
      tick. */
  lemma {:induction false} LeftoverAccounting(t: real, q: real)
    requires q > 0.0
    ensures Leftover(t, q) == t - (Quanta(t, q) as real) * q
    decreases if t > q then (t / q).Floor else 0
  {
    if t > q {
      QuantumDecreases(t, q);
      var m := Quanta(t - q, q);
      LeftoverAccounting(t - q, q);
      var mq := (m as real) * q;
      assert Leftover(t, q) == Leftover(t - q, q) == (t - q) - mq;
      var n := Quanta(t, q);
      assert n == 1 + m;
      OneMoreQuantum(m, q);
      assert (n as real) * q == q + mq;
    }
  }

  lemma OneMoreQuantum(m: nat, q: real)
    ensures ((1 + m) as real) * q == q + (m as real) * q
  {
  }

  /** One pass of the tick loop on a timer above q. */
  lemma QuantaStep(t: real, q: real)
    requires q > 0.0 && t > q
    ensures Quanta(t, q) == 1 + Quanta(t - q, q)
    ensures Leftover(t, q) == Leftover(t - q, q)
  {
  }

  /** Taking a quantum off lowers the number of whole quanta left. */
  lemma QuantumDecreases(t: real, q: real)
    requires q > 0.0 && t > q
    ensures (if t - q > q then ((t - q) / q).Floor else 0) < (t / q).Floor
  {
    QuantumShift(t, q);
    var x := t / q;
    assert x * q == t;
    assert x > 1.0;
    assert (x - 1.0).Floor == x.Floor - 1;
  }

  lemma QuantumShift(t: real, q: real)
    requires q > 0.0
    ensures (t - q) / q == t / q - 1.0
  {
    var x := t / q;
    assert x * q == t;
    DivCancel(t - q, x - 1.0, q);
  }

  lemma DivCancel(a: real, b: real, q: real)
    requires q > 0.0 && a == b * q
    ensures a / q == b
  {
    assert (a / q) * q == a;
    assert (a / q - b) * q == 0.0;
  }

  /** Whatever the frame time, the timer ends in (0, q] when it started
      positive, and it is the start less one quantum per tick. */
  lemma ClockAccounting(t: real, q: real)
    requires q > 0.0 && t > 0.0
    ensures 0.0 < Leftover(t, q) <= q
    ensures Leftover(t, q) == t - Quanta(t, q) as real * q
  {
    LeftoverAccounting(t, q);
  }

  // ---------------------------------------------------------- movements

  /** One frame's update of a job's clock: elapsed time grows by
      `delta * ticksPerSecond`, and an INSTANT job jumps to its duration. */
  function Advance(job: MoveQuery, dt: real): MoveQuery
  {
    var elapsed := job.elapsedTime + dt;
    job.(elapsedTime := if job.movementFunction == INSTANT_FUNCTION then job.duration else elapsed)
  }

  /** With a positive step an advanced job can always be stepped. */
  lemma AdvancedIsSteppable(job: MoveQuery, dt: real)
    requires JobOk(job) && dt > 0.0
    ensures JobOk(Advance(job, dt)) && Steppable(Advance(job, dt))
  {
  }

  /** The movement loop of render over `jobs`: each job is advanced and its
      object moved; a finished job is dropped, a job whose object is
      missing (or whose curve is unknown) throws. After an exception the
      advanced job stays and the jobs after it are untouched. */
  function StepJobs(objects: map<string, ObjectState>, jobs: seq<MoveQuery>, dt: real)
    : (r: (Outcome, map<string, ObjectState>, seq<MoveQuery>))
    requires JobsOk(jobs) && dt > 0.0
    ensures r.1.Keys == objects.Keys
    ensures JobsOk(r.2)
    ensures |r.2| <= |jobs|
    decreases |jobs|
  {
    if |jobs| == 0 then (Done, objects, [])
    else
      var before := StepJobs(objects, jobs[..|jobs| - 1], dt);
      var job := Advance(jobs[|jobs| - 1], dt);
      AdvancedIsSteppable(jobs[|jobs| - 1], dt);
      if before.0.Failed? then (before.0, before.1, before.2 + [jobs[|jobs| - 1]])
      else if job.objectId !in before.1 then
        (Failed(Runtime("Object " + job.objectId + " not found")), before.1, before.2 + [job])
      else match MovementStep(job)
        case Err(e) => (Failed(e), before.1, before.2 + [job])
        case Ok(step) =>
          (Done, before.1[job.objectId := before.1[job.objectId].(position := step.0)],
           if step.1 then before.2 else before.2 + [job])
  }

  /** After a pass that got through, every job still running names an
      object that exists. */
  lemma {:induction false} StepJobsKeepsKnownObjects(objects: map<string, ObjectState>, jobs: seq<MoveQuery>, dt: real)
    requires JobsOk(jobs) && dt > 0.0 && StepJobs(objects, jobs, dt).0.Done?
    ensures var r := StepJobs(objects, jobs, dt);
      forall j :: 0 <= j < |r.2| ==> r.2[j].objectId in objects
    decreases |jobs|
  {
    if |jobs| > 0 {
      StepJobsKeepsKnownObjects(objects, jobs[..|jobs| - 1], dt);
    }
  }

  /** Once a job has thrown, the loop is over: the remaining jobs stay as
      they are, after the ones already kept and the failing one. */
  lemma {:induction false} StepJobsKeepsFailure(objects: map<string, ObjectState>, jobs: seq<MoveQuery>, dt: real, k: nat)
    requires JobsOk(jobs) && dt > 0.0 && k <= |jobs|
    requires StepJobs(objects, jobs[..k], dt).0.Failed?
    ensures var f := StepJobs(objects, jobs[..k], dt);
      StepJobs(objects, jobs, dt) == (f.0, f.1, f.2 + jobs[k..])
    decreases |jobs|
  {
    if k == |jobs| {
      assert jobs[..k] == jobs;
      var f := StepJobs(objects, jobs, dt);
      assert f.2 + jobs[k..] == f.2;
    } else {
      var init := jobs[..|jobs| - 1];
      assert init[..k] == jobs[..k];
      assert JobsOk(init);
      StepJobsKeepsFailure(objects, init, dt, k);
      var f := StepJobs(objects, jobs[..k], dt);
      var before := StepJobs(objects, init, dt);
      assert before == (f.0, f.1, f.2 + init[k..]);
      assert StepJobs(objects, jobs, dt) == (before.0, before.1, before.2 + [jobs[|jobs| - 1]]);
      assert init[k..] + [jobs[|jobs| - 1]] == jobs[k..];
      assert (f.2 + init[k..]) + [jobs[|jobs| - 1]] == f.2 + jobs[k..];
    }
  }

  /** One more job of the movement pass, after a prefix that went through:
      the three outcomes of stepping it. */
  lemma StepJobsNext(objects: map<string, ObjectState>, jobs: seq<MoveQuery>, dt: real, i: nat)
    requires JobsOk(jobs) && dt > 0.0 && i < |jobs|
    requires StepJobs(objects, jobs[..i], dt).0.Done?
    ensures Steppable(Advance(jobs[i], dt))
    ensures var before, job := StepJobs(objects, jobs[..i], dt), Advance(jobs[i], dt);
      job.objectId !in before.1 ==>
        StepJobs(objects, jobs[..i + 1], dt) == (Failed(Runtime("Object " + job.objectId + " not found")), before.1, before.2 + [job])
    ensures var before, job := StepJobs(objects, jobs[..i], dt), Advance(jobs[i], dt);
      job.objectId in before.1 && MovementStep(job).Err? ==>
        StepJobs(objects, jobs[..i + 1], dt) == (Failed(MovementStep(job).error), before.1, before.2 + [job])
    ensures var before, job := StepJobs(objects, jobs[..i], dt), Advance(jobs[i], dt);
      job.objectId in before.1 && MovementStep(job).Ok? ==>
        var step := MovementStep(job).value;
        StepJobs(objects, jobs[..i + 1], dt) ==
          (Done, before.1[job.objectId := before.1[job.objectId].(position := step.0)],
           if step.1 then before.2 else before.2 + [job])
  {
    AdvancedIsSteppable(jobs[i], dt);
    assert jobs[..i + 1][..i] == jobs[..i];
  }

  /** A job is dropped exactly when its step finishes it, and the object
      then sits exactly at the end position. */
  lemma {:induction false} StepJobsDropsFinished(objects: map<string, ObjectState>, jobs: seq<MoveQuery>, dt: real)
    requires JobsOk(jobs) && dt > 0.0 && |jobs| > 0
    requires StepJobs(objects, jobs, dt).0.Done?
    ensures var last := Advance(jobs[|jobs| - 1], dt);
      var before := StepJobs(objects, jobs[..|jobs| - 1], dt);
      var after := StepJobs(objects, jobs, dt);
      Steppable(last) && MovementStep(last).Ok?
      && after.1[last.objectId].position == MovementStep(last).value.0
      && (MovementStep(last).value.1 <==> after.2 == before.2)
      && (MovementStep(last).value.1 ==> after.1[last.objectId].position == last.endPosition)
  {
    var last := Advance(jobs[|jobs| - 1], dt);
    AdvancedIsSteppable(jobs[|jobs| - 1], dt);
    var before := StepJobs(objects, jobs[..|jobs| - 1], dt);
    assert before.0.Done?;
    assert |before.2 + [last]| != |before.2|;
  }

  /** Where the cursor stands after a frame of `n` ticks that began at tick
      `ticks`: unmoved when no tick happened, otherwise at the first event
      after the last tick. */
  function CursorAfter(evs: seq<LogEvent>, c: nat, ticks: real, n: nat): (j: nat)
    requires c <= |evs|
    ensures c <= j <= |evs|
  {
    if n == 0 then c else FirstLater(evs, c, ticks + n as real)
  }

  /** The cursor after k ticks is where tick k's scan, started from the
      cursor after k - 1 ticks, stops. */
  lemma CursorAfterNext(evs: seq<LogEvent>, c0: nat, k0: real, k: nat)
    requires c0 <= |evs| && k > 0
    ensures FirstLater(evs, CursorAfter(evs, c0, k0, k - 1), k0 + k as real) == CursorAfter(evs, c0, k0, k)
  {
    if k > 1 {
      var t1, t2 := k0 + (k - 1) as real, k0 + k as real;
      FirstLaterResumes(evs, c0, t1, t2);
    }
  }

  /** More ticks never leave the cursor further back. */
  lemma CursorAfterMonotone(evs: seq<LogEvent>, c0: nat, k0: real, k: nat, n: nat)
    requires c0 <= |evs| && 0 < k <= n
    ensures CursorAfter(evs, c0, k0, k) <= CursorAfter(evs, c0, k0, n)
  {
    var t1, t2 := k0 + k as real, k0 + n as real;
    FirstLaterMonotone(evs, c0, t1, t2);
  }

  /** Tick k of a frame that will take n ticks: the events due at tick k,
      run after those of ticks 1 .. k - 1, are the run up to CursorAfter
      for k ticks; if they throw, that is already the run of the whole
      frame. */
  lemma TickWindow(w: World, evs: seq<LogEvent>, c0: nat, k0: real, k: nat, n: nat, st: World, r: Outcome, st': World)
    requires c0 <= |evs| && 0 < k <= n
    requires ExecuteAll(w, evs[c0..CursorAfter(evs, c0, k0, k - 1)]) == (Done, st)
    requires var c := CursorAfter(evs, c0, k0, k - 1);
      ExecuteAll(st, evs[c..FirstLater(evs, c, k0 + k as real)]) == (r, st')
    ensures ExecuteAll(w, evs[c0..CursorAfter(evs, c0, k0, k)]) == (r, st')
    ensures r.Failed? ==> ExecuteAll(w, evs[c0..CursorAfter(evs, c0, k0, n)]) == (r, st')
  {
    var c := CursorAfter(evs, c0, k0, k - 1);
    var e := CursorAfter(evs, c0, k0, k);
    CursorAfterNext(evs, c0, k0, k);
    ExecuteSlices(w, evs, c0, c, e);
    if r.Failed? {
      CursorAfterMonotone(evs, c0, k0, k, n);
      ExecuteAllWindowFailed(w, evs, c0, e, CursorAfter(evs, c0, k0, n));
    }
  }

  /** Running evs[a..c] is running evs[a..b] and then evs[b..c]. */
  lemma ExecuteSlices(w: World, evs: seq<LogEvent>, a: nat, b: nat, c: nat)
    requires a <= b <= c <= |evs|
    ensures ExecuteAll(w, evs[a..c]) ==
      if ExecuteAll(w, evs[a..b]).0.Failed? then ExecuteAll(w, evs[a..b]) else ExecuteAll(ExecuteAll(w, evs[a..b]).1, evs[b..c])
  {
    ExecuteAllAppend(w, evs[a..b], evs[b..c]);
    assert evs[a..b] + evs[b..c] == evs[a..c];
  }

  // ---------------------------------------------------------------- frame

  /** What one call of render leaves behind: its outcome, the registries,
      and the cursor, tick count and timer when the tick loop got through
      (an exception in an event leaves them half-way). */
  datatype FrameResult = FrameResult(outcome: Outcome, world: World, clock: Option<(nat, real, real)>)

  /** The tick loop of one frame from cursor `c`, tick count `ticks` and
      timer `t`, in quanta of `q`: one tick per full quantum above q, each
      running the events due by then. */
  function Ticks(w: World, evs: seq<LogEvent>, c: nat, ticks: real, t: real, q: real): (f: FrameResult)
    requires c <= |evs| && DurationsOk(evs) && JobsOk(w.movements) && q > 0.0
    ensures f.clock.None? <==> f.outcome.Failed?
    ensures JobsOk(f.world.movements)
  {
    var n := Quanta(t, q);
    var j := CursorAfter(evs, c, ticks, n);
    assert DurationsOk(evs[c..j]);
    ExecuteAllKeepsJobs(w, evs[c..j]);
    var run := ExecuteAll(w, evs[c..j]);
    if run.0.Failed? then FrameResult(run.0, run.1, None)
    else FrameResult(Done, run.1, Some((j, ticks + n as real, Leftover(t, q))))
  }

  /** One frame of `delta` seconds at `tps` ticks per second: the timer
      grows while playing, the tick loop runs, and while playing the
      movements are stepped by delta * tps. */
  function Frame(w: World, evs: seq<LogEvent>, c: nat, ticks: real, timer: real, playing: bool, delta: real, tps: real): (f: FrameResult)
    requires c <= |evs| && DurationsOk(evs) && JobsOk(w.movements)
    requires tps > 0.0 && delta >= 0.0 && (playing ==> delta > 0.0)
    ensures f.clock.None? ==> f.outcome.Failed?
    ensures JobsOk(f.world.movements)
  {
    var ft := Ticks(w, evs, c, ticks, timer + (if playing then delta else 0.0), 1.0 / tps);
    if ft.outcome.Failed? || !playing then ft
    else
      var m := StepJobs(ft.world.objects, ft.world.movements, delta * tps);
      FrameResult(m.0, ft.world.(objects := m.1, movements := m.2), ft.clock)
  }

  /** A frame whose tick loop threw, or that is paused, is its tick loop. */
  lemma FrameWhenStopped(w: World, evs: seq<LogEvent>, c: nat, ticks: real, timer: real, playing: bool, delta: real, tps: real)
    requires c <= |evs| && DurationsOk(evs) && JobsOk(w.movements)
    requires tps > 0.0 && delta >= 0.0 && (playing ==> delta > 0.0)
    requires var ft := Ticks(w, evs, c, ticks, timer + (if playing then delta else 0.0), 1.0 / tps);
      ft.outcome.Failed? || !playing
    ensures Frame(w, evs, c, ticks, timer, playing, delta, tps) == Ticks(w, evs, c, ticks, timer + (if playing then delta else 0.0), 1.0 / tps)
  {
  }

  /** A playing frame whose tick loop got through ends with the movement
      pass over the registries the events left. */
  lemma FrameWhenPlaying(w: World, evs: seq<LogEvent>, c: nat, ticks: real, timer: real, delta: real, tps: real)
    requires c <= |evs| && DurationsOk(evs) && JobsOk(w.movements) && tps > 0.0 && delta > 0.0
    requires Ticks(w, evs, c, ticks, timer + delta, 1.0 / tps).outcome.Done?
    ensures var ft := Ticks(w, evs, c, ticks, timer + delta, 1.0 / tps);
      var m := StepJobs(ft.world.objects, ft.world.movements, delta * tps);
      Frame(w, evs, c, ticks, timer, true, delta, tps) == FrameResult(m.0, ft.world.(objects := m.1, movements := m.2), ft.clock)
  {
    MulPositive(delta, tps);
  }

  /** When the tick loop got through, the cursor has not gone back, one
      tick was counted per quantum, no time was lost, and the timer is left
      in (0, q] (at most q, if it started at zero). */
  lemma TicksClock(w: World, evs: seq<LogEvent>, c: nat, ticks: real, t: real, q: real)
    requires c <= |evs| && DurationsOk(evs) && JobsOk(w.movements) && q > 0.0
    ensures var f := Ticks(w, evs, c, ticks, t, q);
      f.clock.Some? ==>
        c <= f.clock.value.0 <= |evs| && f.clock.value.1 == ticks + Quanta(t, q) as real
        && f.clock.value.2 == t - (Quanta(t, q) as real) * q
        && f.clock.value.2 <= q && (t > 0.0 ==> f.clock.value.2 > 0.0)
  {
    LeftoverAccounting(t, q);
    if t > 0.0 {
      ClockAccounting(t, q);
    }
  }

  /** The events a frame runs: exactly those from the cursor up to the
      first one later than the last tick, and none when no tick happened. */
  lemma TicksRunsDueEvents(w: World, evs: seq<LogEvent>, c: nat, ticks: real, t: real, q: real)
    requires c <= |evs| && DurationsOk(evs) && JobsOk(w.movements) && q > 0.0
    ensures var f, n := Ticks(w, evs, c, ticks, t, q), Quanta(t, q);
      f.clock.Some? ==>
        (forall i :: c <= i < f.clock.value.0 ==> evs[i].time <= ticks + n as real)
        && (f.clock.value.0 < |evs| && n > 0 ==> evs[f.clock.value.0].time > ticks + n as real)
        && (n == 0 ==> f.clock.value.0 == c && f.world == w)
  {
    var n := Quanta(t, q);
    if n > 0 {
      FirstLaterIsFirst(evs, c, ticks + n as real);
    }
  }

  // ------------------------------------------------------- instant events

  function Abs(x: real): real { if x < 0.0 then -x else x }

  /** The events runInstantEvents executes: those within 0.0001 of the
      start time, in log order. */
  function InstantEvents(evs: seq<LogEvent>, startTime: real): (r: seq<LogEvent>)
    ensures forall i :: 0 <= i < |r| ==> r[i] in evs && Abs(r[i].time - startTime) < 0.0001
    ensures forall i :: 0 <= i < |evs| && Abs(evs[i].time - startTime) < 0.0001 ==> evs[i] in r
    ensures DurationsOk(evs) ==> DurationsOk(r)
    decreases |evs|
  {
    if |evs| == 0 then []
    else
      var before := InstantEvents(evs[..|evs| - 1], startTime);
      var last := evs[|evs| - 1];
      assert forall i :: 0 <= i < |evs| - 1 ==> evs[..|evs| - 1][i] == evs[i];
      if Abs(last.time - startTime) < 0.0001 then before + [last] else before
  }
}
