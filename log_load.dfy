// sim/KSLAnimationLog.kt, loadLog: the whole load of a log text into the
// log the viewer replays. It runs as one sequential method here.

module AnimationLogLoad {
  import opened Common
  import opened Text
  import opened LogEvents
  import opened LogCursor
  import opened LogLoading
  import opened Replay
  import opened Viewer

  /** loadLog: parses every line, stably sorts the events by time and
      installs them, runs the instant events on the viewer, and then fills
      in the MOVE durations. An exception of a line parse ends the load
      before the events are installed; one of runInstantEvents ends it
      before the back-fill. */
  method LoadLog(logData: string, viewer: AnimationViewer) returns (r: Outcome)
    requires viewer.Valid() && NoDuplicates(viewer.log.objects)
    modifies viewer.log, viewer`objects, viewer`variables, viewer`movements
    modifies viewer.queues.Values`members, viewer.resources.Values`currentState
    ensures viewer.log == old(viewer.log) && viewer.Valid() && NoDuplicates(viewer.log.objects)
    ensures viewer.log.Fields() == LinesSpec(Lines(logData), old(viewer.View()), old(viewer.log.Fields())).1
    ensures var parsed := LinesSpec(Lines(logData), old(viewer.View()), old(viewer.log.Fields())).0;
      parsed.Err? ==> r == Failed(parsed.error) && viewer.log.events == old(viewer.log.events)
                      && viewer.State() == old(viewer.State())
    ensures var load := LinesSpec(Lines(logData), old(viewer.View()), old(viewer.log.Fields()));
      load.0.Ok? ==>
        var sorted := SortByTime(load.0.value);
        var run := ExecuteAll(old(viewer.State()), InstantEvents(sorted, load.1.startTime));
        r == run.0 && viewer.State() == run.1
        && viewer.log.events == (if run.0.Failed? then sorted else BackFilled(sorted, load.1.objects))
        && DurationsOk(viewer.log.events)
  {
    var log := viewer.log;
    ghost var view, f, w0 := viewer.View(), log.Fields(), viewer.State();
    var lines := Lines(logData);
    LinesKeepIdsDistinct(lines, view, f);
    var parsed := log.ParseLines(lines, viewer.View());
    assert viewer.State() == w0;
    if parsed.Err? {
      return Failed(parsed.error);
    }
    LoadedDurationsZero(lines, view, f);
    assert DurationsOk(parsed.value);
    r := InstallLog(viewer, parsed.value);
  }

  /** The part of loadLog after parsing: installs the sorted events, runs
      the instant events, and fills in the durations. */
  method InstallLog(viewer: AnimationViewer, parsed: seq<LogEvent>) returns (r: Outcome)
    requires viewer.Valid() && NoDuplicates(viewer.log.objects) && DurationsOk(parsed)
    modifies viewer.log`events, viewer`objects, viewer`variables, viewer`movements
    modifies viewer.queues.Values`members, viewer.resources.Values`currentState
    ensures viewer.log == old(viewer.log) && viewer.Valid()
    ensures var sorted := SortByTime(parsed);
      var run := ExecuteAll(old(viewer.State()), InstantEvents(sorted, viewer.log.startTime));
      r == run.0 && viewer.State() == run.1
      && viewer.log.events == (if run.0.Failed? then sorted else BackFilled(sorted, viewer.log.objects))
      && DurationsOk(viewer.log.events)
  {
    var log := viewer.log;
    ghost var w0 := viewer.State();
    r := StartLog(viewer, parsed);
    ghost var w1 := viewer.State();
    if r.Failed? {
      return;
    }
    BackFilledDurationsOk(log.events, log.objects);
    log.FillDurations();
    assert viewer.State() == w1;
  }

  /** Installs the sorted events and runs the instant events. */
  method StartLog(viewer: AnimationViewer, parsed: seq<LogEvent>) returns (r: Outcome)
    requires viewer.Valid() && DurationsOk(parsed)
    modifies viewer.log`events, viewer`objects, viewer`variables, viewer`movements
    modifies viewer.queues.Values`members, viewer.resources.Values`currentState
    ensures viewer.log == old(viewer.log) && viewer.Valid()
    ensures viewer.log.events == SortByTime(parsed)
    ensures SortedByTime(viewer.log.events) && DurationsOk(viewer.log.events)
    ensures (r, viewer.State()) == ExecuteAll(old(viewer.State()), InstantEvents(viewer.log.events, viewer.log.startTime))
  {
    SortKeepsDurations(parsed);
    SortByTimeSorts(parsed);
    viewer.log.events := SortByTime(parsed);
    r := viewer.RunInstantEvents();
  }
}
