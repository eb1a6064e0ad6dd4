// sim/KSLAnimationLog.kt: what loading a whole log computes, as pure
// functions. A line is split at its first ": " into a time and a command,
// the command is offered to the event grammars in a fixed order, the
// parsed events are stably sorted by time, and every MOVE gets as duration
// the time to the next event that involves its object. The methods that
// carry this out on the log object are in event_cursor.dfy and
// log_load.dfy.

module LogLoading {
  import opened Common
  import opened Text
  import opened LogEvents
  import opened Replay

  const LINE_SEPARATOR: string := ": "

  // ------------------------------------------------------- parseLogLine

  /** The `find { it.parse(tokens) }` over the candidates Object, Queue,
      Resource, Move and Animation: the first that does not decline wins,
      and an exception of any candidate is the result. VariableEvent is not
      a candidate. */
  function CandidatesSpec(time: real, toks: seq<string>, view: SetupView, f: LogFields): (ParseOutcome, LogFields)
  {
    var o := ObjectEventSpec(time, toks, view, f);
    if !o.0.NoMatch? then o
    else
      var q := QueueEventSpec(time, toks, view, o.1);
      if !q.0.NoMatch? then q
      else
        var r := ResourceEventSpec(time, toks, view, q.1);
        if !r.0.NoMatch? then r
        else
          var m := MoveEventSpec(time, toks, view, r.1);
          if !m.0.NoMatch? then m
          else AnimationEventSpec(time, toks, m.1)
  }

  /** parseLogLine: no event for a line without ": " or whose text before
      it is not a number; otherwise the candidates on the rest split at
      single spaces. */
  function LineSpec(line: string, view: SetupView, f: LogFields): (ParseOutcome, LogFields)
  {
    match SplitAtFirst(line, LINE_SEPARATOR)
    case None => (NoMatch, f)
    case Some(parts) =>
      match ParseDouble(parts.0)
      case None => (NoMatch, f)
      case Some(time) => CandidatesSpec(time, Split(parts.1, ' '), view, f)
  }

  /** `lines.mapNotNull { parseLogLine(it) }`, in order, with the exception
      of the first line that throws ending the load. The recorded ids and
      times are those of every line parsed up to that point. */
  function LinesSpec(lines: seq<string>, view: SetupView, f: LogFields): (Result<seq<LogEvent>>, LogFields)
    decreases |lines|
  {
    if |lines| == 0 then (Ok([]), f)
    else
      var before := LinesSpec(lines[..|lines| - 1], view, f);
      if before.0.Err? then before
      else AddLine(before.0.value, LineSpec(lines[|lines| - 1], view, before.1))
  }

  /** The events so far after one more line: kept, dropped, or the load
      aborted. */
  function AddLine(parsed: seq<LogEvent>, line: (ParseOutcome, LogFields)): (Result<seq<LogEvent>>, LogFields)
  {
    match line.0
    case NoMatch => (Ok(parsed), line.1)
    case Matched(e) => (Ok(parsed + [e]), line.1)
    case Threw(e) => (Err(e), line.1)
  }

  // ------------------------------------------------------------- sortedBy

  predicate SortedByTime(s: seq<LogEvent>)
  {
    forall i, j :: 0 <= i < j < |s| ==> s[i].time <= s[j].time
  }

  /** Puts `e` before the first event that is not earlier. */
  function InsertByTime(e: LogEvent, s: seq<LogEvent>): seq<LogEvent>
  {
    if |s| == 0 || e.time <= s[0].time then [e] + s
    else [s[0]] + InsertByTime(e, s[1..])
  }

  /** `sortedBy { it.getTime() }`, a stable sort. */
  function SortByTime(s: seq<LogEvent>): seq<LogEvent>
  {
    if |s| == 0 then [] else InsertByTime(s[0], SortByTime(s[1..]))
  }

  /** The events of `s` at time `t`, in order. */
  function AtTime(s: seq<LogEvent>, t: real): seq<LogEvent>
  {
    if |s| == 0 then []
    else (if s[0].time == t then [s[0]] else []) + AtTime(s[1..], t)
  }

  // ------------------------------------------------------------- back-fill

  /** A MOVE with another duration; nothing else of it changes. */
  function WithDuration(e: LogEvent, d: real): (r: LogEvent)
    requires e.body.Move?
    ensures r.time == e.time && r.body.Move? && r.body.duration == d
    ensures r.body.objectId == e.body.objectId
  {
    e.(body := e.body.(duration := d))
  }

  /** The first index in [from, bound) whose event involves `id`. */
  function NextInvolving(evs: seq<LogEvent>, id: string, from: nat, bound: nat): (r: Option<nat>)
    requires from <= bound <= |evs|
    ensures r.Some? ==> from <= r.value < bound && InvolvesObject(evs[r.value], id)
    decreases bound - from
  {
    if from == bound then None
    else if InvolvesObject(evs[from], id) then Some(from)
    else NextInvolving(evs, id, from + 1, bound)
  }

  /** The last index below `bound` whose event involves `id`. */
  function LastInvolving(evs: seq<LogEvent>, id: string, bound: nat): (r: Option<nat>)
    requires bound <= |evs|
    ensures r.Some? ==> r.value < bound && InvolvesObject(evs[r.value], id)
  {
    if bound == 0 then None
    else if InvolvesObject(evs[bound - 1], id) then Some(bound - 1)
    else LastInvolving(evs, id, bound - 1)
  }

  /** Event `k` once its object's pass has looked at the events below
      `bound`: a MOVE takes the time to the next involving event seen. */
  function FilledMove(evs: seq<LogEvent>, k: nat, bound: nat): LogEvent
    requires k < |evs| && bound <= |evs|
  {
    if evs[k].body.Move? && k < bound then
      match NextInvolving(evs, evs[k].body.objectId, k + 1, bound)
      case Some(j) => WithDuration(evs[k], evs[j].time - evs[k].time)
      case None => evs[k]
    else evs[k]
  }

  /** The events after the passes for the ids `done` and the pass for `cur`
      up to (not including) event `bound`. */
  function PartlyFilled(evs: seq<LogEvent>, done: seq<string>, cur: string, bound: nat): (r: seq<LogEvent>)
    requires bound <= |evs|
    ensures |r| == |evs|
  {
    seq(|evs|, k requires 0 <= k < |evs| =>
      if evs[k].body.Move? && evs[k].body.objectId in done then FilledMove(evs, k, |evs|)
      else if evs[k].body.Move? && evs[k].body.objectId == cur then FilledMove(evs, k, bound)
      else evs[k])
  }

  /** The back-fill over the recorded ids `objects`. */
  function BackFilled(evs: seq<LogEvent>, objects: seq<string>): (r: seq<LogEvent>)
    ensures |r| == |evs|
  {
    seq(|evs|, k requires 0 <= k < |evs| =>
      if evs[k].body.Move? && evs[k].body.objectId in objects then FilledMove(evs, k, |evs|) else evs[k])
  }

  /** `a` is `b` with at most the duration of a MOVE changed. */
  predicate SameButDuration(a: LogEvent, b: LogEvent)
  {
    a.time == b.time && a.body.Move? == b.body.Move?
    && (b.body.Move? ==> a == WithDuration(b, a.body.duration))
    && (!b.body.Move? ==> a == b)
  }

  // ============================================================ properties

  /** A line without ": " yields no event and records nothing. */
  lemma LineWithoutSeparator(line: string, view: SetupView, f: LogFields)
    requires forall i :: 0 <= i <= |line| ==> !StartsWith(line[i..], LINE_SEPARATOR)
    ensures LineSpec(line, view, f) == (NoMatch, f)
  {
  }

  /** The line is cut at the FIRST ": " only: what follows may hold more.
      A prefix that is not a number yields no event. */
  lemma LineSplitAtFirstSeparator(a: string, b: string, view: SetupView, f: LogFields)
    requires forall i :: 0 <= i < |a| ==> !StartsWith((a + LINE_SEPARATOR + b)[i..], LINE_SEPARATOR)
    ensures ParseDouble(a).None? ==> LineSpec(a + LINE_SEPARATOR + b, view, f) == (NoMatch, f)
    ensures ParseDouble(a).Some? ==>
      LineSpec(a + LINE_SEPARATOR + b, view, f) == CandidatesSpec(ParseDouble(a).value, Split(b, ' '), view, f)
  {
    var s := a + LINE_SEPARATOR + b;
    assert s[|a|..][..2] == LINE_SEPARATOR;
    var r := SplitAtFirst(s, LINE_SEPARATOR);
    assert r.Some?;
    var a', b' := r.value.0, r.value.1;
    assert s[|a'|..][..2] == LINE_SEPARATOR;
    FirstOccurrenceUnique(s, LINE_SEPARATOR, |a|, |a'|);
    assert a' == s[..|a|] == a;
    assert b' == s[|a| + 2..] == b;
  }

  /** Two places that each start the first occurrence of `p` are one. */
  lemma FirstOccurrenceUnique(s: string, p: string, i: nat, j: nat)
    requires i <= |s| && j <= |s| && StartsWith(s[i..], p) && StartsWith(s[j..], p)
    requires forall m :: 0 <= m < i ==> !StartsWith(s[m..], p)
    requires forall m :: 0 <= m < j ==> !StartsWith(s[m..], p)
    ensures i == j
  {
  }

  /** Two spaces in a row give an empty token between the words. */
  lemma DoubledSpaceGivesEmptyToken(w1: string, w2: string)
    requires ' ' !in w1 && ' ' !in w2
    ensures Split(w1 + "  " + w2, ' ') == [w1, "", w2]
  {
    SplitAtSeparator(w1, ' ', " " + w2);
    assert w1 + "  " + w2 == w1 + [' '] + (" " + w2);
    SplitAtSeparator("", ' ', w2);
    assert " " + w2 == "" + [' '] + w2;
    SplitOfPlain(w2, ' ');
  }

  /** The first token decides the candidate: OBJECT, QUEUE, RESOURCE and
      MOVE lines are their own grammar's, START and STOP lines the
      animation mark's, and every other line (VARIABLE ones included)
      yields no event and records nothing. */
  lemma {:induction false} CandidatesByKeyword(time: real, toks: seq<string>, view: SetupView, f: LogFields)
    requires |toks| > 0
    ensures toks[0] == KEYWORD_OBJECT ==> CandidatesSpec(time, toks, view, f) == ObjectEventSpec(time, toks, view, f)
    ensures toks[0] == KEYWORD_QUEUE ==> CandidatesSpec(time, toks, view, f) == QueueEventSpec(time, toks, view, f)
    ensures toks[0] == KEYWORD_RESOURCE ==> CandidatesSpec(time, toks, view, f) == ResourceEventSpec(time, toks, view, f)
    ensures toks[0] == KEYWORD_MOVE ==> CandidatesSpec(time, toks, view, f) == MoveEventSpec(time, toks, view, f)
    ensures toks[0] in {KEYWORD_START, KEYWORD_STOP} ==> CandidatesSpec(time, toks, view, f) == AnimationEventSpec(time, toks, f)
    ensures toks[0] !in {KEYWORD_OBJECT, KEYWORD_QUEUE, KEYWORD_RESOURCE, KEYWORD_MOVE, KEYWORD_START, KEYWORD_STOP} ==>
      CandidatesSpec(time, toks, view, f) == (NoMatch, f)
  {
    ObjectKeywordDecides(time, toks, view, f);
    QueueKeywordDecides(time, toks, view, f);
    ResourceKeywordDecides(time, toks, view, f);
    MoveKeywordDecides(time, toks, view, f);
    AnimationKeywordDecides(time, toks, f);
  }

  /** One more line of a load that has not thrown. */
  lemma LinesSpecSnoc(lines: seq<string>, i: nat, view: SetupView, f: LogFields)
    requires i < |lines| && LinesSpec(lines[..i], view, f).0.Ok?
    ensures LinesSpec(lines[..i + 1], view, f)
      == AddLine(LinesSpec(lines[..i], view, f).0.value, LineSpec(lines[i], view, LinesSpec(lines[..i], view, f).1))
  {
    assert lines[..i + 1][..i] == lines[..i];
  }

  /** One round of the line loop: line i extends the events loaded so far,
      leaves them as they were, or aborts the load with its error. */
  lemma LinesStep(lines: seq<string>, i: nat, view: SetupView, f: LogFields, parsed: seq<LogEvent>,
                  before: LogFields, line: ParseOutcome, after: LogFields)
    requires i < |lines| && LinesSpec(lines[..i], view, f) == (Ok(parsed), before)
    requires (line, after) == LineSpec(lines[i], view, before)
    ensures line.Matched? ==> LinesSpec(lines[..i + 1], view, f) == (Ok(parsed + [line.event]), after)
    ensures line.NoMatch? ==> LinesSpec(lines[..i + 1], view, f) == (Ok(parsed), after)
    ensures line.Threw? ==> LinesSpec(lines[..i + 1], view, f) == (Err(line.error), after)
  {
    LinesSpecSnoc(lines, i, view, f);
  }

  /** A load that has aborted by line i stays aborted with the same error. */
  lemma AbortedAt(lines: seq<string>, i: nat, view: SetupView, f: LogFields)
    requires i < |lines| && LinesSpec(lines[..i + 1], view, f).0.Err?
    ensures LinesSpec(lines, view, f) == LinesSpec(lines[..i + 1], view, f)
  {
    ErrorAbortsLoad(lines[..i + 1], lines[i + 1..], view, f);
    assert lines[..i + 1] + lines[i + 1..] == lines;
  }

  /** A dropped line leaves the loaded events as they were. */
  lemma DroppedLineKeepsEvents(lines: seq<string>, line: string, view: SetupView, f: LogFields)
    requires LinesSpec(lines, view, f).0.Ok?
    requires LineSpec(line, view, LinesSpec(lines, view, f).1).0.NoMatch?
    ensures LinesSpec(lines + [line], view, f).0 == LinesSpec(lines, view, f).0
  {
    assert (lines + [line])[..|lines|] == lines;
  }

  /** One line that throws aborts the whole load: no later line matters. */
  lemma {:induction false} ErrorAbortsLoad(lines: seq<string>, more: seq<string>, view: SetupView, f: LogFields)
    requires LinesSpec(lines, view, f).0.Err?
    ensures LinesSpec(lines + more, view, f) == LinesSpec(lines, view, f)
    decreases |more|
  {
    if |more| > 0 {
      var m := more[..|more| - 1];
      assert (lines + more)[..|lines + more| - 1] == lines + m;
      ErrorAbortsLoad(lines, m, view, f);
    } else {
      assert lines + more == lines;
    }
  }

  /** A parsed MOVE has not been given a duration yet; no other grammar
      yields a MOVE. */
  lemma ParsedDurationsZero(time: real, toks: seq<string>, view: SetupView, f: LogFields)
    requires CandidatesSpec(time, toks, view, f).0.Matched?
    ensures DurationOk(CandidatesSpec(time, toks, view, f).0.event)
    ensures CandidatesSpec(time, toks, view, f).0.event.body.Move? ==>
      CandidatesSpec(time, toks, view, f).0.event.body.duration == 0.0
  {
    var o := ObjectEventSpec(time, toks, view, f);
    if o.0.NoMatch? {
      var q := QueueEventSpec(time, toks, view, o.1);
      if q.0.NoMatch? {
        var r := ResourceEventSpec(time, toks, view, q.1);
        if r.0.NoMatch? && MoveEventSpec(time, toks, view, r.1).0.Matched? {
          MoveParsedWithoutDuration(time, toks, view, r.1);
        }
      }
    }
  }

  lemma MoveParsedWithoutDuration(time: real, toks: seq<string>, view: SetupView, f: LogFields)
    requires MoveEventSpec(time, toks, view, f).0.Matched?
    ensures MoveEventSpec(time, toks, view, f).0.event.body.Move?
    ensures MoveEventSpec(time, toks, view, f).0.event.body.duration == 0.0
  {
  }

  /** Every event of a successful load has a duration of 0.0 if it is
      a MOVE. */
  lemma {:induction false} LoadedDurationsZero(lines: seq<string>, view: SetupView, f: LogFields)
    requires LinesSpec(lines, view, f).0.Ok?
    ensures forall e :: e in LinesSpec(lines, view, f).0.value ==> DurationOk(e) && (e.body.Move? ==> e.body.duration == 0.0)
    decreases |lines|
  {
    if |lines| > 0 {
      var before := LinesSpec(lines[..|lines| - 1], view, f);
      LoadedDurationsZero(lines[..|lines| - 1], view, f);
      var line := lines[|lines| - 1];
      match SplitAtFirst(line, LINE_SEPARATOR)
      case None =>
      case Some(parts) =>
        match ParseDouble(parts.0)
        case None =>
        case Some(time) =>
          if LineSpec(line, view, before.1).0.Matched? {
            ParsedDurationsZero(time, Split(parts.1, ' '), view, before.1);
          }
    }
  }

  /** The recorded ids stay a set: a parse adds an id only when it is new. */
  lemma CandidatesKeepIdsDistinct(time: real, toks: seq<string>, view: SetupView, f: LogFields)
    requires NoDuplicates(f.objects)
    ensures NoDuplicates(CandidatesSpec(time, toks, view, f).1.objects)
  {
    var o := ObjectEventSpec(time, toks, view, f);
    ObjectKeepsIdsDistinct(time, toks, view, f);
    if o.0.NoMatch? {
      var q := QueueEventSpec(time, toks, view, o.1);
      QueueKeepsIdsDistinct(time, toks, view, o.1);
      if q.0.NoMatch? {
        var r := ResourceEventSpec(time, toks, view, q.1);
        if r.0.NoMatch? {
          MoveKeepsIdsDistinct(time, toks, view, r.1);
        }
      }
    }
  }

  lemma ObjectKeepsIdsDistinct(time: real, toks: seq<string>, view: SetupView, f: LogFields)
    requires NoDuplicates(f.objects)
    ensures NoDuplicates(ObjectEventSpec(time, toks, view, f).1.objects)
  {
  }

  lemma QueueKeepsIdsDistinct(time: real, toks: seq<string>, view: SetupView, f: LogFields)
    requires NoDuplicates(f.objects)
    ensures NoDuplicates(QueueEventSpec(time, toks, view, f).1.objects)
  {
  }

  lemma MoveKeepsIdsDistinct(time: real, toks: seq<string>, view: SetupView, f: LogFields)
    requires NoDuplicates(f.objects)
    ensures NoDuplicates(MoveEventSpec(time, toks, view, f).1.objects)
  {
  }

  lemma {:induction false} LinesKeepIdsDistinct(lines: seq<string>, view: SetupView, f: LogFields)
    requires NoDuplicates(f.objects)
    ensures NoDuplicates(LinesSpec(lines, view, f).1.objects)
    decreases |lines|
  {
    if |lines| > 0 {
      var init := lines[..|lines| - 1];
      LinesKeepIdsDistinct(init, view, f);
      var before := LinesSpec(init, view, f);
      var line := lines[|lines| - 1];
      if before.0.Ok? {
        match SplitAtFirst(line, LINE_SEPARATOR)
        case None =>
        case Some(parts) =>
          match ParseDouble(parts.0)
          case None =>
          case Some(time) => CandidatesKeepIdsDistinct(time, Split(parts.1, ' '), view, before.1);
      }
    }
  }

  // ------------------------------------------------------- sort properties

  lemma {:induction false} InsertByTimePermutes(e: LogEvent, s: seq<LogEvent>)
    ensures multiset(InsertByTime(e, s)) == multiset(s) + multiset{e}
    decreases |s|
  {
    if |s| > 0 && e.time > s[0].time {
      InsertByTimePermutes(e, s[1..]);
      assert s == [s[0]] + s[1..];
    }
  }

  lemma {:induction false} InsertByTimeSorted(e: LogEvent, s: seq<LogEvent>)
    requires SortedByTime(s)
    ensures SortedByTime(InsertByTime(e, s))
    decreases |s|
  {
    if |s| > 0 && e.time > s[0].time {
      var rest := InsertByTime(e, s[1..]);
      InsertByTimeSorted(e, s[1..]);
      InsertByTimeBounded(e, s[1..], s[0].time);
      ConsSorted(s[0], rest);
    }
  }

  /** Inserting keeps every time at least `lo`. */
  lemma {:induction false} InsertByTimeBounded(e: LogEvent, s: seq<LogEvent>, lo: real)
    requires e.time >= lo && forall i :: 0 <= i < |s| ==> s[i].time >= lo
    ensures forall i :: 0 <= i < |InsertByTime(e, s)| ==> InsertByTime(e, s)[i].time >= lo
    decreases |s|
  {
    if |s| > 0 && e.time > s[0].time {
      InsertByTimeBounded(e, s[1..], lo);
    }
  }

  lemma ConsSorted(x: LogEvent, s: seq<LogEvent>)
    requires SortedByTime(s) && forall i :: 0 <= i < |s| ==> x.time <= s[i].time
    ensures SortedByTime([x] + s)
  {
    var r := [x] + s;
    forall i, j | 0 <= i < j < |r|
      ensures r[i].time <= r[j].time
    {
      assert r[j] == s[j - 1];
      if i > 0 {
        assert r[i] == s[i - 1];
      }
    }
  }

  /** The sorted events are ordered by time and are the same events. */
  lemma SortByTimeSorts(s: seq<LogEvent>)
    ensures SortedByTime(SortByTime(s))
    ensures multiset(SortByTime(s)) == multiset(s)
  {
    SortByTimePermutes(s);
    SortByTimeOrders(s);
  }

  lemma {:induction false} SortByTimePermutes(s: seq<LogEvent>)
    ensures multiset(SortByTime(s)) == multiset(s)
    decreases |s|
  {
    if |s| > 0 {
      SortByTimePermutes(s[1..]);
      InsertByTimePermutes(s[0], SortByTime(s[1..]));
      assert s == [s[0]] + s[1..];
    }
  }

  lemma {:induction false} SortByTimeOrders(s: seq<LogEvent>)
    ensures SortedByTime(SortByTime(s))
    decreases |s|
  {
    if |s| > 0 {
      SortByTimeOrders(s[1..]);
      InsertByTimeSorted(s[0], SortByTime(s[1..]));
    }
  }

  lemma AtTimeCons(x: LogEvent, s: seq<LogEvent>, t: real)
    ensures AtTime([x] + s, t) == (if x.time == t then [x] else []) + AtTime(s, t)
  {
    assert ([x] + s)[1..] == s;
  }

  lemma {:induction false} InsertByTimeStable(e: LogEvent, s: seq<LogEvent>, t: real)
    ensures AtTime(InsertByTime(e, s), t) == (if e.time == t then [e] else []) + AtTime(s, t)
    decreases |s|
  {
    if |s| == 0 || e.time <= s[0].time {
      AtTimeCons(e, s, t);
    } else {
      var rest := InsertByTime(e, s[1..]);
      InsertByTimeStable(e, s[1..], t);
      AtTimeCons(s[0], rest, t);
      AtTimeCons(s[0], s[1..], t);
      assert s == [s[0]] + s[1..];
      if e.time == t {
        assert AtTime(InsertByTime(e, s), t) == [e] + AtTime(s[1..], t);
      } else {
        assert AtTime(InsertByTime(e, s), t) == AtTime(s, t);
      }
    }
  }

  /** Stability: the events at any one time keep their input order. */
  lemma {:induction false} SortByTimeStable(s: seq<LogEvent>, t: real)
    ensures AtTime(SortByTime(s), t) == AtTime(s, t)
    decreases |s|
  {
    if |s| > 0 {
      SortByTimeStable(s[1..], t);
      InsertByTimeStable(s[0], SortByTime(s[1..]), t);
    }
  }

  lemma SortKeepsDurations(s: seq<LogEvent>)
    requires DurationsOk(s)
    ensures DurationsOk(SortByTime(s))
  {
    SortByTimeSorts(s);
    var r := SortByTime(s);
    forall i | 0 <= i < |r|
      ensures DurationOk(r[i])
    {
      assert r[i] in multiset(s);
    }
  }

  // -------------------------------------------------- back-fill properties

  lemma {:induction false} NextInvolvingNone(evs: seq<LogEvent>, id: string, from: nat, bound: nat)
    requires from <= bound <= |evs|
    ensures NextInvolving(evs, id, from, bound).None? <==> forall m :: from <= m < bound ==> !InvolvesObject(evs[m], id)
    ensures NextInvolving(evs, id, from, bound).Some? ==>
      forall m :: from <= m < NextInvolving(evs, id, from, bound).value ==> !InvolvesObject(evs[m], id)
    decreases bound - from
  {
    if from < bound {
      NextInvolvingNone(evs, id, from + 1, bound);
    }
  }

  lemma {:induction false} LastInvolvingNone(evs: seq<LogEvent>, id: string, bound: nat)
    requires bound <= |evs|
    ensures LastInvolving(evs, id, bound).None? ==> forall m :: 0 <= m < bound ==> !InvolvesObject(evs[m], id)
    ensures LastInvolving(evs, id, bound).Some? ==>
      forall m :: LastInvolving(evs, id, bound).value < m < bound ==> !InvolvesObject(evs[m], id)
  {
    if bound > 0 {
      LastInvolvingNone(evs, id, bound - 1);
    }
  }

  /** What the back-fill promises of one MOVE of a recorded object: its
      duration is the time to the first later event involving its object,
      or stays as it was when there is none. */
  lemma BackFilledMove(evs: seq<LogEvent>, objects: seq<string>, k: nat, j: nat)
    requires k < j < |evs| && evs[k].body.Move? && evs[k].body.objectId in objects
    requires InvolvesObject(evs[j], evs[k].body.objectId)
    requires forall m :: k < m < j ==> !InvolvesObject(evs[m], evs[k].body.objectId)
    ensures BackFilled(evs, objects)[k] == WithDuration(evs[k], evs[j].time - evs[k].time)
  {
    var n := NextInvolving(evs, evs[k].body.objectId, k + 1, |evs|);
    NextInvolvingNone(evs, evs[k].body.objectId, k + 1, |evs|);
    assert n == Some(j) by {
      if n.value < j {
      } else if n.value > j {
      }
    }
  }

  lemma BackFilledLastMove(evs: seq<LogEvent>, objects: seq<string>, k: nat)
    requires k < |evs| && evs[k].body.Move?
    requires forall m :: k < m < |evs| ==> !InvolvesObject(evs[m], evs[k].body.objectId)
    ensures BackFilled(evs, objects)[k] == evs[k]
  {
    NextInvolvingNone(evs, evs[k].body.objectId, k + 1, |evs|);
  }

  /** Only MOVEs of recorded objects change, and of them only the
      duration. */
  lemma BackFilledShape(evs: seq<LogEvent>, objects: seq<string>, k: nat)
    requires k < |evs|
    ensures SameButDuration(BackFilled(evs, objects)[k], evs[k])
    ensures !(evs[k].body.Move? && evs[k].body.objectId in objects) ==> BackFilled(evs, objects)[k] == evs[k]
  {
  }

  /** On sorted events every back-filled duration is non-negative. */
  lemma BackFilledDurationsOk(evs: seq<LogEvent>, objects: seq<string>)
    requires SortedByTime(evs) && DurationsOk(evs)
    ensures DurationsOk(BackFilled(evs, objects))
  {
    var r := BackFilled(evs, objects);
    forall k | 0 <= k < |r|
      ensures DurationOk(r[k])
    {
    }
  }

  /** A START or STOP ends the preceding MOVE of every object. */
  lemma AnimationMarkEndsMoves(evs: seq<LogEvent>, objects: seq<string>, k: nat, j: nat)
    requires k < j < |evs| && evs[k].body.Move? && evs[k].body.objectId in objects && evs[j].body.AnimationMark?
    requires forall m :: k < m < j ==> !InvolvesObject(evs[m], evs[k].body.objectId)
    ensures BackFilled(evs, objects)[k].body.duration == evs[j].time - evs[k].time
  {
    BackFilledMove(evs, objects, k, j);
  }

  // --------------------------------- the loop states of the back-fill pass

  lemma PartlyFilledShape(evs: seq<LogEvent>, done: seq<string>, cur: string, bound: nat, k: nat)
    requires bound <= |evs| && k < |evs|
    ensures SameButDuration(PartlyFilled(evs, done, cur, bound)[k], evs[k])
  {
  }

  /** Before a pass, its id is irrelevant; after the pass of `cur`, `cur`
      counts as done. */
  lemma PartlyFilledBoundaries(evs: seq<LogEvent>, done: seq<string>, cur: string, next: string)
    ensures PartlyFilled(evs, done, cur, 0) == PartlyFilled(evs, done, next, 0)
    ensures PartlyFilled(evs, done, cur, |evs|) == PartlyFilled(evs, done + [cur], next, 0)
    ensures PartlyFilled(evs, done, cur, 0) == BackFilled(evs, done)
  {
    forall k | 0 <= k < |evs|
      ensures PartlyFilled(evs, done, cur, 0)[k] == PartlyFilled(evs, done, next, 0)[k]
      ensures PartlyFilled(evs, done, cur, |evs|)[k] == PartlyFilled(evs, done + [cur], next, 0)[k]
    {
    }
  }

  lemma {:induction false} NextInvolvingExtend(evs: seq<LogEvent>, id: string, from: nat, bound: nat)
    requires from <= bound < |evs|
    ensures NextInvolving(evs, id, from, bound + 1) ==
      if NextInvolving(evs, id, from, bound).Some? then NextInvolving(evs, id, from, bound)
      else if InvolvesObject(evs[bound], id) then Some(bound) else None
    decreases bound - from
  {
    if from < bound {
      NextInvolvingExtend(evs, id, from + 1, bound);
    }
  }

  /** The event `k` of the pass of `cur` after looking at event `j`. */
  function AfterStep(evs: seq<LogEvent>, done: seq<string>, cur: string, j: nat): seq<LogEvent>
    requires j < |evs|
  {
    var p := LastInvolving(evs, cur, j);
    if InvolvesObject(evs[j], cur) && p.Some? && evs[p.value].body.Move? then
      PartlyFilled(evs, done, cur, j)[p.value := WithDuration(evs[p.value], evs[j].time - evs[p.value].time)]
    else PartlyFilled(evs, done, cur, j)
  }

  lemma FillStepAt(evs: seq<LogEvent>, done: seq<string>, cur: string, j: nat, k: nat)
    requires k < j < |evs| && cur !in done && evs[k].body.Move? && evs[k].body.objectId == cur
    ensures PartlyFilled(evs, done, cur, j + 1)[k] == AfterStep(evs, done, cur, j)[k]
  {
    FilledMoveStep(evs, cur, j, k);
  }

  /** One more event seen changes a MOVE of `cur` exactly when that event
      involves `cur` and the MOVE is the last such event before it. */
  lemma FilledMoveStep(evs: seq<LogEvent>, cur: string, j: nat, k: nat)
    requires k < j < |evs| && evs[k].body.Move? && evs[k].body.objectId == cur
    ensures FilledMove(evs, k, j + 1) ==
      if InvolvesObject(evs[j], cur) && LastInvolving(evs, cur, j) == Some(k)
      then WithDuration(evs[k], evs[j].time - evs[k].time) else FilledMove(evs, k, j)
  {
    if NextInvolving(evs, cur, k + 1, j).None? {
      FilledMoveStepUnended(evs, cur, j, k);
    } else {
      FilledMoveStepEnded(evs, cur, j, k);
    }
  }

  lemma FilledMoveStepUnended(evs: seq<LogEvent>, cur: string, j: nat, k: nat)
    requires k < j < |evs| && evs[k].body.Move? && evs[k].body.objectId == cur
    requires NextInvolving(evs, cur, k + 1, j).None?
    ensures LastInvolving(evs, cur, j) == Some(k)
    ensures FilledMove(evs, k, j) == evs[k]
    ensures FilledMove(evs, k, j + 1) ==
      if InvolvesObject(evs[j], cur) then WithDuration(evs[k], evs[j].time - evs[k].time) else evs[k]
  {
    NextInvolvingExtend(evs, cur, k + 1, j);
    NextInvolvingNone(evs, cur, k + 1, j);
    LastInvolvingIs(evs, cur, j, k);
  }

  lemma FilledMoveStepEnded(evs: seq<LogEvent>, cur: string, j: nat, k: nat)
    requires k < j < |evs| && evs[k].body.Move? && evs[k].body.objectId == cur
    requires NextInvolving(evs, cur, k + 1, j).Some?
    ensures LastInvolving(evs, cur, j) != Some(k)
    ensures FilledMove(evs, k, j + 1) == FilledMove(evs, k, j)
  {
    NextInvolvingExtend(evs, cur, k + 1, j);
    LastInvolvingAtLeast(evs, cur, j, NextInvolving(evs, cur, k + 1, j).value);
  }

  /** The last event below `bound` involving `id` is `k` when `k` involves
      it and nothing after `k` does. */
  lemma LastInvolvingIs(evs: seq<LogEvent>, id: string, bound: nat, k: nat)
    requires k < bound <= |evs| && InvolvesObject(evs[k], id)
    requires forall m :: k < m < bound ==> !InvolvesObject(evs[m], id)
    ensures LastInvolving(evs, id, bound) == Some(k)
    decreases bound
  {
    if k < bound - 1 {
      LastInvolvingIs(evs, id, bound - 1, k);
    }
  }

  /** The last event below `bound` involving `id` is at or after any event
      below `bound` that involves it. */
  lemma LastInvolvingAtLeast(evs: seq<LogEvent>, id: string, bound: nat, m: nat)
    requires m < bound <= |evs| && InvolvesObject(evs[m], id)
    ensures LastInvolving(evs, id, bound).Some? && LastInvolving(evs, id, bound).value >= m
    decreases bound
  {
    if m < bound - 1 {
      LastInvolvingAtLeast(evs, id, bound - 1, m);
    }
  }

  /** Looking at event `j` in the pass of `cur` changes only the last MOVE
      of `cur` before it, and only when event `j` involves `cur`. */
  lemma FillStep(evs: seq<LogEvent>, done: seq<string>, cur: string, j: nat)
    requires j < |evs| && cur !in done
    ensures PartlyFilled(evs, done, cur, j + 1) == AfterStep(evs, done, cur, j)
  {
    var b, c := PartlyFilled(evs, done, cur, j + 1), AfterStep(evs, done, cur, j);
    forall k | 0 <= k < |evs|
      ensures b[k] == c[k]
    {
      if k < j && evs[k].body.Move? && evs[k].body.objectId == cur {
        FillStepAt(evs, done, cur, j, k);
      } else if k == j {
        assert NextInvolving(evs, cur, k + 1, j + 1).None?;
      }
    }
  }

  /** One round of the pass of `cur` on the events as they stand, with `p`
      the last event involving `cur` below `j`: the round looks the same on
      them as on the original events and refills as FillStep states. */
  lemma FillRound(evs: seq<LogEvent>, done: seq<string>, cur: string, j: nat, p: Option<nat>)
    requires j < |evs| && cur !in done && p == LastInvolving(evs, cur, j)
    ensures var now := PartlyFilled(evs, done, cur, j);
      && InvolvesObject(now[j], cur) == InvolvesObject(evs[j], cur)
      && LastInvolving(evs, cur, j + 1) == (if InvolvesObject(evs[j], cur) then Some(j) else p)
      && PartlyFilled(evs, done, cur, j + 1) ==
           if InvolvesObject(now[j], cur) && p.Some? && now[p.value].body.Move?
           then now[p.value := WithDuration(now[p.value], now[j].time - now[p.value].time)]
           else now
  {
    var now := PartlyFilled(evs, done, cur, j);
    PartlyFilledShape(evs, done, cur, j, j);
    FillStep(evs, done, cur, j);
    if p.Some? {
      PartlyFilledShape(evs, done, cur, j, p.value);
    }
  }
}
