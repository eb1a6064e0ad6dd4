// The first prototype of the viewer (core/src/main/kotlin/ksl/animation/
// Main.kt): its log format and loader (KSLAnimationLog), the queue and
// resource renderables (KSLQueue, KSLResource) and DemoScreen's tick loop and
// event handling. A texture is represented by the id of the image it was
// decoded from; drawing and console output are not modelled.

module LegacyDemo {
  import opened Common
  import opened Text
  import Setup
  import Replay

  // ------------------------------------------------------------ setup data

  /** ResourceStates: the image shown in each of a resource's states. */
  datatype ResourceStates = ResourceStates(idle: string, active: string, busy: string)
  {
    /** getImage: "active" and "busy" show their own image, every other
        state the idle one. */
    function GetImage(state: string): (image: string)
      ensures image == idle || image == active || image == busy
    {
      if state == "active" then active
      else if state == "busy" then busy
      else idle
    }
  }

  /** KSLAnimationObject: one entry of the setup file. */
  datatype AnimationObject =
    | Image(id: string, data: string)
    | Queue(id: string, startPosition: Position, endPosition: Position, scale: real)
    | Resource(id: string, position: Position, states: ResourceStates, scale: real)
    | BaseEntity(id: string, image: string)
    | Entity(id: string, baseEntity: string, position: Position, scale: real, width: real, height: real)

  type BaseEntityObject = o: AnimationObject | o.BaseEntity? witness BaseEntity("", "")

  type EntityObject = o: AnimationObject | o.Entity? witness Entity("", "", Position(0.0, 0.0), 1.0, 1.0, 1.0)

  /** A log event; every kind carries its time. */
  datatype LogEvent =
    | Spawn(time: real, entityType: string, entityId: string)
    | QueueEvent(time: real, queueId: string, action: string, entityId: string)
    | ResourceEvent(time: real, resourceId: string, action: string, state: string)

  // -------------------------------------------------------- parseLogLine

  const Separator: string := ": "

  function Unquote(word: string): string
  {
    Trim(word, '"')
  }

  /** The event named by the space-separated words after the time: SPAWN
      reads its type from word 1 and its id from word 3, QUEUE its queue,
      action and entity from words 1 to 3, RESOURCE its resource from word 1,
      its action from word 3 and its state from word 4; quotes are trimmed
      off the names. Too few words throw IndexOutOfBounds; another first
      word gives no event. */
  function ParseEvent(time: real, words: seq<string>): (r: Result<Option<LogEvent>>)
    requires |words| >= 1
    ensures r.Err? ==> r.error == IndexOutOfBounds
    ensures r.Ok? && r.value.Some? ==> r.value.value.time == time
    ensures words[0] != "SPAWN" && words[0] != "QUEUE" && words[0] != "RESOURCE" ==> r == Ok(None)
  {
    if words[0] == "SPAWN" then
      if |words| < 4 then Err(IndexOutOfBounds)
      else Ok(Some(Spawn(time, Unquote(words[1]), Unquote(words[3]))))
    else if words[0] == "QUEUE" then
      if |words| < 4 then Err(IndexOutOfBounds)
      else Ok(Some(QueueEvent(time, Unquote(words[1]), words[2], Unquote(words[3]))))
    else if words[0] == "RESOURCE" then
      if |words| < 5 then Err(IndexOutOfBounds)
      else Ok(Some(ResourceEvent(time, Unquote(words[1]), words[3], Unquote(words[4]))))
    else Ok(None)
  }

  /** parseLogLine: no event for a line without ": " or whose text before
      the first ": " is not a number; otherwise the event words follow. */
  function ParseLogLine(line: string): (r: Result<Option<LogEvent>>)
    ensures SplitAtFirst(line, Separator).None? ==> r == Ok(None)
    ensures SplitAtFirst(line, Separator).Some? && ParseDouble(SplitAtFirst(line, Separator).value.0).None? ==> r == Ok(None)
  {
    match SplitAtFirst(line, Separator)
    case None => Ok(None)
    case Some(parts) =>
      match ParseDouble(parts.0)
      case None => Ok(None)
      case Some(time) => ParseEvent(time, Split(parts.1, ' '))
  }

  /** `mapNotNull { parseLogLine(it) }`: the events of the lines in order,
      the first line that throws ending the load. */
  function ParseLines(lines: seq<string>): (r: Result<seq<LogEvent>>)
    ensures r.Ok? <==> forall i :: 0 <= i < |lines| ==> ParseLogLine(lines[i]).Ok?
    ensures r.Ok? ==> |r.value| <= |lines|
    decreases |lines|
  {
    if |lines| == 0 then Ok([])
    else
      var first :- ParseLogLine(lines[0]);
      var rest :- ParseLines(lines[1..]);
      Ok((if first.Some? then [first.value] else []) + rest)
  }

  /** KSLAnimationLog's events: the parsed lines, stably sorted by time. */
  function LoadLog(logData: string): (r: Result<seq<LogEvent>>)
    ensures r.Ok? ==> SortedByTime(r.value)
    ensures r.Ok? <==> ParseLines(Lines(logData)).Ok?
  {
    var events :- ParseLines(Lines(logData));
    SortByTimeOrders(events);
    Ok(SortByTime(events))
  }

  // ------------------------------------------------- the format, written

  predicate PlainName(s: string)
  {
    |s| > 0 && ' ' !in s && '"' !in s && '\n' !in s && '\r' !in s
  }

  /** A log line: the integral time, ": ", and the command's words joined
      by single spaces. */
  function LogLine(t: int, words: seq<string>): string
  {
    IntToString(t) + Separator + Join(words, ' ')
  }

  /** `SPAWN "<type>" AS "<id>"`. */
  function SpawnWords(entityType: string, entityId: string): seq<string>
  {
    ["SPAWN", Quote(entityType), "AS", Quote(entityId)]
  }

  /** `QUEUE "<queue>" <action> "<id>"`. */
  function QueueWords(queueId: string, action: string, entityId: string): seq<string>
  {
    ["QUEUE", Quote(queueId), action, Quote(entityId)]
  }

  /** `RESOURCE "<resource>" SET STATE "<state>"`. */
  function ResourceWords(resourceId: string, state: string): seq<string>
  {
    ["RESOURCE", Quote(resourceId), "SET", "STATE", Quote(state)]
  }

  lemma NoColonInNumber(t: int)
    ensures forall i :: 0 <= i < |IntToString(t)| ==> IntToString(t)[i] != ':'
  {
    var s := IntToString(t);
    if t < 0 {
      assert s == "-" + NatToString(-t);
      forall i | 1 <= i < |s| ensures s[i] != ':' {
        assert s[i] == NatToString(-t)[i - 1];
      }
    }
  }

  /** A line's time and words: the time is read back from its digits and
      the text after ": " is split at its spaces. */
  lemma LineParts(t: int, words: seq<string>)
    requires |words| >= 1 && (forall i :: 0 <= i < |words| ==> ' ' !in words[i])
    ensures ParseLogLine(LogLine(t, words)) == ParseEvent(t as real, words)
  {
    NoColonInNumber(t);
    SplitAtFirstAfter(IntToString(t), Separator, Join(words, ' '));
    ParseDoubleOfIntToString(t);
    SplitOfJoin(words, ' ');
  }

  lemma QuotedWord(s: string)
    requires PlainName(s)
    ensures ' ' !in Quote(s) && '\n' !in Quote(s) && '\r' !in Quote(s)
    ensures Unquote(Quote(s)) == s
  {
    TrimOfQuote(s);
  }

  lemma KeywordsHaveNoSpace()
    ensures ' ' !in "SPAWN" && ' ' !in "AS" && ' ' !in "QUEUE"
    ensures ' ' !in "RESOURCE" && ' ' !in "SET" && ' ' !in "STATE"
  {
  }

  lemma KeywordsDiffer()
    ensures "QUEUE" != "SPAWN" && "RESOURCE" != "SPAWN" && "RESOURCE" != "QUEUE"
  {
    assert "QUEUE"[0] != "SPAWN"[0];
    assert |"RESOURCE"| != |"SPAWN"| && |"RESOURCE"| != |"QUEUE"|;
  }

  /** Words without spaces, as the list a line's command is split into. */
  lemma Separated(words: seq<string>)
    requires |words| <= 5
    requires |words| > 0 ==> ' ' !in words[0]
    requires |words| > 1 ==> ' ' !in words[1]
    requires |words| > 2 ==> ' ' !in words[2]
    requires |words| > 3 ==> ' ' !in words[3]
    requires |words| > 4 ==> ' ' !in words[4]
    ensures forall i :: 0 <= i < |words| ==> ' ' !in words[i]
  {
  }

  /** A SPAWN line of plain names reads back as the Spawn it describes. */
  lemma SpawnLineParses(t: int, entityType: string, entityId: string)
    requires PlainName(entityType) && PlainName(entityId)
    ensures ParseLogLine(LogLine(t, SpawnWords(entityType, entityId))) == Ok(Some(Spawn(t as real, entityType, entityId)))
  {
    QuotedWord(entityType);
    QuotedWord(entityId);
    KeywordsHaveNoSpace();
    Separated(SpawnWords(entityType, entityId));
    LineParts(t, SpawnWords(entityType, entityId));
  }

  /** A QUEUE line reads back as its QueueEvent. */
  lemma QueueLineParses(t: int, queueId: string, action: string, entityId: string)
    requires PlainName(queueId) && PlainName(action) && PlainName(entityId)
    ensures ParseLogLine(LogLine(t, QueueWords(queueId, action, entityId))) == Ok(Some(QueueEvent(t as real, queueId, action, entityId)))
  {
    QuotedWord(queueId);
    QuotedWord(entityId);
    KeywordsHaveNoSpace();
    KeywordsDiffer();
    Separated(QueueWords(queueId, action, entityId));
    LineParts(t, QueueWords(queueId, action, entityId));
  }

  /** A RESOURCE ... SET STATE line reads back as a ResourceEvent whose
      action is the word STATE (the fourth word) and whose state is the
      quoted name. */
  lemma ResourceLineParses(t: int, resourceId: string, state: string)
    requires PlainName(resourceId) && PlainName(state)
    ensures ParseLogLine(LogLine(t, ResourceWords(resourceId, state))) == Ok(Some(ResourceEvent(t as real, resourceId, "STATE", state)))
  {
    ResourceWordsSeparated(resourceId, state);
    LineParts(t, ResourceWords(resourceId, state));
    ResourceWordsRead(t as real, resourceId, state);
  }

  lemma ResourceWordsSeparated(resourceId: string, state: string)
    requires PlainName(resourceId) && PlainName(state)
    ensures forall i :: 0 <= i < |ResourceWords(resourceId, state)| ==> ' ' !in ResourceWords(resourceId, state)[i]
  {
    var w := ResourceWords(resourceId, state);
    QuotedWord(resourceId);
    QuotedWord(state);
    KeywordsHaveNoSpace();
    assert ' ' !in w[0] && ' ' !in w[2] && ' ' !in w[3];
    assert ' ' !in w[1] && ' ' !in w[4];
    Separated(w);
  }

  lemma ResourceWordsRead(time: real, resourceId: string, state: string)
    requires PlainName(resourceId) && PlainName(state)
    ensures ParseEvent(time, ResourceWords(resourceId, state)) == Ok(Some(ResourceEvent(time, resourceId, "STATE", state)))
  {
    QuotedWord(resourceId);
    QuotedWord(state);
    KeywordsDiffer();
  }

  /** Lines that each hold one event load as those events, in order. */
  lemma {:induction false} ParseLinesOfEvents(lines: seq<string>, events: seq<LogEvent>)
    requires |lines| == |events|
    requires forall i :: 0 <= i < |lines| ==> ParseLogLine(lines[i]) == Ok(Some(events[i]))
    ensures ParseLines(lines) == Ok(events)
    decreases |lines|
  {
    if |lines| > 0 {
      ParseLinesOfEvents(lines[1..], events[1..]);
      ParseLinesCons(lines, events[0], events[1..]);
      assert events == [events[0]] + events[1..];
    }
  }

  lemma ParseLinesCons(lines: seq<string>, e: LogEvent, rest: seq<LogEvent>)
    requires |lines| > 0 && ParseLogLine(lines[0]) == Ok(Some(e)) && ParseLines(lines[1..]) == Ok(rest)
    ensures ParseLines(lines) == Ok([e] + rest)
  {
  }

  /** A log written one line per event, joined by "\n", splits back into
      its lines. */
  lemma {:induction false} LinesOfJoin(lines: seq<string>)
    requires |lines| >= 1 && forall i :: 0 <= i < |lines| ==> '\n' !in lines[i] && '\r' !in lines[i]
    ensures Lines(Join(lines, '\n')) == lines
  {
    CharNotInJoin(lines, '\n', '\r');
    LinesWithoutCarriageReturn(Join(lines, '\n'));
    SplitOfJoin(lines, '\n');
  }

  // ---------------------------------------------------------- sortedBy

  predicate SortedByTime(s: seq<LogEvent>)
  {
    forall i, j :: 0 <= i < j < |s| ==> s[i].time <= s[j].time
  }

  /** Inserts `e` before the first event later than it (after every event
      at the same time). */
  function InsertByTime(e: LogEvent, s: seq<LogEvent>): seq<LogEvent>
  {
    if |s| == 0 || e.time < s[0].time then [e] + s
    else [s[0]] + InsertByTime(e, s[1..])
  }

  /** `sortedBy { time }`, a stable sort: insertion from the back. */
  function SortByTime(s: seq<LogEvent>): seq<LogEvent>
  {
    if |s| == 0 then [] else InsertByTime(s[|s| - 1], SortByTime(s[..|s| - 1]))
  }

  /** The events at time `t`, in order. */
  function AtTime(s: seq<LogEvent>, t: real): seq<LogEvent>
  {
    if |s| == 0 then []
    else AtTime(s[..|s| - 1], t) + (if s[|s| - 1].time == t then [s[|s| - 1]] else [])
  }

  lemma {:induction false} InsertByTimePermutes(e: LogEvent, s: seq<LogEvent>)
    ensures multiset(InsertByTime(e, s)) == multiset(s) + multiset{e}
  {
    if |s| > 0 && e.time >= s[0].time {
      InsertByTimePermutes(e, s[1..]);
      assert s == [s[0]] + s[1..];
    }
  }

  lemma {:induction false} InsertByTimeBounded(e: LogEvent, s: seq<LogEvent>, lo: real)
    requires e.time >= lo && forall i :: 0 <= i < |s| ==> s[i].time >= lo
    ensures forall i :: 0 <= i < |InsertByTime(e, s)| ==> InsertByTime(e, s)[i].time >= lo
  {
    if |s| > 0 && e.time >= s[0].time {
      InsertByTimeBounded(e, s[1..], lo);
    }
  }

  lemma {:induction false} InsertByTimeSorted(e: LogEvent, s: seq<LogEvent>)
    requires SortedByTime(s)
    ensures SortedByTime(InsertByTime(e, s))
  {
    if |s| > 0 && e.time >= s[0].time {
      var rest := InsertByTime(e, s[1..]);
      InsertByTimeSorted(e, s[1..]);
      InsertByTimeBounded(e, s[1..], s[0].time);
      var r := [s[0]] + rest;
      forall i, j | 0 <= i < j < |r| ensures r[i].time <= r[j].time {
        if i > 0 { assert r[i] == rest[i - 1] && r[j] == rest[j - 1]; }
      }
    }
  }

  lemma {:induction false} SortByTimeOrders(s: seq<LogEvent>)
    ensures SortedByTime(SortByTime(s))
  {
    if |s| > 0 {
      SortByTimeOrders(s[..|s| - 1]);
      InsertByTimeSorted(s[|s| - 1], SortByTime(s[..|s| - 1]));
    }
  }

  lemma {:induction false} SortByTimePermutes(s: seq<LogEvent>)
    ensures multiset(SortByTime(s)) == multiset(s)
  {
    if |s| > 0 {
      SortByTimePermutes(s[..|s| - 1]);
      InsertByTimePermutes(s[|s| - 1], SortByTime(s[..|s| - 1]));
      assert s == s[..|s| - 1] + [s[|s| - 1]];
    }
  }

  lemma {:induction false} AtTimeOfCons(x: LogEvent, s: seq<LogEvent>, t: real)
    ensures AtTime([x] + s, t) == (if x.time == t then [x] else []) + AtTime(s, t)
    decreases |s|
  {
    if |s| > 0 {
      var q := [x] + s;
      assert q[..|q| - 1] == [x] + s[..|s| - 1];
      AtTimeOfCons(x, s[..|s| - 1], t);
    } else {
      assert ([x] + s)[..0] == [];
    }
  }

  /** Inserting `e` puts it after every event already at its time. */
  lemma {:induction false} InsertByTimeStable(e: LogEvent, s: seq<LogEvent>, t: real)
    requires SortedByTime(s)
    ensures AtTime(InsertByTime(e, s), t) == AtTime(s, t) + (if e.time == t then [e] else [])
  {
    if |s| == 0 || e.time < s[0].time {
      InsertedFirstStable(e, s, t);
    } else {
      var rest := s[1..];
      assert SortedByTime(rest) by {
        forall i, j | 0 <= i < j < |rest| ensures rest[i].time <= rest[j].time {
          assert rest[i] == s[i + 1] && rest[j] == s[j + 1];
        }
      }
      InsertByTimeStable(e, rest, t);
      InsertedLaterStable(e, s, t);
    }
  }

  lemma InsertedFirstStable(e: LogEvent, s: seq<LogEvent>, t: real)
    requires SortedByTime(s) && (|s| == 0 || e.time < s[0].time)
    ensures AtTime(InsertByTime(e, s), t) == AtTime(s, t) + (if e.time == t then [e] else [])
  {
    assert InsertByTime(e, s) == [e] + s;
    AtTimeOfCons(e, s, t);
    if |s| > 0 {
      NoneLaterAtTime(s, e.time);
    }
  }

  lemma InsertedLaterStable(e: LogEvent, s: seq<LogEvent>, t: real)
    requires |s| > 0 && e.time >= s[0].time
    requires AtTime(InsertByTime(e, s[1..]), t) == AtTime(s[1..], t) + (if e.time == t then [e] else [])
    ensures AtTime(InsertByTime(e, s), t) == AtTime(s, t) + (if e.time == t then [e] else [])
  {
    assert InsertByTime(e, s) == [s[0]] + InsertByTime(e, s[1..]);
    AtTimeOfCons(s[0], InsertByTime(e, s[1..]), t);
    AtTimeOfCons(s[0], s[1..], t);
    assert [s[0]] + s[1..] == s;
  }

  /** A sorted sequence starting later than `t` has no event at `t`. */
  lemma {:induction false} NoneLaterAtTime(s: seq<LogEvent>, t: real)
    requires SortedByTime(s) && |s| > 0 && t < s[0].time
    ensures AtTime(s, t) == []
    decreases |s|
  {
    if |s| > 1 {
      NoneLaterAtTime(s[..|s| - 1], t);
    }
  }

  /** The sort keeps the events of every time in their log order. */
  lemma {:induction false} SortByTimeStable(s: seq<LogEvent>, t: real)
    ensures AtTime(SortByTime(s), t) == AtTime(s, t)
  {
    if |s| > 0 {
      SortByTimeStable(s[..|s| - 1], t);
      SortByTimeOrders(s[..|s| - 1]);
      InsertByTimeStable(s[|s| - 1], SortByTime(s[..|s| - 1]), t);
    }
  }

  /** The loaded log is a stable sort of the parsed lines: sorted, with the
      same events, and the events of one time in their line order. */
  lemma LoadLogSorts(logData: string, t: real)
    requires ParseLines(Lines(logData)).Ok?
    ensures var parsed := ParseLines(Lines(logData)).value;
      && LoadLog(logData) == Ok(SortByTime(parsed))
      && SortedByTime(LoadLog(logData).value)
      && multiset(LoadLog(logData).value) == multiset(parsed)
      && AtTime(LoadLog(logData).value, t) == AtTime(parsed, t)
  {
    var parsed := ParseLines(Lines(logData)).value;
    SortByTimeOrders(parsed);
    SortByTimePermutes(parsed);
    SortByTimeStable(parsed, t);
  }

  // ---------------------------------------------------- the screen's world

  /** What events can observe and change: the spawned entities, the members
      of each queue, each resource's state and the sprites, one per image
      id. */
  datatype DemoWorld = DemoWorld(
    entities: map<string, EntityObject>,
    queued: map<string, map<string, EntityObject>>,
    states: map<string, string>,
    sprites: seq<string>)

  /** What the setup fixed: the images that decoded and the base entities. */
  datatype DemoSetup = DemoSetup(images: set<string>, baseEntities: map<string, BaseEntityObject>)

  /** A new entity: at the origin, unit scale and size. */
  function Spawned(entityId: string, entityType: string): (e: EntityObject)
    ensures e.id == entityId && e.baseEntity == entityType
  {
    Entity(entityId, entityType, Position(0.0, 0.0), 1.0, 1.0, 1.0)
  }

  /** processEvent: a spawn of a known base entity registers a new entity
      under its id, adding a sprite when the base entity's image loaded;
      a JOIN adds a known entity to a known queue, a LEAVE takes the id out
      of it; a resource event sets a known resource's state. Anything
      unknown is ignored. */
  function Process(setup: DemoSetup, w: DemoWorld, e: LogEvent): (r: DemoWorld)
    ensures r.queued.Keys == w.queued.Keys && r.states.Keys == w.states.Keys
    ensures w.entities.Keys <= r.entities.Keys
    ensures |w.sprites| <= |r.sprites| && r.sprites[..|w.sprites|] == w.sprites
  {
    match e
    case Spawn(_, entityType, entityId) =>
      if entityType in setup.baseEntities then
        var base := setup.baseEntities[entityType];
        w.(entities := w.entities[entityId := Spawned(entityId, entityType)],
           sprites := w.sprites + (if base.image in setup.images then [base.image] else []))
      else w
    case QueueEvent(_, queueId, action, entityId) =>
      if queueId !in w.queued then w
      else if action == "JOIN" then
        if entityId in w.entities then
          var entity := w.entities[entityId];
          w.(queued := w.queued[queueId := w.queued[queueId][entity.id := entity]])
        else w
      else if action == "LEAVE" then
        w.(queued := w.queued[queueId := w.queued[queueId] - {entityId}])
      else w
    case ResourceEvent(_, resourceId, _, state) =>
      if resourceId in w.states then w.(states := w.states[resourceId := state]) else w
  }

  /** processEvent is lenient: an unknown base entity, queue, queue action,
      joining entity or resource leaves everything unchanged. */
  lemma ProcessIsLenient(setup: DemoSetup, w: DemoWorld, e: LogEvent)
    ensures e.Spawn? && e.entityType !in setup.baseEntities ==> Process(setup, w, e) == w
    ensures e.QueueEvent? && e.queueId !in w.queued ==> Process(setup, w, e) == w
    ensures e.QueueEvent? && e.action != "JOIN" && e.action != "LEAVE" ==> Process(setup, w, e) == w
    ensures e.QueueEvent? && e.action == "JOIN" && e.entityId !in w.entities ==> Process(setup, w, e) == w
    ensures e.ResourceEvent? && e.resourceId !in w.states ==> Process(setup, w, e) == w
  {
  }

  /** The events `evs` processed in order. */
  function ProcessAll(setup: DemoSetup, w: DemoWorld, evs: seq<LogEvent>): DemoWorld
  {
    if |evs| == 0 then w
    else Process(setup, ProcessAll(setup, w, evs[..|evs| - 1]), evs[|evs| - 1])
  }

  lemma {:induction false} ProcessAllAppend(setup: DemoSetup, w: DemoWorld, a: seq<LogEvent>, b: seq<LogEvent>)
    ensures ProcessAll(setup, w, a + b) == ProcessAll(setup, ProcessAll(setup, w, a), b)
    decreases |b|
  {
    if |b| == 0 {
      assert a + b == a;
    } else {
      assert (a + b)[..|a + b| - 1] == a + b[..|b| - 1];
      ProcessAllAppend(setup, w, a, b[..|b| - 1]);
    }
  }

  /** Every entity is registered under its own id and from a known base
      entity, every queue member is a spawned entity's id under which its
      own id is stored, and every sprite's image loaded. */
  predicate WorldOk(setup: DemoSetup, w: DemoWorld)
  {
    (forall k :: k in w.entities ==> w.entities[k].id == k && w.entities[k].baseEntity in setup.baseEntities)
    && (forall q, k :: q in w.queued && k in w.queued[q] ==> k in w.entities && w.queued[q][k].id == k)
    && (forall i :: 0 <= i < |w.sprites| ==> w.sprites[i] in setup.images)
  }

  lemma ProcessKeepsWorldOk(setup: DemoSetup, w: DemoWorld, e: LogEvent)
    requires WorldOk(setup, w)
    ensures WorldOk(setup, Process(setup, w, e))
  {
    var r := Process(setup, w, e);
    if e.Spawn? && e.entityType in setup.baseEntities {
      assert forall i :: 0 <= i < |w.sprites| ==> r.sprites[i] == w.sprites[i];
    }
  }

  lemma {:induction false} ProcessAllKeepsWorldOk(setup: DemoSetup, w: DemoWorld, evs: seq<LogEvent>)
    requires WorldOk(setup, w)
    ensures WorldOk(setup, ProcessAll(setup, w, evs))
    decreases |evs|
  {
    if |evs| > 0 {
      ProcessAllKeepsWorldOk(setup, w, evs[..|evs| - 1]);
      ProcessKeepsWorldOk(setup, ProcessAll(setup, w, evs[..|evs| - 1]), evs[|evs| - 1]);
    }
  }

  // ----------------------------------------------------------- the ticks

  /** `1f / ticksPerSecond` with ticksPerSecond = 5. */
  const TicksPerSecond: nat := 5
  const Quantum: real := 0.2

  /** Where the event loop of one tick stops: the first event from `c` on
      that is later than `t`, or the end of the log. Every event it passes
      is due. */
  function FirstLater(evs: seq<LogEvent>, c: nat, t: real): (j: nat)
    requires c <= |evs|
    ensures c <= j <= |evs|
    ensures forall i :: c <= i < j ==> evs[i].time <= t
    ensures j < |evs| ==> evs[j].time > t
    decreases |evs| - c
  {
    if c == |evs| || evs[c].time > t then c else FirstLater(evs, c + 1, t)
  }

  /** Resuming at a later time from where an earlier one stopped ends where
      a single pass at the later time does: it does not matter whether the
      log is sorted. */
  lemma {:induction false} FirstLaterResumes(evs: seq<LogEvent>, c: nat, t: real, u: real)
    requires c <= |evs| && t <= u
    ensures FirstLater(evs, FirstLater(evs, c, t), u) == FirstLater(evs, c, u)
    decreases |evs| - c
  {
    if c < |evs| && evs[c].time <= t {
      FirstLaterResumes(evs, c + 1, t, u);
    }
  }

  /** The screen's cursor and clocks. */
  datatype Clock = Clock(currentEvent: nat, ticks: int, timer: real)

  /** One render of `delta` seconds: the timer grows by delta; while it is
      STRICTLY more than a quantum, one quantum is taken off, the tick count
      goes up and the due events run. */
  function RenderClock(evs: seq<LogEvent>, c: Clock, delta: real): (r: Clock)
    requires c.currentEvent <= |evs|
    ensures c.currentEvent <= r.currentEvent <= |evs| && r.ticks >= c.ticks
    ensures r.timer <= Quantum
  {
    TickLoopClock(evs, c.(timer := c.timer + delta))
  }

  /** The tick loop alone, on the grown timer. */
  function TickLoopClock(evs: seq<LogEvent>, c: Clock): (r: Clock)
    requires c.currentEvent <= |evs|
    ensures c.currentEvent <= r.currentEvent <= |evs| && r.ticks >= c.ticks
    ensures r.timer <= Quantum
  {
    var n := Replay.Quanta(c.timer, Quantum);
    Clock(if n == 0 then c.currentEvent else FirstLater(evs, c.currentEvent, (c.ticks + n) as real),
          c.ticks + n, Replay.Leftover(c.timer, Quantum))
  }

  /** The events a render runs are exactly the due ones: every event from
      the cursor up to the new cursor is at or before the new tick count,
      the event at the new cursor is later, and without a tick nothing runs;
      no time is lost from the timer. */
  lemma RenderRunsDueEvents(evs: seq<LogEvent>, c: Clock, delta: real)
    requires c.currentEvent <= |evs|
    ensures var r := RenderClock(evs, c, delta);
      && (forall i :: c.currentEvent <= i < r.currentEvent ==> evs[i].time <= r.ticks as real)
      && (r.ticks > c.ticks && r.currentEvent < |evs| ==> evs[r.currentEvent].time > r.ticks as real)
      && (r.ticks == c.ticks ==> r.currentEvent == c.currentEvent)
      && r.timer == c.timer + delta - (r.ticks - c.ticks) as real * Quantum
  {
    Replay.LeftoverAccounting(c.timer + delta, Quantum);
  }

  /** The tick loop is strict: a timer that reaches exactly one quantum
      does not tick, one just over it ticks once. */
  lemma TickLoopIsStrict(evs: seq<LogEvent>, c: nat, ticks: int)
    requires c <= |evs|
    ensures RenderClock(evs, Clock(c, ticks, 0.0), Quantum).ticks == ticks
    ensures RenderClock(evs, Clock(c, ticks, 0.0), Quantum + 0.1).ticks == ticks + 1
  {
    Replay.QuantaStep(Quantum + 0.1, Quantum);
  }

  // --------------------------------------------------- queue and resource

  /** KSLQueue: the entities waiting in a queue, by id. */
  class DemoQueue {
    const startPosition: Position
    const endPosition: Position
    const scale: real
    var entities: map<string, EntityObject>

    constructor (startPosition: Position, endPosition: Position, scale: real)
      ensures this.startPosition == startPosition && this.endPosition == endPosition && this.scale == scale
      ensures entities == map[]
    {
      this.startPosition, this.endPosition, this.scale := startPosition, endPosition, scale;
      entities := map[];
    }

    /** addEntity: `entities[entity.id] = entity`. */
    method AddEntity(entity: EntityObject)
      modifies this`entities
      ensures entities == old(entities)[entity.id := entity]
    {
      entities := entities[entity.id := entity];
    }

    /** removeEntity: the id is no longer in the queue. */
    method RemoveEntity(entityId: string)
      modifies this`entities
      ensures entities == old(entities) - {entityId}
    {
      entities := entities - {entityId};
    }
  }

  /** KSLResource: a resource's state, "idle" at first. */
  class DemoResource {
    const position: Position
    const states: ResourceStates
    const scale: real
    var currentState: string

    constructor (position: Position, states: ResourceStates, scale: real)
      ensures this.position == position && this.states == states && this.scale == scale
      ensures currentState == "idle"
    {
      this.position, this.states, this.scale := position, states, scale;
      currentState := "idle";
    }

    method SetState(state: string)
      modifies this`currentState
      ensures currentState == state
    {
      currentState := state;
    }
  }

  lemma NoneQueued(qs: map<string, DemoQueue>)
    requires forall k :: k in qs ==> qs[k].entities == map[]
    ensures (map k | k in qs :: qs[k].entities) == (map k | k in qs :: map[])
  {
  }

  lemma AllIdle(rs: map<string, DemoResource>)
    requires forall k :: k in rs ==> rs[k].currentState == "idle"
    ensures (map k | k in rs :: rs[k].currentState) == (map k | k in rs :: "idle")
  {
  }

  predicate Distinct<V(==)>(m: map<string, V>)
  {
    forall a, b :: a in m && b in m && a != b ==> m[a] != m[b]
  }

  // ------------------------------------------------------------ loading

  function ImagePick(decodes: string -> bool): AnimationObject -> Option<(string, ())>
  {
    (o: AnimationObject) => if o.Image? && decodes(o.data) then Some((o.id, ())) else None
  }

  function BaseEntityPick(o: AnimationObject): Option<(string, BaseEntityObject)>
  {
    if o.BaseEntity? then var b: BaseEntityObject := o; Some((o.id, b)) else None
  }

  function QueuePick(o: AnimationObject): Option<(string, (Position, Position, real))>
  {
    if o.Queue? then Some((o.id, (o.startPosition, o.endPosition, o.scale))) else None
  }

  function ResourcePick(o: AnimationObject): Option<(string, (Position, ResourceStates, real))>
  {
    if o.Resource? then Some((o.id, (o.position, o.states, o.scale))) else None
  }

  function QueueShapes(qs: map<string, DemoQueue>): map<string, (Position, Position, real)>
  {
    map k | k in qs :: (qs[k].startPosition, qs[k].endPosition, qs[k].scale)
  }

  function ResourceShapes(rs: map<string, DemoResource>): map<string, (Position, ResourceStates, real)>
  {
    map k | k in rs :: (rs[k].position, rs[k].states, rs[k].scale)
  }

  /** `images[it.id] = Texture(...)` for every image whose data decodes
      (`decodes` stands for Base64 and Pixmap decoding; a failure is only
      printed). */
  method LoadImages(objects: seq<AnimationObject>, decodes: string -> bool) returns (images: set<string>)
    ensures images == Setup.Collect(objects, ImagePick(decodes)).Keys
  {
    images := {};
    var i := 0;
    while i < |objects|
      invariant i <= |objects| && images == Setup.Collect(objects[..i], ImagePick(decodes)).Keys
    {
      Setup.CollectStep(objects, ImagePick(decodes), i);
      var o := objects[i];
      if o.Image? && decodes(o.data) {
        images := images + {o.id};
      }
      i := i + 1;
    }
    assert objects[..i] == objects;
  }

  method LoadBaseEntities(objects: seq<AnimationObject>) returns (bases: map<string, BaseEntityObject>)
    ensures bases == Setup.Collect(objects, BaseEntityPick)
  {
    bases := map[];
    var i := 0;
    while i < |objects|
      invariant i <= |objects| && bases == Setup.Collect(objects[..i], BaseEntityPick)
    {
      Setup.CollectStep(objects, BaseEntityPick, i);
      var o := objects[i];
      if o.BaseEntity? {
        bases := bases[o.id := o];
      }
      i := i + 1;
    }
    assert objects[..i] == objects;
  }

  /** `queues[it.id] = KSLQueue(...)`: a new empty queue per queue entry. */
  method LoadQueues(objects: seq<AnimationObject>) returns (qs: map<string, DemoQueue>)
    ensures Distinct(qs) && QueueShapes(qs) == Setup.Collect(objects, QueuePick)
    ensures forall k :: k in qs ==> fresh(qs[k]) && qs[k].entities == map[]
  {
    qs := map[];
    var i := 0;
    while i < |objects|
      invariant i <= |objects| && Distinct(qs) && QueueShapes(qs) == Setup.Collect(objects[..i], QueuePick)
      invariant forall k :: k in qs ==> fresh(qs[k]) && qs[k].entities == map[]
    {
      Setup.CollectStep(objects, QueuePick, i);
      var o := objects[i];
      if o.Queue? {
        var q := new DemoQueue(o.startPosition, o.endPosition, o.scale);
        qs := qs[o.id := q];
      }
      i := i + 1;
    }
    assert objects[..i] == objects;
  }

  /** `resources[it.id] = KSLResource(...)`: a new idle resource per
      resource entry. */
  method LoadResources(objects: seq<AnimationObject>) returns (rs: map<string, DemoResource>)
    ensures Distinct(rs) && ResourceShapes(rs) == Setup.Collect(objects, ResourcePick)
    ensures forall k :: k in rs ==> fresh(rs[k]) && rs[k].currentState == "idle"
  {
    rs := map[];
    var i := 0;
    while i < |objects|
      invariant i <= |objects| && Distinct(rs) && ResourceShapes(rs) == Setup.Collect(objects[..i], ResourcePick)
      invariant forall k :: k in rs ==> fresh(rs[k]) && rs[k].currentState == "idle"
    {
      Setup.CollectStep(objects, ResourcePick, i);
      var o := objects[i];
      if o.Resource? {
        var r := new DemoResource(o.position, o.states, o.scale);
        rs := rs[o.id := r];
      }
      i := i + 1;
    }
    assert objects[..i] == objects;
  }

  // ------------------------------------------------------------ the screen

  /** DemoScreen: the registries the setup filled, the log, and the state
      the ticks change. */
  class DemoScreen {
    const images: set<string>
    const baseEntities: map<string, BaseEntityObject>
    const queues: map<string, DemoQueue>
    const resources: map<string, DemoResource>
    const events: seq<LogEvent>
    var entities: map<string, EntityObject>
    var sprites: seq<string>
    var currentEvent: nat
    var ticks: int
    var timer: real

    /** No two queue ids share a queue, no two resource ids a resource, and
        the cursor is within the log. */
    ghost predicate Valid()
      reads this`currentEvent
    {
      Unaliased() && currentEvent <= |events|
    }

    ghost predicate Unaliased()
    {
      Distinct(queues) && Distinct(resources)
    }

    function Loaded(): DemoSetup
    {
      DemoSetup(images, baseEntities)
    }

    function Queued(): map<string, map<string, EntityObject>>
      reads queues.Values`entities
    {
      map k | k in queues :: queues[k].entities
    }

    function States(): map<string, string>
      reads resources.Values`currentState
    {
      map k | k in resources :: resources[k].currentState
    }

    function World(): DemoWorld
      reads this`entities, this`sprites, queues.Values`entities, resources.Values`currentState
    {
      DemoWorld(entities, Queued(), States(), sprites)
    }

    function Clocks(): Clock
      reads this`currentEvent, this`ticks, this`timer
    {
      Clock(currentEvent, ticks, timer)
    }

    /** The setup fills the four registries, every queue empty and every
        resource idle; no entity, no sprite, cursor and clocks at zero. */
    constructor (objects: seq<AnimationObject>, log: seq<LogEvent>, decodes: string -> bool)
      ensures Valid() && events == log
      ensures images == Setup.Collect(objects, ImagePick(decodes)).Keys
      ensures baseEntities == Setup.Collect(objects, BaseEntityPick)
      ensures QueueShapes(queues) == Setup.Collect(objects, QueuePick)
      ensures ResourceShapes(resources) == Setup.Collect(objects, ResourcePick)
      ensures World() == DemoWorld(map[], map k | k in queues :: map[], map k | k in resources :: "idle", [])
      ensures Clocks() == Clock(0, 0, 0.0)
    {
      var im := LoadImages(objects, decodes);
      var bs := LoadBaseEntities(objects);
      var qs := LoadQueues(objects);
      var rs := LoadResources(objects);
      images, baseEntities, queues, resources, events := im, bs, qs, rs, log;
      entities, sprites, currentEvent, ticks, timer := map[], [], 0, 0, 0.0;
      new;
      NoneQueued(queues);
      AllIdle(resources);
    }

    /** processEvent, proved against Process. */
    method ProcessEvent(e: LogEvent)
      requires Unaliased()
      modifies this`entities, this`sprites, queues.Values`entities, resources.Values`currentState
      ensures World() == Process(Loaded(), old(World()), e)
    {
      match e
      case Spawn(_, entityType, entityId) =>
        SpawnEntity(entityType, entityId);
      case QueueEvent(_, queueId, action, entityId) =>
        if queueId in queues {
          var queue := queues[queueId];
          if action == "JOIN" {
            if entityId in entities {
              JoinQueue(queueId, queue, entities[entityId]);
            }
          } else if action == "LEAVE" {
            LeaveQueue(queueId, queue, entityId);
          }
        }
      case ResourceEvent(_, resourceId, _, state) =>
        if resourceId in resources {
          SetResourceState(resourceId, resources[resourceId], state);
        }
    }

    method SpawnEntity(entityType: string, entityId: string)
      modifies this`entities, this`sprites
      ensures World() == Process(Loaded(), old(World()), Spawn(0.0, entityType, entityId))
    {
      if entityType in baseEntities {
        var base := baseEntities[entityType];
        entities := entities[entityId := Spawned(entityId, entityType)];
        if base.image in images {
          sprites := sprites + [base.image];
        }
      }
    }

    method JoinQueue(queueId: string, queue: DemoQueue, entity: EntityObject)
      requires Unaliased() && queueId in queues && queue == queues[queueId]
      modifies queue`entities
      ensures queue.entities == old(queue.entities)[entity.id := entity]
      ensures Queued() == old(Queued())[queueId := queue.entities]
      ensures States() == old(States())
    {
      queue.AddEntity(entity);
    }

    method LeaveQueue(queueId: string, queue: DemoQueue, entityId: string)
      requires Unaliased() && queueId in queues && queue == queues[queueId]
      modifies queue`entities
      ensures Queued() == old(Queued())[queueId := old(queue.entities) - {entityId}]
      ensures States() == old(States())
    {
      queue.RemoveEntity(entityId);
    }

    method SetResourceState(resourceId: string, resource: DemoResource, state: string)
      requires Unaliased() && resourceId in resources && resource == resources[resourceId]
      modifies resource`currentState
      ensures States() == old(States())[resourceId := state]
      ensures Queued() == old(Queued())
    {
      resource.SetState(state);
    }

    /** The events from `c` on, run while they are not later than `t`. */
    method RunFrom(c: nat, t: real) returns (j: nat)
      requires Unaliased() && c <= |events|
      modifies this`entities, this`sprites, queues.Values`entities, resources.Values`currentState
      ensures j == FirstLater(events, c, t)
      ensures World() == ProcessAll(Loaded(), old(World()), events[c..j])
    {
      ghost var w0 := World();
      j := c;
      while j < |events|
        invariant c <= j <= |events|
        invariant FirstLater(events, j, t) == FirstLater(events, c, t)
        invariant World() == ProcessAll(Loaded(), w0, events[c..j])
        decreases |events| - j
      {
        var event := events[j];
        if event.time > t {
          break;
        }
        ProcessEvent(event);
        ProcessAllStep(Loaded(), w0, events, c, j);
        j := j + 1;
      }
    }

    method SetClocks(c: nat, t: int, tm: real)
      requires Valid() && c <= |events|
      modifies this`currentEvent, this`ticks, this`timer
      ensures Valid() && Clocks() == Clock(c, t, tm)
    {
      currentEvent, ticks, timer := c, t, tm;
    }

    /** render's update: the timer grows by delta, then the tick loop
        runs. */
    method Render(delta: real)
      requires Valid()
      modifies this`timer, this`ticks, this`currentEvent, this`entities, this`sprites
      modifies queues.Values`entities, resources.Values`currentState
      ensures Valid()
      ensures Clocks() == RenderClock(events, old(Clocks()), delta)
      ensures World() == ProcessAll(Loaded(), old(World()), events[old(currentEvent)..currentEvent])
    {
      var tm, tk, cur := TickLoop(timer + delta, ticks, currentEvent);
      SetClocks(cur, tk, tm);
    }

    /** The tick loop, proved against TickLoopClock and ProcessAll: while
        the timer is more than a quantum, a quantum off, one more tick, and
        the events due by then. The timer, tick count and cursor are kept in
        locals (the events read none of them) and written back by the
        caller. */
    method TickLoop(timer0: real, ticks0: int, c0: nat) returns (tm: real, tk: int, cur: nat)
      requires Unaliased() && c0 <= |events|
      modifies this`entities, this`sprites, queues.Values`entities, resources.Values`currentState
      ensures cur <= |events| && Clock(cur, tk, tm) == TickLoopClock(events, Clock(c0, ticks0, timer0))
      ensures World() == ProcessAll(Loaded(), old(World()), events[c0..cur])
    {
      tm, tk, cur := timer0, ticks0, c0;
      ghost var w0 := World();
      while tm > Quantum
        invariant tk >= ticks0 && c0 <= cur <= |events|
        invariant Replay.Quanta(tm, Quantum) + (tk - ticks0) == Replay.Quanta(timer0, Quantum)
        invariant Replay.Leftover(tm, Quantum) == Replay.Leftover(timer0, Quantum)
        invariant cur == if tk == ticks0 then c0 else FirstLater(events, c0, tk as real)
        invariant World() == ProcessAll(Loaded(), w0, events[c0..cur])
        decreases Replay.Quanta(tm, Quantum)
      {
        Replay.QuantaStep(tm, Quantum);
        tm := tm - Quantum;
        tk := tk + 1;
        var j := RunFrom(cur, tk as real);
        TickStep(Loaded(), w0, events, c0, cur, j, ticks0, tk);
        cur := j;
      }
    }
  }

  /** One more event run: the run grows by that event. */
  lemma ProcessAllStep(setup: DemoSetup, w: DemoWorld, evs: seq<LogEvent>, c: nat, j: nat)
    requires c <= j < |evs|
    ensures ProcessAll(setup, w, evs[c..j + 1]) == Process(setup, ProcessAll(setup, w, evs[c..j]), evs[j])
  {
    assert evs[c..j + 1] == evs[c..j] + [evs[j]];
    ProcessAllSnoc(setup, w, evs[c..j], evs[j]);
  }

  lemma ProcessAllSnoc(setup: DemoSetup, w: DemoWorld, a: seq<LogEvent>, e: LogEvent)
    ensures ProcessAll(setup, w, a + [e]) == Process(setup, ProcessAll(setup, w, a), e)
  {
    assert (a + [e])[..|a|] == a;
  }

  /** One pass of the tick loop, from the cursor `c1` it left at tick
      `ticks - 1` to `j`: the cursor is where a single pass from `c0` at
      `ticks` stops, and the events run so far are those from `c0` to `j`. */
  lemma TickStep(setup: DemoSetup, w0: DemoWorld, evs: seq<LogEvent>, c0: nat, c1: nat, j: nat, t0: int, ticks: int)
    requires c0 <= c1 <= |evs| && ticks > t0
    requires c1 == if ticks - 1 == t0 then c0 else FirstLater(evs, c0, (ticks - 1) as real)
    requires j == FirstLater(evs, c1, ticks as real)
    ensures j == FirstLater(evs, c0, ticks as real)
    ensures ProcessAll(setup, ProcessAll(setup, w0, evs[c0..c1]), evs[c1..j]) == ProcessAll(setup, w0, evs[c0..j])
  {
    if ticks - 1 > t0 {
      FirstLaterResumes(evs, c0, (ticks - 1) as real, ticks as real);
    }
    assert evs[c0..j] == evs[c0..c1] + evs[c1..j];
    ProcessAllAppend(setup, w0, evs[c0..c1], evs[c1..j]);
  }
}
