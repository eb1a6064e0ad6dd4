// The events of a simulation log (sim/KSLLogEvent.kt and sim/events/*.kt):
// what each event records once parsed, which objects it involves, and the
// grammar each event's `parse` accepts, written as pure functions of the
// token list. The cursor that actually walks the tokens is EventCursor
// (event_cursor.dfy); its methods are proved to compute these functions.

module LogEvents {
  import opened Common
  import opened Text
  import opened MovementFunctions
  import LinkedMaps

  const KEYWORD_OBJECT: string := "OBJECT"
  const KEYWORD_ADD: string := "ADD"
  const KEYWORD_REMOVE: string := "REMOVE"
  const KEYWORD_AT: string := "AT"
  const KEYWORD_SIZED: string := "SIZED"
  const KEYWORD_QUEUE: string := "QUEUE"
  const KEYWORD_JOIN: string := "JOIN"
  const KEYWORD_LEAVE: string := "LEAVE"
  const KEYWORD_RESOURCE: string := "RESOURCE"
  const KEYWORD_VARIABLE: string := "VARIABLE"
  const KEYWORD_SET: string := "SET"
  const KEYWORD_MOVE: string := "MOVE"
  const KEYWORD_AS: string := "AS"
  const KEYWORD_START: string := "START"
  const KEYWORD_STOP: string := "STOP"

  /** The fields a parsed event holds, one alternative per event class. */
  datatype EventBody =
    | ObjectAdd(objectTypeId: string, objectId: string, position: Position, width: real, height: real)
    | ObjectRemove(objectId: string)
    | QueueChange(queueId: string, action: string, objectId: string)
    | ResourceChange(resourceId: string, newState: string)
    | VariableSet(variableId: string, stringVal: string, doubleVal: Option<real>)
    | Move(objectId: string, startPosition: Position, endPosition: Position,
           movementFunction: string, duration: real)
    | AnimationMark(keyword: string)

  datatype LogEvent = LogEvent(time: real, body: EventBody)

  /** involvesObject: object, queue and move events involve their own object,
      resource and variable events none, START/STOP every object. */
  predicate InvolvesObject(e: LogEvent, id: string)
  {
    match e.body
    case ObjectAdd(_, objectId, _, _, _) => objectId == id
    case ObjectRemove(objectId) => objectId == id
    case QueueChange(_, _, objectId) => objectId == id
    case Move(objectId, _, _, _, _) => objectId == id
    case ResourceChange(_, _) => false
    case VariableSet(_, _, _) => false
    case AnimationMark(_) => true
  }

  /** What parsing looks up in the viewer: the ids of the registered object
      types, queues, resources and variables, and the station positions. */
  datatype SetupView = SetupView(
    objectTypes: set<string>,
    queues: set<string>,
    resources: set<string>,
    variables: set<string>,
    stations: map<string, Position>)

  /** The log fields `parse` writes: the ids recorded by parseObjectId (an
      insertion-ordered set) and the START/STOP times. */
  datatype LogFields = LogFields(objects: seq<string>, startTime: real, endTime: real)

  /** A parse returns false (NoMatch), true with the event's fields set
      (Matched), or throws (Threw). */
  datatype ParseOutcome = NoMatch | Matched(event: LogEvent) | Threw(error: Error)

  // -------------------------------------------------- reading one token

  /** `tokens[i]`, which throws past the end. */
  function ReadToken(toks: seq<string>, i: nat): (r: Result<string>)
    ensures r.Ok? <==> i < |toks|
    ensures r.Ok? ==> r.value == toks[i]
    ensures r.Err? ==> r.error == IndexOutOfBounds
  {
    if i < |toks| then Ok(toks[i]) else Err(IndexOutOfBounds)
  }

  function Unquote(t: string): string
  {
    Trim(t, '"')
  }

  /** parseString and the id part of parseObjectId: the token without its
      surrounding quotes. */
  function ReadUnquoted(toks: seq<string>, i: nat): (r: Result<string>)
    ensures r.Ok? <==> i < |toks|
    ensures r.Ok? ==> r.value == Unquote(toks[i])
  {
    if i < |toks| then Ok(Unquote(toks[i])) else Err(IndexOutOfBounds)
  }

  /** parseObjectTypeId, parseQueueId, parseResourceId: the unquoted id if
      it is registered, otherwise "<what> <id> not found". */
  function ReadRegistered(toks: seq<string>, i: nat, keys: set<string>, what: string): (r: Result<string>)
    ensures r.Ok? <==> i < |toks| && Unquote(toks[i]) in keys
    ensures r.Ok? ==> r.value == Unquote(toks[i])
    ensures i < |toks| && Unquote(toks[i]) !in keys ==>
      r == Err(LogParsing(what + " " + Unquote(toks[i]) + " not found"))
  {
    if i >= |toks| then Err(IndexOutOfBounds)
    else if Unquote(toks[i]) in keys then Ok(Unquote(toks[i]))
    else Err(LogParsing(what + " " + Unquote(toks[i]) + " not found"))
  }

  /** parseStation: the position of the named station. */
  function ReadStation(toks: seq<string>, i: nat, stations: map<string, Position>): (r: Result<Position>)
    ensures r.Ok? <==> i < |toks| && Unquote(toks[i]) in stations
    ensures r.Ok? ==> r.value == stations[Unquote(toks[i])]
  {
    if i >= |toks| then Err(IndexOutOfBounds)
    else if Unquote(toks[i]) in stations then Ok(stations[Unquote(toks[i])])
    else Err(LogParsing("Station " + Unquote(toks[i]) + " not found"))
  }

  /** parseNumber: the token read as a double, or "Invalid number". */
  function ReadNumber(toks: seq<string>, i: nat): (r: Result<real>)
    ensures r.Ok? <==> i < |toks| && ParseDouble(toks[i]).Some?
    ensures r.Ok? ==> r.value == ParseDouble(toks[i]).value
    ensures i < |toks| && ParseDouble(toks[i]).None? ==> r == Err(LogParsing("Invalid number: " + toks[i]))
  {
    if i >= |toks| then Err(IndexOutOfBounds)
    else match ParseDouble(toks[i])
      case Some(v) => Ok(v)
      case None => Err(LogParsing("Invalid number: " + toks[i]))
  }

  /** The recorded ids after parseObjectId read `id`. */
  function Record(f: LogFields, id: string): (g: LogFields)
    ensures g.startTime == f.startTime && g.endTime == f.endTime
    ensures NoDuplicates(f.objects) ==> NoDuplicates(g.objects)
    ensures id in g.objects && forall k :: 0 <= k < |g.objects| ==> g.objects[k] in f.objects || g.objects[k] == id
  {
    f.(objects := LinkedMaps.AddToSet(f.objects, id))
  }

  // ------------------------------------------------------- ObjectEvent

  /** The `while (hasNext())` clause loop of OBJECT ADD from token `i`:
      `AT <station>` sets the position, `SIZED <w> <h>` the size, and any
      other token is consumed and ignored. */
  function AddClauses(toks: seq<string>, i: nat, stations: map<string, Position>,
                      position: Position, width: real, height: real): Result<(Position, real, real)>
    decreases |toks| - i
  {
    if i >= |toks| then Ok((position, width, height))
    else if toks[i] == KEYWORD_AT then
      match ReadStation(toks, i + 1, stations)
      case Err(e) => Err(e)
      case Ok(p) => AddClauses(toks, i + 2, stations, p, width, height)
    else if toks[i] == KEYWORD_SIZED then
      match ReadNumber(toks, i + 1)
      case Err(e) => Err(e)
      case Ok(w) =>
        match ReadNumber(toks, i + 2)
        case Err(e) => Err(e)
        case Ok(h) => AddClauses(toks, i + 3, stations, position, w, h)
    else AddClauses(toks, i + 1, stations, position, width, height)
  }

  /** ObjectEvent.parse:
        OBJECT ADD <type> <skipped> <object id> (AT <station> | SIZED <w> <h> | <other>)*
        OBJECT REMOVE <object id> */
  function ObjectEventSpec(time: real, toks: seq<string>, view: SetupView, f: LogFields): (ParseOutcome, LogFields)
  {
    match ReadToken(toks, 0)
    case Err(e) => (Threw(e), f)
    case Ok(keyword) =>
      if keyword != KEYWORD_OBJECT then (NoMatch, f)
      else match ReadToken(toks, 1)
      case Err(e) => (Threw(e), f)
      case Ok(action) =>
        if action == KEYWORD_ADD then
          match ReadRegistered(toks, 2, view.objectTypes, "Object type")
          case Err(e) => (Threw(e), f)
          case Ok(typeId) =>
            // token 3 is passed over by next() without being read
            match ReadUnquoted(toks, 4)
            case Err(e) => (Threw(e), f)
            case Ok(id) =>
              match AddClauses(toks, 5, view.stations, Origin, 1.0, 1.0)
              case Err(e) => (Threw(e), Record(f, id))
              case Ok(c) => (Matched(LogEvent(time, ObjectAdd(typeId, id, c.0, c.1, c.2))), Record(f, id))
        else if action == KEYWORD_REMOVE then
          match ReadUnquoted(toks, 2)
          case Err(e) => (Threw(e), f)
          case Ok(id) => (Matched(LogEvent(time, ObjectRemove(id))), Record(f, id))
        else (Threw(LogParsing("Unknown action " + action)), f)
  }

  // -------------------------------------------------------- QueueEvent

  /** QueueEvent.parse: QUEUE <queue id> <action> <object id>; the action is
      checked only after the object id has been read and recorded. */
  function QueueEventSpec(time: real, toks: seq<string>, view: SetupView, f: LogFields): (ParseOutcome, LogFields)
  {
    match ReadToken(toks, 0)
    case Err(e) => (Threw(e), f)
    case Ok(keyword) =>
      if keyword != KEYWORD_QUEUE then (NoMatch, f)
      else match ReadRegistered(toks, 1, view.queues, "Queue")
      case Err(e) => (Threw(e), f)
      case Ok(queueId) =>
        match ReadToken(toks, 2)
        case Err(e) => (Threw(e), f)
        case Ok(action) =>
          match ReadUnquoted(toks, 3)
          case Err(e) => (Threw(e), f)
          case Ok(id) =>
            if action != KEYWORD_JOIN && action != KEYWORD_LEAVE then
              (Threw(LogParsing("Unknown queue action")), Record(f, id))
            else (Matched(LogEvent(time, QueueChange(queueId, action, id))), Record(f, id))
  }

  // ----------------------------------------------------- ResourceEvent

  /** ResourceEvent.parse: RESOURCE <resource id> <skipped> <skipped> <state>;
      the state is not checked against the resource's states. */
  function ResourceEventSpec(time: real, toks: seq<string>, view: SetupView, f: LogFields): (ParseOutcome, LogFields)
  {
    match ReadToken(toks, 0)
    case Err(e) => (Threw(e), f)
    case Ok(keyword) =>
      if keyword != KEYWORD_RESOURCE then (NoMatch, f)
      else match ReadRegistered(toks, 1, view.resources, "Resource")
      case Err(e) => (Threw(e), f)
      case Ok(resourceId) =>
        // next(2) passes over "SET STATE" without reading them
        match ReadUnquoted(toks, 4)
        case Err(e) => (Threw(e), f)
        case Ok(state) => (Matched(LogEvent(time, ResourceChange(resourceId, state))), f)
  }

  // ----------------------------------------------------- VariableEvent

  /** VariableEvent.parse: VARIABLE <variable id> SET <value>; a token other
      than SET makes it return false rather than throw. */
  function VariableEventSpec(time: real, toks: seq<string>, view: SetupView, f: LogFields): (ParseOutcome, LogFields)
  {
    match ReadToken(toks, 0)
    case Err(e) => (Threw(e), f)
    case Ok(keyword) =>
      if keyword != KEYWORD_VARIABLE then (NoMatch, f)
      else match ReadRegistered(toks, 1, view.variables, "Variable")
      case Err(e) => (Threw(e), f)
      case Ok(variableId) =>
        match ReadToken(toks, 2)
        case Err(e) => (Threw(e), f)
        case Ok(set_) =>
          if set_ != KEYWORD_SET then (NoMatch, f)
          else match ReadUnquoted(toks, 3)
          case Err(e) => (Threw(e), f)
          case Ok(value) => (Matched(LogEvent(time, VariableSet(variableId, value, ParseDouble(value)))), f)
  }

  // --------------------------------------------------------- MoveEvent

  /** The optional `AS <function>` tail of a MOVE, starting at token 6. */
  function EasingClause(toks: seq<string>): Result<string>
  {
    if 6 < |toks| && toks[6] == KEYWORD_AS then
      match ReadToken(toks, 7)
      case Err(e) => Err(e)
      case Ok(fn) =>
        if IsKnownFunction(fn) then Ok(fn) else Err(LogParsing("Unknown easing function: " + fn))
    else Ok(LINEAR_FUNCTION)
  }

  /** MoveEvent.parse:
        MOVE <object id> <skipped> <station> <skipped> <station> (AS <function> | <other>)?
      The duration starts at 0.0; the loader fills it in later. */
  function MoveEventSpec(time: real, toks: seq<string>, view: SetupView, f: LogFields): (ParseOutcome, LogFields)
  {
    match ReadToken(toks, 0)
    case Err(e) => (Threw(e), f)
    case Ok(keyword) =>
      if keyword != KEYWORD_MOVE then (NoMatch, f)
      else match ReadUnquoted(toks, 1)
      case Err(e) => (Threw(e), f)
      case Ok(id) =>
        match ReadStation(toks, 3, view.stations)
        case Err(e) => (Threw(e), Record(f, id))
        case Ok(start) =>
          match ReadStation(toks, 5, view.stations)
          case Err(e) => (Threw(e), Record(f, id))
          case Ok(end) =>
            match EasingClause(toks)
            case Err(e) => (Threw(e), Record(f, id))
            case Ok(fn) => (Matched(LogEvent(time, Move(id, start, end, fn, 0.0))), Record(f, id))
  }

  // ---------------------------------------------------- AnimationEvent

  /** AnimationEvent.parse: only `tokens[0]` is looked at; START and STOP set
      the log's start or end time to this event's time. */
  function AnimationEventSpec(time: real, toks: seq<string>, f: LogFields): (ParseOutcome, LogFields)
  {
    match ReadToken(toks, 0)
    case Err(e) => (Threw(e), f)
    case Ok(keyword) =>
      if keyword == KEYWORD_START then (Matched(LogEvent(time, AnimationMark(KEYWORD_START))), f.(startTime := time))
      else if keyword == KEYWORD_STOP then (Matched(LogEvent(time, AnimationMark(KEYWORD_STOP))), f.(endTime := time))
      else (NoMatch, f)
  }

  // =========================================================== properties

  /** Each cursor-driven parse declines a non-empty token list exactly when
      its first token is not its keyword, and then records nothing. */
  lemma ObjectKeywordDecides(time: real, toks: seq<string>, view: SetupView, f: LogFields)
    requires |toks| > 0
    ensures ObjectEventSpec(time, toks, view, f).0.NoMatch? <==> toks[0] != KEYWORD_OBJECT
    ensures toks[0] != KEYWORD_OBJECT ==> ObjectEventSpec(time, toks, view, f).1 == f
  {
  }

  lemma QueueKeywordDecides(time: real, toks: seq<string>, view: SetupView, f: LogFields)
    requires |toks| > 0
    ensures QueueEventSpec(time, toks, view, f).0.NoMatch? <==> toks[0] != KEYWORD_QUEUE
    ensures toks[0] != KEYWORD_QUEUE ==> QueueEventSpec(time, toks, view, f).1 == f
  {
  }

  lemma ResourceKeywordDecides(time: real, toks: seq<string>, view: SetupView, f: LogFields)
    requires |toks| > 0
    ensures ResourceEventSpec(time, toks, view, f).0.NoMatch? <==> toks[0] != KEYWORD_RESOURCE
    ensures ResourceEventSpec(time, toks, view, f).1 == f
  {
  }

  lemma MoveKeywordDecides(time: real, toks: seq<string>, view: SetupView, f: LogFields)
    requires |toks| > 0
    ensures MoveEventSpec(time, toks, view, f).0.NoMatch? <==> toks[0] != KEYWORD_MOVE
    ensures toks[0] != KEYWORD_MOVE ==> MoveEventSpec(time, toks, view, f).1 == f
  {
  }

  lemma AnimationKeywordDecides(time: real, toks: seq<string>, f: LogFields)
    requires |toks| > 0
    ensures AnimationEventSpec(time, toks, f).0.NoMatch? <==> toks[0] != KEYWORD_START && toks[0] != KEYWORD_STOP
    ensures AnimationEventSpec(time, toks, f).1.objects == f.objects
  {
  }

  /** A VARIABLE line declines both for another keyword and for a registered
      variable followed by something other than SET. */
  lemma VariableDeclines(time: real, toks: seq<string>, view: SetupView, f: LogFields)
    requires |toks| > 2 && toks[0] == KEYWORD_VARIABLE && Unquote(toks[1]) in view.variables
    ensures VariableEventSpec(time, toks, view, f).0.NoMatch? <==> toks[2] != KEYWORD_SET
  {
  }

  /** The value of a VARIABLE line is one unquoted token, and the number it
      carries is that token read as a double. */
  lemma VariableValue(time: real, toks: seq<string>, view: SetupView, f: LogFields)
    requires |toks| > 3 && toks[0] == KEYWORD_VARIABLE && Unquote(toks[1]) in view.variables && toks[2] == KEYWORD_SET
    ensures VariableEventSpec(time, toks, view, f) ==
      (Matched(LogEvent(time, VariableSet(Unquote(toks[1]), Unquote(toks[3]), ParseDouble(Unquote(toks[3]))))), f)
  {
  }

  /** The tokens the grammars skip are never looked at: replacing the `AS`
      of OBJECT ADD by any word changes nothing. */
  lemma SkippedObjectToken(time: real, toks: seq<string>, view: SetupView, f: LogFields, w: string)
    requires |toks| > 3
    ensures ObjectEventSpec(time, toks[3 := w], view, f) == ObjectEventSpec(time, toks, view, f)
  {
    AddClausesIgnoresPrefix(toks, toks[3 := w], 5, view.stations, Origin, 1.0, 1.0);
  }

  /** The same for the `SET` and `STATE` tokens of RESOURCE. */
  lemma SkippedResourceTokens(time: real, toks: seq<string>, view: SetupView, f: LogFields, w: string)
    ensures |toks| > 2 ==> ResourceEventSpec(time, toks[2 := w], view, f) == ResourceEventSpec(time, toks, view, f)
    ensures |toks| > 3 ==> ResourceEventSpec(time, toks[3 := w], view, f) == ResourceEventSpec(time, toks, view, f)
  {
  }

  /** The same for the `FROM` (index 2) and `TO` (index 4) tokens of MOVE. */
  lemma SkippedMoveToken(time: real, toks: seq<string>, view: SetupView, f: LogFields, j: nat, w: string)
    requires (j == 2 || j == 4) && j < |toks|
    ensures MoveEventSpec(time, toks[j := w], view, f) == MoveEventSpec(time, toks, view, f)
  {
    var b := toks[j := w];
    MoveReadsAgree(toks, b, view.stations);
    EasingClauseIgnoresPrefix(toks, b);
  }

  lemma MoveReadsAgree(a: seq<string>, b: seq<string>, stations: map<string, Position>)
    requires |a| == |b| && forall k :: k in {0, 1, 3, 5} && k < |a| ==> a[k] == b[k]
    ensures ReadToken(b, 0) == ReadToken(a, 0) && ReadUnquoted(b, 1) == ReadUnquoted(a, 1)
    ensures ReadStation(b, 3, stations) == ReadStation(a, 3, stations)
    ensures ReadStation(b, 5, stations) == ReadStation(a, 5, stations)
  {
  }

  lemma {:induction false} AddClausesIgnoresPrefix(a: seq<string>, b: seq<string>, i: nat, stations: map<string, Position>,
                                                   position: Position, width: real, height: real)
    requires |a| == |b| && forall k :: i <= k < |a| ==> a[k] == b[k]
    ensures AddClauses(a, i, stations, position, width, height) == AddClauses(b, i, stations, position, width, height)
    decreases |a| - i
  {
    if i < |a| {
      if a[i] == KEYWORD_AT {
        if ReadStation(a, i + 1, stations).Ok? {
          AddClausesIgnoresPrefix(a, b, i + 2, stations, ReadStation(a, i + 1, stations).value, width, height);
        }
      } else if a[i] == KEYWORD_SIZED {
        if ReadNumber(a, i + 1).Ok? && ReadNumber(a, i + 2).Ok? {
          AddClausesIgnoresPrefix(a, b, i + 3, stations, position, ReadNumber(a, i + 1).value, ReadNumber(a, i + 2).value);
        }
      } else {
        AddClausesIgnoresPrefix(a, b, i + 1, stations, position, width, height);
      }
    }
  }

  lemma EasingClauseIgnoresPrefix(a: seq<string>, b: seq<string>)
    requires |a| == |b| && forall k :: 6 <= k < |a| ==> a[k] == b[k]
    ensures EasingClause(a) == EasingClause(b)
  {
  }

  /** OBJECT ADD without clauses places the object at (0, 0) with size 1x1. */
  lemma AddWithoutClauses(time: real, toks: seq<string>, view: SetupView, f: LogFields)
    requires |toks| == 5 && toks[0] == KEYWORD_OBJECT && toks[1] == KEYWORD_ADD && Unquote(toks[2]) in view.objectTypes
    ensures ObjectEventSpec(time, toks, view, f) ==
      (Matched(LogEvent(time, ObjectAdd(Unquote(toks[2]), Unquote(toks[4]), Origin, 1.0, 1.0))), Record(f, Unquote(toks[4])))
  {
    assert AddClauses(toks, 5, view.stations, Origin, 1.0, 1.0) == Ok((Origin, 1.0, 1.0));
  }

  /** OBJECT ADD of a registered type is the event its clauses describe. */
  lemma AddWithClauses(time: real, toks: seq<string>, view: SetupView, f: LogFields, p: Position, w: real, h: real)
    requires |toks| >= 5 && toks[0] == KEYWORD_OBJECT && toks[1] == KEYWORD_ADD && Unquote(toks[2]) in view.objectTypes
    requires AddClauses(toks, 5, view.stations, Origin, 1.0, 1.0) == Ok((p, w, h))
    ensures ObjectEventSpec(time, toks, view, f).0 == Matched(LogEvent(time, ObjectAdd(Unquote(toks[2]), Unquote(toks[4]), p, w, h)))
  {
  }

  /** `SIZED <w> <h>` with two numbers sets the size and moves on by three. */
  lemma SizedClause(toks: seq<string>, i: nat, stations: map<string, Position>, p: Position, w: real, h: real, w': real, h': real)
    requires i + 2 < |toks| && toks[i] == KEYWORD_SIZED
    requires ParseDouble(toks[i + 1]) == Some(w') && ParseDouble(toks[i + 2]) == Some(h')
    ensures AddClauses(toks, i, stations, p, w, h) == AddClauses(toks, i + 3, stations, p, w', h')
  {
  }

  /** `AT <station>` of a registered station places the object there and
      moves on by two. */
  lemma AtClause(toks: seq<string>, i: nat, stations: map<string, Position>, p: Position, w: real, h: real)
    requires i + 1 < |toks| && toks[i] == KEYWORD_AT && Unquote(toks[i + 1]) in stations
    ensures AddClauses(toks, i, stations, p, w, h) == AddClauses(toks, i + 2, stations, stations[Unquote(toks[i + 1])], w, h)
  {
  }

  /** An unregistered object type throws before the object id is read. */
  lemma AddOfUnknownType(time: real, toks: seq<string>, view: SetupView, f: LogFields)
    requires |toks| > 2 && toks[0] == KEYWORD_OBJECT && toks[1] == KEYWORD_ADD && Unquote(toks[2]) !in view.objectTypes
    ensures ObjectEventSpec(time, toks, view, f) ==
      (Threw(LogParsing("Object type" + " " + Unquote(toks[2]) + " not found")), f)
  {
  }

  /** OBJECT REMOVE reads only the object id, and records it whatever the
      registries hold; an action other than ADD or REMOVE throws. */
  lemma RemoveAndUnknownAction(time: real, toks: seq<string>, view: SetupView, f: LogFields)
    requires |toks| > 2 && toks[0] == KEYWORD_OBJECT
    ensures toks[1] == KEYWORD_REMOVE ==> (ObjectEventSpec(time, toks, view, f) ==
      (Matched(LogEvent(time, ObjectRemove(Unquote(toks[2])))), Record(f, Unquote(toks[2]))))
    ensures toks[1] != KEYWORD_ADD && toks[1] != KEYWORD_REMOVE ==>
      ObjectEventSpec(time, toks, view, f) == (Threw(LogParsing("Unknown action " + toks[1])), f)
  {
  }

  /** Clauses may come in any order and repeat; the last of each kind wins,
      and an unrecognised word between them is skipped. */
  lemma ClausesInAnyOrder(stations: map<string, Position>, s1: string, s2: string, w1: string, h1: string,
                          w2: string, h2: string, other: string)
    requires Unquote(s1) in stations && Unquote(s2) in stations
    requires ParseDouble(w1).Some? && ParseDouble(h1).Some? && ParseDouble(w2).Some? && ParseDouble(h2).Some?
    requires other != KEYWORD_AT && other != KEYWORD_SIZED
    ensures AddClauses([KEYWORD_AT, s1, KEYWORD_SIZED, w1, h1], 0, stations, Origin, 1.0, 1.0)
         == AddClauses([KEYWORD_SIZED, w1, h1, other, KEYWORD_AT, s1], 0, stations, Origin, 1.0, 1.0)
    ensures AddClauses([KEYWORD_AT, s1, KEYWORD_AT, s2, KEYWORD_SIZED, w1, h1, KEYWORD_SIZED, w2, h2], 0, stations, Origin, 1.0, 1.0)
         == Ok((stations[Unquote(s2)], ParseDouble(w2).value, ParseDouble(h2).value))
  {
    var a := [KEYWORD_AT, s1, KEYWORD_SIZED, w1, h1];
    var b := [KEYWORD_SIZED, w1, h1, other, KEYWORD_AT, s1];
    var c := [KEYWORD_AT, s1, KEYWORD_AT, s2, KEYWORD_SIZED, w1, h1, KEYWORD_SIZED, w2, h2];
    var p1, p2 := stations[Unquote(s1)], stations[Unquote(s2)];
    var n1, m1 := ParseDouble(w1).value, ParseDouble(h1).value;
    var n2, m2 := ParseDouble(w2).value, ParseDouble(h2).value;
    assert AddClauses(a, 2, stations, p1, 1.0, 1.0) == AddClauses(a, 5, stations, p1, n1, m1);
    assert AddClauses(b, 3, stations, Origin, n1, m1) == AddClauses(b, 4, stations, Origin, n1, m1);
    assert AddClauses(b, 4, stations, Origin, n1, m1) == AddClauses(b, 6, stations, p1, n1, m1);
    assert AddClauses(c, 4, stations, p2, 1.0, 1.0) == AddClauses(c, 7, stations, p2, n1, m1);
    assert AddClauses(c, 7, stations, p2, n1, m1) == AddClauses(c, 10, stations, p2, n2, m2);
  }

  /** An unknown queue action is reported only after the object id has been
      read and recorded. */
  lemma QueueActionCheckedLast(time: real, toks: seq<string>, view: SetupView, f: LogFields)
    requires |toks| > 3 && toks[0] == KEYWORD_QUEUE && Unquote(toks[1]) in view.queues
    requires toks[2] != KEYWORD_JOIN && toks[2] != KEYWORD_LEAVE
    ensures QueueEventSpec(time, toks, view, f) ==
      (Threw(LogParsing("Unknown queue action")), Record(f, Unquote(toks[3])))
    ensures Unquote(toks[3]) in QueueEventSpec(time, toks, view, f).1.objects
  {
  }

  /** The resource's new state is taken as written, whatever states the
      resource has. */
  lemma ResourceStateUnchecked(time: real, toks: seq<string>, view: SetupView, f: LogFields)
    requires |toks| > 4 && toks[0] == KEYWORD_RESOURCE && Unquote(toks[1]) in view.resources
    ensures ResourceEventSpec(time, toks, view, f) ==
      (Matched(LogEvent(time, ResourceChange(Unquote(toks[1]), Unquote(toks[4])))), f)
  {
  }

  /** A MOVE defaults to LINEAR; `AS` must name one of the five curves; a
      seventh token other than `AS` is ignored. */
  lemma MoveEasing(toks: seq<string>)
    requires |toks| >= 6
    ensures |toks| == 6 ==> EasingClause(toks) == Ok(LINEAR_FUNCTION)
    ensures |toks| > 6 && toks[6] != KEYWORD_AS ==> EasingClause(toks) == Ok(LINEAR_FUNCTION)
    ensures |toks| > 7 && toks[6] == KEYWORD_AS ==>
      (EasingClause(toks).Ok? <==> IsKnownFunction(toks[7]))
    ensures EasingClause(toks).Ok? ==> IsKnownFunction(EasingClause(toks).value)
  {
  }

  /** A parsed MOVE starts with a zero duration and a known curve. */
  lemma MoveParsedShape(time: real, toks: seq<string>, view: SetupView, f: LogFields)
    requires MoveEventSpec(time, toks, view, f).0.Matched?
    ensures var m := MoveEventSpec(time, toks, view, f).0.event;
      m.time == time && m.body.Move? && m.body.duration == 0.0 && IsKnownFunction(m.body.movementFunction)
      && m.body.objectId == Unquote(toks[1])
  {
    MoveEasing(toks);
  }

  /** START and STOP only look at the first token. */
  lemma AnimationMarkIgnoresRest(time: real, toks: seq<string>, rest: seq<string>, f: LogFields)
    requires |toks| > 0
    ensures AnimationEventSpec(time, toks + rest, f) == AnimationEventSpec(time, toks, f)
    ensures toks[0] == KEYWORD_START ==> AnimationEventSpec(time, toks, f).1 == f.(startTime := time)
    ensures toks[0] == KEYWORD_STOP ==> AnimationEventSpec(time, toks, f).1 == f.(endTime := time)
  {
    assert (toks + rest)[0] == toks[0];
  }

  // ============================================ the repository's own tests

  const TEST_OBJECT_TYPE: string := "test_object_type"
  const TEST_OBJECT_ID: string := "test_object"
  const TEST_STATION: string := "test_station"
  const TEST_QUEUE_ID: string := "test_queue"
  const TEST_RESOURCE_ID: string := "test_resource"
  const TEST_STATE: string := "test_state"

  /** The setup the tests load: one object type, queue, resource and
      station, the station at (1.1, 1.3). */
  const TestView: SetupView := SetupView({TEST_OBJECT_TYPE}, {TEST_QUEUE_ID}, {TEST_RESOURCE_ID}, {},
                                         map[TEST_STATION := Position(1.1, 1.3)])

  /** A test line is the words joined by single spaces; splitting it at
      spaces gives the words back. */
  lemma TestLineTokens(words: seq<string>)
    requires |words| >= 1
    requires forall k :: 0 <= k < |words| ==> |words[k]| > 0 && ' ' !in words[k]
    ensures Split(Join(words, ' '), ' ') == words
  {
    SplitOfJoin(words, ' ');
  }

  lemma UnquoteTestIds()
    ensures Unquote(Quote(TEST_OBJECT_TYPE)) == TEST_OBJECT_TYPE
    ensures Unquote(Quote(TEST_OBJECT_ID)) == TEST_OBJECT_ID
    ensures Unquote(Quote(TEST_STATION)) == TEST_STATION
    ensures Unquote(Quote(TEST_QUEUE_ID)) == TEST_QUEUE_ID
    ensures Unquote(Quote(TEST_RESOURCE_ID)) == TEST_RESOURCE_ID
    ensures Unquote(Quote(TEST_STATE)) == TEST_STATE
  {
    TrimOfQuote(TEST_OBJECT_TYPE);
    TrimOfQuote(TEST_OBJECT_ID);
    TrimOfQuote(TEST_STATION);
    TrimOfQuote(TEST_QUEUE_ID);
    TrimOfQuote(TEST_RESOURCE_ID);
    TrimOfQuote(TEST_STATE);
  }

  lemma TestNumber(d: char)
    requires IsDigit(d)
    ensures ParseDouble(['1', '.', d]) == Some(1.0 + DigitsValue([d]) as real / 10.0)
  {
    var s := ['1', '.', d];
    MantissaOneDecimal('1', d);
    NoExponentIn(s);
    assert DigitsValue("1") == 1;
  }

  lemma TestNumbers()
    ensures ParseDouble("1.5") == Some(1.5)
    ensures ParseDouble("1.7") == Some(1.7)
  {
    TestNumber('5');
    TestNumber('7');
    assert DigitsValue("5") == 5 && DigitsValue("7") == 7;
  }

  /** In the test setup the quoted test ids are registered, unquote to
      themselves, and the station sits at (1.1, 1.3). The lemmas below take
      the quoted tokens of the test lines as parameters. */
  lemma TestViewRegistersTestIds()
    ensures Unquote(Quote(TEST_OBJECT_TYPE)) in TestView.objectTypes
    ensures Unquote(Quote(TEST_STATION)) in TestView.stations
    ensures TestView.stations[Unquote(Quote(TEST_STATION))] == Position(1.1, 1.3)
    ensures Unquote(Quote(TEST_QUEUE_ID)) in TestView.queues
    ensures Unquote(Quote(TEST_RESOURCE_ID)) in TestView.resources
  {
    UnquoteTestIds();
  }

  /** ObjectEventTest.spawnEventTest1: OBJECT ADD with no clause. */
  lemma ObjectAddTest1(view: SetupView, ot: string, id: string, f: LogFields)
    requires Unquote(ot) in view.objectTypes
    ensures ObjectEventSpec(0.0, [KEYWORD_OBJECT, KEYWORD_ADD, ot, KEYWORD_AS, id], view, f).0
         == Matched(LogEvent(0.0, ObjectAdd(Unquote(ot), Unquote(id), Origin, 1.0, 1.0)))
  {
    var t := [KEYWORD_OBJECT, KEYWORD_ADD, ot, KEYWORD_AS, id];
    assert |t| == 5 && t[0] == KEYWORD_OBJECT && t[1] == KEYWORD_ADD && t[2] == ot && t[4] == id;
    AddWithoutClauses(0.0, t, view, f);
  }

  /** spawnEventTest2: an AT clause places the object at the station. */
  lemma ObjectAddTest2(view: SetupView, ot: string, id: string, st: string, f: LogFields)
    requires Unquote(ot) in view.objectTypes && Unquote(st) in view.stations
    ensures ObjectEventSpec(0.0, [KEYWORD_OBJECT, KEYWORD_ADD, ot, KEYWORD_AS, id, KEYWORD_AT, st], view, f).0
         == Matched(LogEvent(0.0, ObjectAdd(Unquote(ot), Unquote(id), view.stations[Unquote(st)], 1.0, 1.0)))
  {
    var t := [KEYWORD_OBJECT, KEYWORD_ADD, ot, KEYWORD_AS, id, KEYWORD_AT, st];
    var p := view.stations[Unquote(st)];
    assert |t| == 7 && t[0] == KEYWORD_OBJECT && t[1] == KEYWORD_ADD && t[2] == ot && t[4] == id;
    assert t[5] == KEYWORD_AT && t[6] == st;
    AtClause(t, 5, view.stations, Origin, 1.0, 1.0);
    assert AddClauses(t, 7, view.stations, p, 1.0, 1.0) == Ok((p, 1.0, 1.0));
    AddWithClauses(0.0, t, view, f, p, 1.0, 1.0);
  }

  /** spawnEventTest3, for any two number tokens: SIZED sets the size (the
      literal tokens 1.5 and 1.7 of the test parse as TestNumbers states). */
  lemma AddSized(time: real, t: seq<string>, view: SetupView, f: LogFields, w: real, h: real)
    requires |t| == 8 && t[0] == KEYWORD_OBJECT && t[1] == KEYWORD_ADD && Unquote(t[2]) in view.objectTypes
    requires t[5] == KEYWORD_SIZED && ParseDouble(t[6]) == Some(w) && ParseDouble(t[7]) == Some(h)
    ensures ObjectEventSpec(time, t, view, f).0 == Matched(LogEvent(time, ObjectAdd(Unquote(t[2]), Unquote(t[4]), Origin, w, h)))
  {
    SizedClause(t, 5, view.stations, Origin, 1.0, 1.0, w, h);
    AddWithClauses(time, t, view, f, Origin, w, h);
  }

  /** spawnEventTest4, for any two number tokens: AT and SIZED together
      place the object at the station and set its size (the literal
      tokens 1.5 and 1.7 of the test parse as TestNumbers states). */
  lemma AddAtSized(time: real, t: seq<string>, view: SetupView, f: LogFields, w: real, h: real)
    requires |t| == 10 && t[0] == KEYWORD_OBJECT && t[1] == KEYWORD_ADD && Unquote(t[2]) in view.objectTypes
    requires t[5] == KEYWORD_AT && Unquote(t[6]) in view.stations
    requires t[7] == KEYWORD_SIZED && ParseDouble(t[8]) == Some(w) && ParseDouble(t[9]) == Some(h)
    ensures ObjectEventSpec(time, t, view, f).0
         == Matched(LogEvent(time, ObjectAdd(Unquote(t[2]), Unquote(t[4]), view.stations[Unquote(t[6])], w, h)))
  {
    var p := view.stations[Unquote(t[6])];
    AtClause(t, 5, view.stations, Origin, 1.0, 1.0);
    SizedClause(t, 7, view.stations, p, 1.0, 1.0, w, h);
    AddWithClauses(time, t, view, f, p, w, h);
  }

  /** spawnEventTest5: OBJECT REMOVE. */
  lemma ObjectRemoveTest(view: SetupView, id: string, f: LogFields)
    ensures ObjectEventSpec(0.0, [KEYWORD_OBJECT, KEYWORD_REMOVE, id], view, f).0
         == Matched(LogEvent(0.0, ObjectRemove(Unquote(id))))
  {
  }

  /** QueueEventTest: JOIN and LEAVE. */
  lemma QueueJoinTest(view: SetupView, q: string, id: string, f: LogFields)
    requires Unquote(q) in view.queues
    ensures QueueEventSpec(0.0, [KEYWORD_QUEUE, q, KEYWORD_JOIN, id], view, f).0
         == Matched(LogEvent(0.0, QueueChange(Unquote(q), KEYWORD_JOIN, Unquote(id))))
  {
  }

  lemma QueueLeaveTest(view: SetupView, q: string, id: string, f: LogFields)
    requires Unquote(q) in view.queues
    ensures QueueEventSpec(0.0, [KEYWORD_QUEUE, q, KEYWORD_LEAVE, id], view, f).0
         == Matched(LogEvent(0.0, QueueChange(Unquote(q), KEYWORD_LEAVE, Unquote(id))))
  {
  }

  /** ResourceEventTest. */
  lemma ResourceTest(view: SetupView, res: string, state: string, f: LogFields)
    requires Unquote(res) in view.resources
    ensures ResourceEventSpec(0.0, [KEYWORD_RESOURCE, res, KEYWORD_SET, "STATE", state], view, f).0
         == Matched(LogEvent(0.0, ResourceChange(Unquote(res), Unquote(state))))
  {
  }
}
