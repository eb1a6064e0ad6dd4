// sim/KSLLogEvent.kt: the token cursor every event's `parse` drives, and the
// fields of sim/KSLAnimationLog.kt that parsing writes. Each event class's
// `parse` is a method of the cursor proved to compute the grammar function
// of the same name in LogEvents.

module LogCursor {
  import opened Common
  import opened LogEvents
  import opened MovementFunctions
  import opened Text
  import opened LogLoading
  import LinkedMaps

  /** KSLAnimationLog's state: the sorted events, the insertion-ordered set
      of object ids parsing has seen, and the START/STOP times. */
  class AnimationLog {
    var events: seq<LogEvent>
    var objects: seq<string>
    var startTime: real
    var endTime: real

    constructor ()
      ensures events == [] && objects == [] && startTime == 0.0 && endTime == 0.0
    {
      events, objects, startTime, endTime := [], [], 0.0, 0.0;
    }

    /** The part of the log a parse may change. */
    function Fields(): LogFields
      reads this
    {
      LogFields(objects, startTime, endTime)
    }
 
    /** parseLogLine, with the viewer's registries as `view`. */
    method ParseLogLine(line: string, view: SetupView) returns (r: ParseOutcome)
      modifies this`objects, this`startTime, this`endTime
      ensures events == old(events)
      ensures (r, Fields()) == LineSpec(line, view, old(Fields()))
    {
      var parts := SplitAtFirst(line, LINE_SEPARATOR);
      if parts.None? {
        return NoMatch;
      }
      var time := ParseDouble(parts.value.0);
      if time.None? {
        return NoMatch;
      }
      r := ParseCandidates(time.value, Split(parts.value.1, ' '), view);
    }

    /** The candidates of parseLogLine, tried in order on fresh events. */
    method ParseCandidates(time: real, tokens: seq<string>, view: SetupView) returns (r: ParseOutcome)
      modifies this`objects, this`startTime, this`endTime
      ensures events == old(events)
      ensures (r, Fields()) == CandidatesSpec(time, tokens, view, old(Fields()))
    {
      var objectEvent := new EventCursor(time, view, this);
      r := objectEvent.ParseObjectEvent(tokens);
      if !r.NoMatch? {
        return;
      }
      var queueEvent := new EventCursor(time, view, this);
      r := queueEvent.ParseQueueEvent(tokens);
      if !r.NoMatch? {
        return;
      }
      var resourceEvent := new EventCursor(time, view, this);
      r := resourceEvent.ParseResourceEvent(tokens);
      if !r.NoMatch? {
        return;
      }
      var moveEvent := new EventCursor(time, view, this);
      r := moveEvent.ParseMoveEvent(tokens);
      if !r.NoMatch? {
        return;
      }
      var animationEvent := new EventCursor(time, view, this);
      r := animationEvent.ParseAnimationEvent(tokens);
    }

    /** `lines.mapNotNull { parseLogLine(it) }`: the first exception ends
        it. */
    method ParseLines(lines: seq<string>, view: SetupView) returns (r: Result<seq<LogEvent>>)
      modifies this`objects, this`startTime, this`endTime
      ensures events == old(events)
      ensures (r, Fields()) == LinesSpec(lines, view, old(Fields()))
    {
      ghost var f := Fields();
      var parsed: seq<LogEvent> := [];
      var i := 0;
      while i < |lines|
        invariant i <= |lines| && events == old(events)
        invariant (Ok(parsed), Fields()) == LinesSpec(lines[..i], view, f)
      {
        ghost var before := Fields();
        var line := ParseLogLine(lines[i], view);
        LinesStep(lines, i, view, f, parsed, before, line, Fields());
        if line.Threw? {
          AbortedAt(lines, i, view, f);
          return Err(line.error);
        }
        if line.Matched? {
          parsed := parsed + [line.event];
        }
        i := i + 1;
      }
      assert lines[..i] == lines;
      r := Ok(parsed);
    }

    /** The back-fill of loadLog: for each recorded id in turn, each event
        involving it ends the MOVE of that id seen last. `lastEvent` holds
        the index of the last event seen per id. */
    method FillDurations()
      requires NoDuplicates(objects)
      modifies this`events
      ensures events == BackFilled(old(events), objects)
    {
      ghost var orig := events;
      var lastEvent: map<string, nat> := map[];
      var i := 0;
      PartlyFilledBoundaries(orig, [], "", "");
      while i < |objects|
        invariant i <= |objects|
        invariant events == PartlyFilled(orig, objects[..i], "", 0)
        invariant forall id :: id in lastEvent ==> id in objects[..i]
      {
        var id := objects[i];
        assert id !in objects[..i];
        PartlyFilledBoundaries(orig, objects[..i], "", id);
        lastEvent := FillObject(id, lastEvent, orig, objects[..i]);
        PartlyFilledBoundaries(orig, objects[..i], id, "");
        assert objects[..i + 1] == objects[..i] + [id];
        i := i + 1;
      }
      assert objects[..i] == objects;
      PartlyFilledBoundaries(orig, objects, "", "");
    }

    /** The pass of loadLog's back-fill for one object id. */
    method FillObject(id: string, lastEvent: map<string, nat>, ghost orig: seq<LogEvent>, ghost done: seq<string>)
        returns (last: map<string, nat>)
      requires id !in done && id !in lastEvent && events == PartlyFilled(orig, done, id, 0)
      modifies this`events
      ensures events == PartlyFilled(orig, done, id, |orig|)
      ensures forall k :: k in last ==> k in lastEvent || k == id
    {
      last := lastEvent;
      var j := 0;
      while j < |events|
        invariant j <= |orig| == |events|
        invariant events == PartlyFilled(orig, done, id, j)
        invariant id in last <==> LastInvolving(orig, id, j).Some?
        invariant id in last ==> last[id] == LastInvolving(orig, id, j).value
        invariant forall k :: k in last ==> k in lastEvent || k == id
      {
        FillRound(orig, done, id, j, if id in last then Some(last[id]) else None);
        if InvolvesObject(events[j], id) {
          if id in last {
            var p := last[id];
            if events[p].body.Move? {
              events := events[p := WithDuration(events[p], events[j].time - events[p].time)];
            }
          }
          last := last[id := j];
        }
        j := j + 1;
      }
    }
  }

  /** One event's parsing state: its time, the registries it checks ids
      against, the log it records ids in, and the cursor over its tokens. */
  class EventCursor {
    const time: real
    const view: SetupView
    const log: AnimationLog
    var tokens: seq<string>
    var currentToken: nat

    constructor (time: real, view: SetupView, log: AnimationLog)
      ensures this.time == time && this.view == view && this.log == log
      ensures tokens == [] && currentToken == 0
    {
      this.time, this.view, this.log := time, view, log;
      tokens, currentToken := [], 0;
    }

    /** startParsing: installs the tokens and rewinds the cursor. */
    method StartParsing(toks: seq<string>)
      modifies this`tokens, this`currentToken
      ensures tokens == toks && currentToken == 0
    {
      tokens, currentToken := toks, 0;
    }

    predicate HasNext()
      reads this
    {
      currentToken < |tokens|
    }

    /** next(amount): moves the cursor with no bound check. */
    method Next(amount: nat)
      modifies this`currentToken
      ensures tokens == old(tokens) && currentToken == old(currentToken) + amount
    {
      currentToken := currentToken + amount;
    }

    /** parseKeyword: the token under the cursor, which then moves on by
        one; past the end the read throws and the cursor stays. */
    method ParseKeyword() returns (r: Result<string>)
      modifies this`currentToken
      ensures tokens == old(tokens)
      ensures r == ReadToken(tokens, old(currentToken))
      ensures currentToken == if r.Ok? then old(currentToken) + 1 else old(currentToken)
    {
      if currentToken >= |tokens| {
        return Err(IndexOutOfBounds);
      }
      r := Ok(tokens[currentToken]);
      Next(1);
    }

    /** parseObjectId: the unquoted token, added to the log's object ids
        without any registry check. */
    method ParseObjectId() returns (r: Result<string>)
      modifies this`currentToken, log`objects
      ensures tokens == old(tokens) && log.events == old(log.events)
      ensures r == ReadUnquoted(tokens, old(currentToken))
      ensures currentToken == if r.Ok? then old(currentToken) + 1 else old(currentToken)
      ensures log.Fields() == if r.Ok? then Record(old(log.Fields()), r.value) else old(log.Fields())
    {
      if currentToken >= |tokens| {
        return Err(IndexOutOfBounds);
      }
      var objectId := Unquote(tokens[currentToken]);
      Next(1);
      log.objects := LinkedMaps.AddToSet(log.objects, objectId);
      r := Ok(objectId);
    }

    /** The shared shape of parseObjectTypeId, parseQueueId, parseResourceId
        and parseVariableId: the cursor moves on before the id is checked. */
    method ParseRegistered(keys: set<string>, what: string) returns (r: Result<string>)
      modifies this`currentToken
      ensures tokens == old(tokens)
      ensures r == ReadRegistered(tokens, old(currentToken), keys, what)
      ensures currentToken == if old(currentToken) < |tokens| then old(currentToken) + 1 else old(currentToken)
    {
      if currentToken >= |tokens| {
        return Err(IndexOutOfBounds);
      }
      var id := Unquote(tokens[currentToken]);
      Next(1);
      if id in keys {
        r := Ok(id);
      } else {
        r := Err(LogParsing(what + " " + id + " not found"));
      }
    }

    method ParseObjectTypeId() returns (r: Result<string>)
      modifies this`currentToken
      ensures tokens == old(tokens)
      ensures r == ReadRegistered(tokens, old(currentToken), view.objectTypes, "Object type")
      ensures currentToken == if old(currentToken) < |tokens| then old(currentToken) + 1 else old(currentToken)
    {
      r := ParseRegistered(view.objectTypes, "Object type");
    }

    method ParseQueueId() returns (r: Result<string>)
      modifies this`currentToken
      ensures tokens == old(tokens)
      ensures r == ReadRegistered(tokens, old(currentToken), view.queues, "Queue")
      ensures currentToken == if old(currentToken) < |tokens| then old(currentToken) + 1 else old(currentToken)
    {
      r := ParseRegistered(view.queues, "Queue");
    }

    method ParseResourceId() returns (r: Result<string>)
      modifies this`currentToken
      ensures tokens == old(tokens)
      ensures r == ReadRegistered(tokens, old(currentToken), view.resources, "Resource")
      ensures currentToken == if old(currentToken) < |tokens| then old(currentToken) + 1 else old(currentToken)
    {
      r := ParseRegistered(view.resources, "Resource");
    }

    method ParseVariableId() returns (r: Result<string>)
      modifies this`currentToken
      ensures tokens == old(tokens)
      ensures r == ReadRegistered(tokens, old(currentToken), view.variables, "Variable")
      ensures currentToken == if old(currentToken) < |tokens| then old(currentToken) + 1 else old(currentToken)
    {
      r := ParseRegistered(view.variables, "Variable");
    }

    /** parseStation: the position of the named station. */
    method ParseStation() returns (r: Result<Position>)
      modifies this`currentToken
      ensures tokens == old(tokens)
      ensures r == ReadStation(tokens, old(currentToken), view.stations)
      ensures currentToken == if old(currentToken) < |tokens| then old(currentToken) + 1 else old(currentToken)
    {
      if currentToken >= |tokens| {
        return Err(IndexOutOfBounds);
      }
      var stationId := Unquote(tokens[currentToken]);
      Next(1);
      if stationId in view.stations {
        r := Ok(view.stations[stationId]);
      } else {
        r := Err(LogParsing("Station " + stationId + " not found"));
      }
    }

    /** parseString: the unquoted token. */
    method ParseString() returns (r: Result<string>)
      modifies this`currentToken
      ensures tokens == old(tokens)
      ensures r == ReadUnquoted(tokens, old(currentToken))
      ensures currentToken == if r.Ok? then old(currentToken) + 1 else old(currentToken)
    {
      if currentToken >= |tokens| {
        return Err(IndexOutOfBounds);
      }
      r := Ok(Unquote(tokens[currentToken]));
      Next(1);
    }

    /** parseNumber: the token read as a double; the cursor moves on even
        when the token is not a number. */
    method ParseNumber() returns (r: Result<real>)
      modifies this`currentToken
      ensures tokens == old(tokens)
      ensures r == ReadNumber(tokens, old(currentToken))
      ensures currentToken == if old(currentToken) < |tokens| then old(currentToken) + 1 else old(currentToken)
    {
      if currentToken >= |tokens| {
        return Err(IndexOutOfBounds);
      }
      var value := tokens[currentToken];
      var number := Text.ParseDouble(value);
      Next(1);
      if number.Some? {
        r := Ok(number.value);
      } else {
        r := Err(LogParsing("Invalid number: " + value));
      }
    }

    // ------------------------------------------------------------ parse

    /** The `while (hasNext())` clause loop of ObjectEvent.parse. */
    method ParseAddClauses() returns (r: Result<(Position, real, real)>)
      modifies this`currentToken
      requires currentToken <= |tokens|
      ensures tokens == old(tokens)
      ensures r == AddClauses(tokens, old(currentToken), view.stations, Origin, 1.0, 1.0)
    {
      ghost var start := currentToken;
      var position, width, height := Origin, 1.0, 1.0;
      while HasNext()
        invariant tokens == old(tokens) && currentToken <= |tokens|
        invariant AddClauses(tokens, currentToken, view.stations, position, width, height)
               == AddClauses(tokens, start, view.stations, Origin, 1.0, 1.0)
        decreases |tokens| - currentToken
      {
        var c := ParseClause(position, width, height);
        if c.Err? {
          return Err(c.error);
        }
        position, width, height := c.value.0, c.value.1, c.value.2;
      }
      return Ok((position, width, height));
    }

    /** One pass of the clause loop of OBJECT ADD: reads the clause at the cursor. */
    method ParseClause(position: Position, width: real, height: real) returns (r: Result<(Position, real, real)>)
      modifies this`currentToken
      requires currentToken < |tokens|
      ensures tokens == old(tokens)
      ensures r.Err? ==> r == AddClauses(tokens, old(currentToken), view.stations, position, width, height)
      ensures r.Ok? ==> old(currentToken) < currentToken <= |tokens|
      ensures r.Ok? ==> AddClauses(tokens, currentToken, view.stations, r.value.0, r.value.1, r.value.2)
                        == AddClauses(tokens, old(currentToken), view.stations, position, width, height)
    {
      var keyword := ParseKeyword();
      if keyword.value == KEYWORD_AT {
        var p := ParseStation();
        if p.Err? {
          return Err(p.error);
        }
        r := Ok((p.value, width, height));
      } else if keyword.value == KEYWORD_SIZED {
        var w := ParseNumber();
        if w.Err? {
          return Err(w.error);
        }
        var h := ParseNumber();
        if h.Err? {
          return Err(h.error);
        }
        r := Ok((position, w.value, h.value));
      } else {
        r := Ok((position, width, height));
      }
    }

    /** ObjectEvent.parse. */
    method ParseObjectEvent(toks: seq<string>) returns (r: ParseOutcome)
      modifies this`tokens, this`currentToken, log`objects
      ensures log.events == old(log.events)
      ensures (r, log.Fields()) == ObjectEventSpec(time, toks, view, old(log.Fields()))
    {
      StartParsing(toks);
      var keyword := ParseKeyword();
      if keyword.Err? {
        return Threw(keyword.error);
      }
      if keyword.value != KEYWORD_OBJECT {
        return NoMatch;
      }
      var action := ParseKeyword();
      if action.Err? {
        return Threw(action.error);
      }
      if action.value == KEYWORD_ADD {
        var objectTypeId := ParseObjectTypeId();
        if objectTypeId.Err? {
          return Threw(objectTypeId.error);
        }
        Next(1);  // AS
        var objectId := ParseObjectId();
        if objectId.Err? {
          return Threw(objectId.error);
        }
        var clauses := ParseAddClauses();
        if clauses.Err? {
          return Threw(clauses.error);
        }
        var c := clauses.value;
        r := Matched(LogEvent(time, ObjectAdd(objectTypeId.value, objectId.value, c.0, c.1, c.2)));
      } else if action.value == KEYWORD_REMOVE {
        var objectId := ParseObjectId();
        if objectId.Err? {
          return Threw(objectId.error);
        }
        r := Matched(LogEvent(time, ObjectRemove(objectId.value)));
      } else {
        r := Threw(LogParsing("Unknown action " + action.value));
      }
    }

    /** QueueEvent.parse. */
    method ParseQueueEvent(toks: seq<string>) returns (r: ParseOutcome)
      modifies this`tokens, this`currentToken, log`objects
      ensures log.events == old(log.events)
      ensures (r, log.Fields()) == QueueEventSpec(time, toks, view, old(log.Fields()))
    {
      StartParsing(toks);
      var keyword := ParseKeyword();
      if keyword.Err? {
        return Threw(keyword.error);
      }
      if keyword.value != KEYWORD_QUEUE {
        return NoMatch;
      }
      var queueId := ParseQueueId();
      if queueId.Err? {
        return Threw(queueId.error);
      }
      var action := ParseKeyword();
      if action.Err? {
        return Threw(action.error);
      }
      var objectId := ParseObjectId();
      if objectId.Err? {
        return Threw(objectId.error);
      }
      if action.value != KEYWORD_JOIN && action.value != KEYWORD_LEAVE {
        return Threw(LogParsing("Unknown queue action"));
      }
      r := Matched(LogEvent(time, QueueChange(queueId.value, action.value, objectId.value)));
    }

    /** ResourceEvent.parse. */
    method ParseResourceEvent(toks: seq<string>) returns (r: ParseOutcome)
      modifies this`tokens, this`currentToken
      ensures (r, log.Fields()) == ResourceEventSpec(time, toks, view, log.Fields())
    {
      StartParsing(toks);
      var keyword := ParseKeyword();
      if keyword.Err? {
        return Threw(keyword.error);
      }
      if keyword.value != KEYWORD_RESOURCE {
        return NoMatch;
      }
      var resourceId := ParseResourceId();
      if resourceId.Err? {
        return Threw(resourceId.error);
      }
      Next(2);  // SET STATE
      var newState := ParseString();
      if newState.Err? {
        return Threw(newState.error);
      }
      r := Matched(LogEvent(time, ResourceChange(resourceId.value, newState.value)));
    }

    /** VariableEvent.parse. */
    method ParseVariableEvent(toks: seq<string>) returns (r: ParseOutcome)
      modifies this`tokens, this`currentToken
      ensures (r, log.Fields()) == VariableEventSpec(time, toks, view, log.Fields())
    {
      StartParsing(toks);
      var keyword := ParseKeyword();
      if keyword.Err? {
        return Threw(keyword.error);
      }
      if keyword.value != KEYWORD_VARIABLE {
        return NoMatch;
      }
      var variableId := ParseVariableId();
      if variableId.Err? {
        return Threw(variableId.error);
      }
      var set_ := ParseKeyword();
      if set_.Err? {
        return Threw(set_.error);
      }
      if set_.value != KEYWORD_SET {
        return NoMatch;
      }
      var stringVal := ParseString();
      if stringVal.Err? {
        return Threw(stringVal.error);
      }
      r := Matched(LogEvent(time, VariableSet(variableId.value, stringVal.value, Text.ParseDouble(stringVal.value))));
    }

    /** MoveEvent.parse. */
    method ParseMoveEvent(toks: seq<string>) returns (r: ParseOutcome)
      modifies this`tokens, this`currentToken, log`objects
      ensures log.events == old(log.events)
      ensures (r, log.Fields()) == MoveEventSpec(time, toks, view, old(log.Fields()))
    {
      StartParsing(toks);
      var keyword := ParseKeyword();
      if keyword.Err? {
        return Threw(keyword.error);
      }
      if keyword.value != KEYWORD_MOVE {
        return NoMatch;
      }
      var objectId := ParseObjectId();
      if objectId.Err? {
        return Threw(objectId.error);
      }
      Next(1);  // FROM
      var startPosition := ParseStation();
      if startPosition.Err? {
        return Threw(startPosition.error);
      }
      Next(1);  // TO
      var endPosition := ParseStation();
      if endPosition.Err? {
        return Threw(endPosition.error);
      }
      var movementFunction := LINEAR_FUNCTION;
      if HasNext() {
        var as_ := ParseKeyword();
        if as_.value == KEYWORD_AS {
          var fn := ParseKeyword();
          if fn.Err? {
            return Threw(fn.error);
          }
          if !IsKnownFunction(fn.value) {
            return Threw(LogParsing("Unknown easing function: " + fn.value));
          }
          movementFunction := fn.value;
        }
      }
      r := Matched(LogEvent(time, Move(objectId.value, startPosition.value, endPosition.value, movementFunction, 0.0)));
    }

    /** AnimationEvent.parse: reads `tokens[0]` directly, without the cursor. */
    method ParseAnimationEvent(toks: seq<string>) returns (r: ParseOutcome)
      modifies log`startTime, log`endTime
      ensures log.events == old(log.events)
      ensures (r, log.Fields()) == AnimationEventSpec(time, toks, old(log.Fields()))
    {
      if |toks| == 0 {
        return Threw(IndexOutOfBounds);
      }
      var keyword := toks[0];
      if keyword == KEYWORD_START {
        log.startTime := time;
        return Matched(LogEvent(time, AnimationMark(KEYWORD_START)));
      }
      if keyword == KEYWORD_STOP {
        log.endTime := time;
        return Matched(LogEvent(time, AnimationMark(KEYWORD_STOP)));
      }
      r := NoMatch;
    }
  }
}
