// The replay engine's entities: sim/KSLObject.kt (and its applyMovement),
// the MoveQuery job of sim/events/MoveEvent.kt, sim/KSLQueue.kt and
// sim/KSLResource.kt. Each is a class whose fields the engine updates in
// place; a move's effect is specified by the pure function MovementStep.

module SimEntities {
  import opened Common
  import opened MovementFunctions
  import LinkedMaps
  import opened Setup

  /** MoveQuery: one running movement of one object. */
  datatype MoveQuery = MoveQuery(
    objectId: string,
    startPosition: Position,
    endPosition: Position,
    elapsedTime: real,
    duration: real,
    movementFunction: string)

  /** The double `elapsedTime / duration`. With a zero duration the division
      gives +Infinity for a positive elapsed time and NaN for zero. */
  datatype Progress = Ratio(amount: real) | PositiveInfinity | NotANumber

  function ProgressOf(elapsed: real, duration: real): (p: Progress)
    requires elapsed >= 0.0 && duration >= 0.0
    ensures p.Ratio? <==> duration > 0.0
    ensures p.Ratio? ==> p.amount * duration == elapsed && p.amount >= 0.0
    ensures p.NotANumber? <==> duration == 0.0 && elapsed == 0.0
  {
    if duration != 0.0 then Ratio(elapsed / duration)
    else if elapsed > 0.0 then PositiveInfinity
    else NotANumber
  }

  /** `amount >= 1`, which is false for NaN. */
  predicate Completes(p: Progress)
  {
    p.PositiveInfinity? || (p.Ratio? && p.amount >= 1.0)
  }

  /** The jobs whose step is a well-defined position: no negative times, and
      a NaN progress (0/0) only for INSTANT, which ignores its argument (or
      for an unknown curve, which throws). Any other curve would turn NaN
      into a NaN position. */
  predicate Steppable(job: MoveQuery)
  {
    job.elapsedTime >= 0.0 && job.duration >= 0.0
    && (ProgressOf(job.elapsedTime, job.duration).NotANumber? ==>
          job.movementFunction == INSTANT_FUNCTION || !IsKnownFunction(job.movementFunction))
  }

  /** `(end - start) * f + start`, in the source's order of operations. */
  function Interpolate(start: Position, end: Position, f: real): Position
  {
    end.Minus(start).Times(f).Plus(start)
  }

  /** Every coordinate of `p` lies between those of `a` and `b`. */
  predicate Between(p: Position, a: Position, b: Position)
  {
    ((a.x <= p.x <= b.x) || (b.x <= p.x <= a.x)) && ((a.y <= p.y <= b.y) || (b.y <= p.y <= a.y))
  }

  /** sim KSLObject.applyMovement: the new position and the completion flag,
      or the "Unknown function" exception. */
  function MovementStep(job: MoveQuery): (r: Result<(Position, bool)>)
    requires Steppable(job)
    ensures Completes(ProgressOf(job.elapsedTime, job.duration)) ==> r == Ok((job.endPosition, true))
    ensures !Completes(ProgressOf(job.elapsedTime, job.duration)) ==>
      (r.Err? <==> !IsKnownFunction(job.movementFunction))
    ensures r.Ok? && !r.value.1 ==> var p := ProgressOf(job.elapsedTime, job.duration);
      r.value.0 == Interpolate(job.startPosition, job.endPosition,
                               ApplyFunction(job.movementFunction, if p.Ratio? then p.amount else 0.0).value)
  {
    var p := ProgressOf(job.elapsedTime, job.duration);
    if Completes(p) then Ok((job.endPosition, true))
    else
      // Only a Ratio or, for INSTANT, NaN reaches here; INSTANT ignores the argument.
      var amount := if p.Ratio? then p.amount else 0.0;
      match ApplyFunction(job.movementFunction, amount)
      case Err(e) => Err(e)
      case Ok(f) => Ok((Interpolate(job.startPosition, job.endPosition, f), false))
  }

  lemma InterpolateEnds(s: Position, e: Position)
    ensures Interpolate(s, e, 0.0) == s
    ensures Interpolate(s, e, 1.0) == e
  {
  }

  lemma MulNonNegative(a: real, b: real)
    requires a >= 0.0 && b >= 0.0
    ensures a * b >= 0.0
  {
  }

  lemma MulPositive(a: real, b: real)
    requires a > 0.0 && b > 0.0
    ensures a * b > 0.0
  {
  }

  /** A point part of the way from `a` to `b` lies between them. */
  lemma ScaledBetween(a: real, b: real, f: real)
    requires 0.0 <= f <= 1.0
    ensures (a <= (b - a) * f + a <= b) || (b <= (b - a) * f + a <= a)
  {
    var d := b - a;
    if d >= 0.0 {
      MulNonNegative(d, f);
      MulNonNegative(d, 1.0 - f);
      assert d * (1.0 - f) == d - d * f;
    } else {
      MulNonNegative(-d, f);
      MulNonNegative(-d, 1.0 - f);
      assert -d * (1.0 - f) == d * f - d;
      assert -d * f == -(d * f);
    }
  }

  lemma InterpolateBetween(s: Position, e: Position, f: real)
    requires 0.0 <= f <= 1.0
    ensures Between(Interpolate(s, e, f), s, e)
  {
    assert Interpolate(s, e, f) == Position((e.x - s.x) * f + s.x, (e.y - s.y) * f + s.y);
    ScaledBetween(s.x, e.x, f);
    ScaledBetween(s.y, e.y, f);
  }

  /** A move that has just started sits at its start point, for LINEAR and
      every EASE curve. */
  lemma StepAtStart(job: MoveQuery)
    requires job.elapsedTime == 0.0 && job.duration > 0.0
    requires IsKnownFunction(job.movementFunction) && job.movementFunction != INSTANT_FUNCTION
    ensures Steppable(job)
    ensures MovementStep(job) == Ok((job.startPosition, false))
  {
    assert ProgressOf(0.0, job.duration) == Ratio(0.0);
    EasingEndpoints(job.movementFunction);
    InterpolateEnds(job.startPosition, job.endPosition);
  }

  /** Before it completes, an eased move stays inside the box spanned by its
      endpoints; so does a LINEAR move, whose progress is then below one. */
  lemma StepStaysBetween(job: MoveQuery)
    requires Steppable(job)
    requires IsCubic(job.movementFunction) || job.movementFunction == LINEAR_FUNCTION
    ensures MovementStep(job).Ok?
    ensures Between(MovementStep(job).value.0, job.startPosition, job.endPosition)
  {
    var p := ProgressOf(job.elapsedTime, job.duration);
    if Completes(p) {
      assert Between(job.endPosition, job.startPosition, job.endPosition);
    } else {
      var f := ApplyFunction(job.movementFunction, p.amount).value;
      assert 0.0 <= f <= 1.0;
      InterpolateBetween(job.startPosition, job.endPosition, f);
    }
  }

  /** An INSTANT job with a zero duration (a trailing move, or one run before
      its duration was filled in) is placed at its end point but never
      reports completion, because 0/0 is NaN and NaN >= 1 is false. */
  lemma InstantWithoutDurationNeverCompletes(job: MoveQuery)
    requires job.movementFunction == INSTANT_FUNCTION && job.duration == 0.0 && job.elapsedTime == job.duration
    ensures Steppable(job)
    ensures MovementStep(job) == Ok((job.endPosition, false))
  {
    InterpolateEnds(job.startPosition, job.endPosition);
  }

  /** An INSTANT job whose elapsed time has been set to a positive duration
      completes at once. */
  lemma InstantWithDurationCompletes(job: MoveQuery)
    requires job.movementFunction == INSTANT_FUNCTION && job.duration > 0.0 && job.elapsedTime == job.duration
    ensures Steppable(job)
    ensures MovementStep(job) == Ok((job.endPosition, true))
  {
    assert job.elapsedTime / job.duration == 1.0;
  }

  // ------------------------------------------------------------ KSLObject

  /** sim KSLObject: an object of the replay, drawn at `position`. */
  class SimObject {
    const id: string
    var position: Position
    const objectType: string
    const width: real
    const height: real

    constructor (id: string, position: Position, objectType: string, width: real, height: real)
      ensures this.id == id && this.position == position && this.objectType == objectType
      ensures this.width == width && this.height == height
    {
      this.id := id;
      this.position := position;
      this.objectType := objectType;
      this.width := width;
      this.height := height;
    }

    /** applyMovement: moves the object one step of `job` and reports whether
        the job is finished; only `position` changes. */
    method ApplyMovement(job: MoveQuery) returns (r: Result<bool>)
      requires Steppable(job)
      modifies this`position
      ensures MovementStep(job).Ok? ==> r == Ok(MovementStep(job).value.1) && position == MovementStep(job).value.0
      ensures MovementStep(job).Err? ==> r == Err(MovementStep(job).error) && position == old(position)
    {
      var step := MovementStep(job);
      if step.Err? {
        return Err(step.error);
      }
      position := step.value.0;
      return Ok(step.value.1);
    }
  }

  // ------------------------------------------------------------- KSLQueue

  /** sim KSLQueue: a line between two points and its members, drawn from
      the end point backwards in the order they joined. */
  class SimQueue {
    const id: string
    const startPosition: Position
    const endPosition: Position
    const scale: real
    const position: Position
    var members: seq<(string, SimObject)>

    ghost predicate Valid()
      reads this`members
    {
      LinkedMaps.Valid(members)
    }

    constructor (id: string, startPosition: Position, endPosition: Position, scale: real)
      ensures Valid() && members == []
      ensures this.id == id && this.startPosition == startPosition && this.endPosition == endPosition
      ensures this.scale == scale && position == Midpoint(startPosition, endPosition)
    {
      this.id := id;
      this.startPosition := startPosition;
      this.endPosition := endPosition;
      this.scale := scale;
      this.position := Midpoint(startPosition, endPosition);
      members := [];
    }

    /** The ids of the members, in drawing order. */
    function MemberIds(): seq<string>
      reads this`members
    {
      LinkedMaps.Keys(members)
    }

    /** addObject: `objects[id] = object`. */
    method AddObject(o: SimObject)
      requires Valid()
      modifies this`members
      ensures Valid()
      ensures members == LinkedMaps.Put(old(members), o.id, o)
    {
      LinkedMaps.PutKeepsValid(members, o.id, o);
      members := LinkedMaps.Put(members, o.id, o);
    }

    /** removeObject: `objects.remove(id)`. */
    method RemoveObject(o: SimObject)
      requires Valid()
      modifies this`members
      ensures Valid()
      ensures members == LinkedMaps.Remove(old(members), o.id)
    {
      LinkedMaps.RemoveKeepsValid(members, o.id);
      members := LinkedMaps.Remove(members, o.id);
    }
  }

  /** Joining keeps the draw slot of every member already queued and puts a
      newcomer last; joining again keeps the old slot. */
  lemma JoinKeepsDrawOrder(members: seq<(string, SimObject)>, o: SimObject)
    ensures var after := LinkedMaps.Keys(LinkedMaps.Put(members, o.id, o));
      if o.id in LinkedMaps.Keys(members) then after == LinkedMaps.Keys(members)
      else after == LinkedMaps.Keys(members) + [o.id]
  {
  }

  /** After a join the id maps to the joining object, and other ids keep
      their entries; after a leave the id is absent and the others stay. */
  lemma JoinAndLeaveLookups(members: seq<(string, SimObject)>, o: SimObject, other: string)
    requires other != o.id
    ensures LinkedMaps.Get(LinkedMaps.Put(members, o.id, o), o.id) == Some(o)
    ensures LinkedMaps.Get(LinkedMaps.Put(members, o.id, o), other) == LinkedMaps.Get(members, other)
    ensures LinkedMaps.Get(LinkedMaps.Remove(members, o.id), o.id) == None
    ensures LinkedMaps.Get(LinkedMaps.Remove(members, o.id), other) == LinkedMaps.Get(members, other)
  {
    LinkedMaps.GetOfPut(members, o.id, o, o.id);
    LinkedMaps.GetOfPut(members, o.id, o, other);
    LinkedMaps.GetOfRemove(members, o.id, o.id);
    LinkedMaps.GetOfRemove(members, o.id, other);
  }

  // ---------------------------------------------------------- KSLResource

  /** sim KSLResource: a resource drawn with the image of its current state. */
  class SimResource {
    const resourceStates: ResourceStates
    var currentState: string
    const position: Position
    const width: real
    const height: real

    constructor Init(resourceStates: ResourceStates, position: Position, width: real, height: real)
      ensures this.resourceStates == resourceStates && currentState == "idle"
      ensures this.position == position && this.width == width && this.height == height
    {
      this.resourceStates := resourceStates;
      currentState := "idle";
      this.position := position;
      this.width := width;
      this.height := height;
    }

    /** KSLResource(states, ...): fails exactly when ResourceStates does,
        that is when no state is a default; the current state starts as
        "idle" whatever the default is. */
    static method Create(states: seq<ResourceState>, position: Position, width: real, height: real)
      returns (r: Result<SimResource>)
      requires NoDuplicates(states)
      ensures r.Err? <==> FirstDefault(Values(states)).None?
      ensures r.Err? ==> r.error == Runtime("No default state found")
      ensures r.Ok? ==> fresh(r.value) && r.value.currentState == "idle"
      ensures r.Ok? ==> r.value.resourceStates.states == states && r.value.resourceStates.Valid()
      ensures r.Ok? ==> r.value.position == position && r.value.width == width && r.value.height == height
    {
      var rs := ResourceStates.Create(states);
      if rs.Err? {
        return Err(rs.error);
      }
      var res := new SimResource.Init(rs.value, position, width, height);
      return Ok(res);
    }

    /** setState: any string is accepted; nothing else changes. */
    method SetState(state: string)
      modifies this`currentState
      ensures currentState == state
    {
      currentState := state;
    }

    /** The texture name render draws, resolved through getImage. */
    method Image(images: set<string>) returns (r: Result<string>)
      ensures r == ImageFor(resourceStates.Snapshot(), resourceStates.defaultState.image, currentState, images)
    {
      r := resourceStates.GetImage(currentState, images);
    }
  }
}
