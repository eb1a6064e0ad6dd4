// The editor's scene entities, common/renderables/: KSLObject (a
// KSLResizable), KSLQueue, KSLResource, KSLStation and KSLVariable. Each is a
// class whose fields the mouse handlers, the editor and the scene's changes
// update in place. The arithmetic they share is specified in Geometry and
// Colors; the handlers that record a change in the scene's history are in
// AnimationScenes.

module EditorEntities {
  import opened Common
  import opened Geometry
  import opened Colors
  import opened Text
  import opened Setup
  import opened MovementFunctions
  import opened SimEntities
  import LinkedMaps

  /** A mouse position: the Int pixel coordinates as a point. */
  function Mouse(x: int, y: int): Position
  {
    Position(x as real, y as real)
  }

  /** The loop of onMouseDown over the click points, in map order: the first
      point whose square holds the click. */
  method FindClickPoint(cs: seq<(DragPoint, Position)>, x: int, y: int, screenUnit: real, offset: Position)
    returns (r: Option<nat>)
    ensures r == FirstHit(cs, 0, x as real, y as real, screenUnit, offset)
  {
    var i := 0;
    while i < |cs|
      invariant 0 <= i <= |cs|
      invariant forall j :: 0 <= j < i ==> !ClickHit(cs[j].1, x as real, y as real, screenUnit, offset)
    {
      if ClickHit(cs[i].1, x as real, y as real, screenUnit, offset) {
        return Some(i);
      }
      i := i + 1;
    }
    return None;
  }

  // ------------------------------------------------------------ KSLObject

  /** The object's step of a movement in the editor: INSTANT always jumps to
      the end and completes, whatever the progress; any other curve steps
      as the replay does. */
  function EditorStep(job: MoveQuery): (r: Result<(Position, bool)>)
    requires Steppable(job)
    ensures job.movementFunction == INSTANT_FUNCTION ==> r == Ok((job.endPosition, true))
  {
    if job.movementFunction == INSTANT_FUNCTION then Ok((job.endPosition, true))
    else MovementStep(job)
  }

  /** The editor and the replay put an object at the same point on every
      step; they differ only in the completion flag, and only for an INSTANT
      job that the replay does not see as complete (its progress below one,
      or 0/0). */
  lemma EditorAndReplayAgree(job: MoveQuery)
    requires Steppable(job)
    ensures EditorStep(job).Ok? <==> MovementStep(job).Ok?
    ensures EditorStep(job).Ok? ==> EditorStep(job).value.0 == MovementStep(job).value.0
    ensures EditorStep(job).Ok? && EditorStep(job).value.1 != MovementStep(job).value.1 ==>
      job.movementFunction == INSTANT_FUNCTION && !Completes(ProgressOf(job.elapsedTime, job.duration))
  {
    if job.movementFunction == INSTANT_FUNCTION {
      InterpolateEnds(job.startPosition, job.endPosition);
    }
  }

  /** The outcome of drawing an object of type `objectType`: the type must
      be registered and its image loaded. */
  function DrawOutcome(objectType: string, objectTypes: map<string, string>, images: set<string>): (r: Outcome)
    ensures r.Failed? <==> objectType !in objectTypes || objectTypes[objectType] !in images
    ensures objectType !in objectTypes ==> r == Failed(Runtime("Base object " + objectType + " is not found"))
    ensures objectType in objectTypes && objectTypes[objectType] !in images ==>
      r == Failed(Runtime("Image " + objectTypes[objectType] + " is not found"))
  {
    if objectType !in objectTypes then Failed(Runtime("Base object " + objectType + " is not found"))
    else if objectTypes[objectType] !in images then Failed(Runtime("Image " + objectTypes[objectType] + " is not found"))
    else Done
  }

  /** KSLObject: a resizable rectangle drawn with its type's image. */
  class SceneObject {
    var id: string
    var position: Position
    var objectType: string
    var width: real
    var height: real
    var inQueue: bool
    var clickPoints: seq<(DragPoint, Position)>
    var drag: Option<DragState>

    constructor (id: string, position: Position, objectType: string, width: real, height: real)
      ensures this.id == id && this.position == position && this.objectType == objectType
      ensures this.width == width && this.height == height
      ensures !inQueue && clickPoints == [] && drag == None
    {
      this.id := id;
      this.position := position;
      this.objectType := objectType;
      this.width := width;
      this.height := height;
      inQueue := false;
      clickPoints := [];
      drag := None;
    }

    /** KSLObject(kslObject): the object a setup entry describes; serialize
        gives the entry back. */
    constructor FromEntry(e: SetupObject)
      requires e.ObjectEntry?
      ensures Serialize() == e
      ensures !inQueue && clickPoints == [] && drag == None
    {
      id := e.id;
      position := e.position;
      objectType := e.objectType;
      width := e.width;
      height := e.height;
      inQueue := false;
      clickPoints := [];
      drag := None;
    }

    function Bounds(): Rect
      reads this`position, this`width, this`height
    {
      Rect(position, width, height)
    }

    /** serialize: the setup entry with the object's id, type, position and
        size. */
    function Serialize(): (e: SetupObject)
      reads this`id, this`objectType, this`position, this`width, this`height
      ensures e.ObjectEntry? && e.id == id && e.objectType == objectType
      ensures e.position == position && e.width == width && e.height == height
    {
      ObjectEntry(id, objectType, position, width, height)
    }

    /** render(scene): nothing is drawn while the object is in a queue (the
        queue draws it); otherwise drawing fails unless its type and image
        are known. */
    function Render(objectTypes: map<string, string>, images: set<string>): (r: Outcome)
      reads this`inQueue, this`objectType
      ensures inQueue ==> r == Done
      ensures !inQueue ==> r == DrawOutcome(objectType, objectTypes, images)
    {
      if inQueue then Done else DrawOutcome(objectType, objectTypes, images)
    }

    /** applyMovement: one editor step of `job`; only `position` changes. */
    method ApplyMovement(job: MoveQuery) returns (r: Result<bool>)
      requires Steppable(job)
      modifies this`position
      ensures EditorStep(job).Ok? ==> r == Ok(EditorStep(job).value.1) && position == EditorStep(job).value.0
      ensures EditorStep(job).Err? ==> r == Err(EditorStep(job).error) && position == old(position)
    {
      if job.movementFunction == INSTANT_FUNCTION {
        position := job.endPosition;
        return Ok(true);
      }
      var step := MovementStep(job);
      if step.Err? {
        return Err(step.error);
      }
      position := step.value.0;
      return Ok(step.value.1);
    }

    /** recalculateClickPoints. */
    method RecalculateClickPoints()
      modifies this`clickPoints
      ensures clickPoints == ClickPoints(Bounds())
    {
      clickPoints := ClickPoints(Bounds());
    }

    /** handleDraggedPoint: moves or resizes by the held point. */
    method HandleDraggedPoint(newPos: Position, snapToGrid: bool)
      modifies this`position, this`width, this`height
      ensures Bounds() == Geometry.HandleDraggedPoint(old(Bounds()), drag, newPos, snapToGrid)
    {
      var d := Geometry.HandleDraggedPoint(Bounds(), drag, newPos, snapToGrid);
      position, width, height := d.position, d.width, d.height;
    }

    /** onMouseDown: recomputes the click points and takes the first one the
        click hits; it records the drag start and drags to the click at
        once. Without a hit nothing but the click points changes. */
    method OnMouseDown(x: int, y: int, screenUnit: real, offset: Position, snapToGrid: bool) returns (pressed: bool)
      requires screenUnit != 0.0
      modifies this`clickPoints, this`drag, this`position, this`width, this`height
      ensures clickPoints == ClickPoints(old(Bounds()))
      ensures var hit := FirstHit(ClickPoints(old(Bounds())), 0, x as real, y as real, screenUnit, offset);
        && (pressed <==> hit.Some?)
        && (hit.None? ==> drag == old(drag) && Bounds() == old(Bounds()))
        && (hit.Some? ==>
              drag == Some(DragState(clickPoints[hit.value].0, old(position), Position(old(width), old(height)), clickPoints[hit.value].1))
              && Bounds() == Geometry.HandleDraggedPoint(old(Bounds()), drag, ToWorld(Mouse(x, y), screenUnit, offset), snapToGrid))
    {
      RecalculateClickPoints();
      var hit := FindClickPoint(clickPoints, x, y, screenUnit, offset);
      if hit.None? {
        return false;
      }
      var (point, at) := clickPoints[hit.value];
      drag := Some(DragState(point, position, Position(width, height), at));
      HandleDraggedPoint(ToWorld(Mouse(x, y), screenUnit, offset), snapToGrid);
      return true;
    }

    /** onMouseMove: drags the held point (if any) to the mouse. */
    method OnMouseMove(x: int, y: int, screenUnit: real, offset: Position, snapToGrid: bool)
      requires screenUnit != 0.0
      modifies this`position, this`width, this`height
      ensures Bounds() == Geometry.HandleDraggedPoint(old(Bounds()), drag, ToWorld(Mouse(x, y), screenUnit, offset), snapToGrid)
    {
      HandleDraggedPoint(ToWorld(Mouse(x, y), screenUnit, offset), snapToGrid);
    }
  }

  // ------------------------------------------------------------- KSLQueue

  /** KSLQueue: a line from `startPosition` to `endPosition` holding the
      objects that wait in it, by id in joining order. */
  class SceneQueue {
    var id: string
    var startPosition: Position
    var endPosition: Position
    var scale: real
    var position: Position
    var members: seq<(string, SceneObject)>
    var pointSelected: QueuePoint
    var actionStart: Position
    var actionEnd: Position
    var pointOffset: Position

    ghost predicate Valid()
      reads this`members
    {
      LinkedMaps.Valid(members)
    }

    constructor (id: string, startPosition: Position, endPosition: Position, scale: real)
      ensures Valid() && members == [] && pointSelected == NoPoint
      ensures this.id == id && this.startPosition == startPosition && this.endPosition == endPosition
      ensures this.scale == scale && position == Midpoint(startPosition, endPosition)
      ensures actionStart == Origin && actionEnd == Origin && pointOffset == Origin
    {
      this.id := id;
      this.startPosition := startPosition;
      this.endPosition := endPosition;
      this.scale := scale;
      position := Midpoint(startPosition, endPosition);
      members := [];
      pointSelected := NoPoint;
      actionStart, actionEnd, pointOffset := Origin, Origin, Origin;
    }

    /** serialize: the setup entry with the id, endpoints and scale. */
    function Serialize(): (e: SetupObject)
      reads this`id, this`startPosition, this`endPosition, this`scale
      ensures e.QueueEntry? && e.id == id && e.startPosition == startPosition
      ensures e.endPosition == endPosition && e.scale == scale
    {
      QueueEntry(id, startPosition, endPosition, scale)
    }

    /** addObject: `objects[id] = object`, and the object is now drawn by
        the queue instead of by itself. */
    method AddObject(o: SceneObject)
      requires Valid()
      modifies this`members, o`inQueue
      ensures Valid() && o.inQueue
      ensures members == LinkedMaps.Put(old(members), o.id, o)
    {
      LinkedMaps.PutKeepsValid(members, o.id, o);
      members := LinkedMaps.Put(members, o.id, o);
      o.inQueue := true;
    }

    /** removeObject: `objects.remove(id)`, and the object draws itself
        again. */
    method RemoveObject(o: SceneObject)
      requires Valid()
      modifies this`members, o`inQueue
      ensures Valid() && !o.inQueue
      ensures members == LinkedMaps.Remove(old(members), o.id)
    {
      LinkedMaps.RemoveKeepsValid(members, o.id);
      members := LinkedMaps.Remove(members, o.id);
      o.inQueue := false;
    }

    /** onMouseDown: saves the endpoints for the change the release records,
        then tries the start point, the end point and the midpoint. START and
        END put their point under the mouse; BOTH records the offset of the
        end from the midpoint. */
    method OnMouseDown(x: int, y: int, screenUnit: real, offset: Position) returns (pressed: bool)
      requires screenUnit != 0.0
      modifies this`actionStart, this`actionEnd, this`pointSelected
      modifies this`startPosition, this`endPosition, this`pointOffset
      ensures actionStart == old(startPosition) && actionEnd == old(endPosition)
      ensures var hit := QueueHit(old(startPosition), old(endPosition), scale, x as real, y as real, screenUnit, offset);
        && (pressed <==> hit != NoPoint)
        && pointSelected == (if hit == NoPoint then old(pointSelected) else hit)
        && startPosition == (if hit == StartPoint then ToWorld(Mouse(x, y), screenUnit, offset) else old(startPosition))
        && endPosition == (if hit == EndPoint then ToWorld(Mouse(x, y), screenUnit, offset) else old(endPosition))
        && pointOffset == (if hit == BothPoints then old(endPosition).Minus(Midpoint(old(startPosition), old(endPosition)))
                           else old(pointOffset))
    {
      actionStart := startPosition;
      actionEnd := endPosition;
      var hit := QueueHit(startPosition, endPosition, scale, x as real, y as real, screenUnit, offset);
      if hit == StartPoint {
        pointSelected := StartPoint;
        startPosition := ToWorld(Mouse(x, y), screenUnit, offset);
        return true;
      }
      if hit == EndPoint {
        pointSelected := EndPoint;
        endPosition := ToWorld(Mouse(x, y), screenUnit, offset);
        return true;
      }
      if hit == BothPoints {
        pointSelected := BothPoints;
        pointOffset := endPosition.Minus(Midpoint(startPosition, endPosition));
        return true;
      }
      return false;
    }

    /** onMouseMove: the (possibly snapped) world mouse drives the selected
        point or points. */
    method OnMouseMove(x: int, y: int, screenUnit: real, offset: Position, snapToGrid: bool)
      requires screenUnit != 0.0
      modifies this`startPosition, this`endPosition
      ensures (startPosition, endPosition)
        == QueueDragged(pointSelected, old(startPosition), old(endPosition), pointOffset,
                        Snapped(ToWorld(Mouse(x, y), screenUnit, offset), snapToGrid))
    {
      var p := Snapped(ToWorld(Mouse(x, y), screenUnit, offset), snapToGrid);
      startPosition, endPosition := QueueDragged(pointSelected, startPosition, endPosition, pointOffset, p).0,
                                    QueueDragged(pointSelected, startPosition, endPosition, pointOffset, p).1;
    }

    /** The midpoint refresh at the top of render. */
    method RefreshMidpoint()
      modifies this`position
      ensures position == Midpoint(startPosition, endPosition)
    {
      position := Midpoint(startPosition, endPosition);
    }
  }

  /** A press on a queue's endpoint puts that endpoint exactly under the
      mouse. */
  lemma PressedEndpointUnderMouse(x: int, y: int, screenUnit: real, offset: Position)
    requires screenUnit != 0.0
    ensures ToScreen(ToWorld(Mouse(x, y), screenUnit, offset), screenUnit, offset) == Mouse(x, y)
  {
    ScreenRoundTrip(Mouse(x, y), screenUnit, offset);
  }

  // ---------------------------------------------------------- KSLResource

  /** A resource's list of states; each state object appears once. */
  type StateList = s: seq<ResourceState> | NoDuplicates(s) witness []

  /** Input.Buttons.LEFT. */
  const LEFT_BUTTON: int := 0

  /** KSLResource: a resource at `position` that can be dragged across the
      scene. */
  class SceneResource {
    var id: string
    var position: Position
    var width: real
    var height: real
    const states: StateList
    const resourceStates: ResourceStates
    var currentState: string
    var dragging: bool
    var dragOffset: Position
    var originalPosition: Position

    constructor Init(id: string, position: Position, states: StateList, resourceStates: ResourceStates,
                     currentState: string, width: real, height: real)
      ensures this.id == id && this.position == position && this.states == states
      ensures this.resourceStates == resourceStates && this.currentState == currentState
      ensures this.width == width && this.height == height
      ensures !dragging && dragOffset == Origin && originalPosition == position
    {
      this.id := id;
      this.position := position;
      this.states := states;
      this.resourceStates := resourceStates;
      this.currentState := currentState;
      this.width := width;
      this.height := height;
      dragging := false;
      dragOffset := Origin;
      originalPosition := position;
    }

    /** KSLResource(id, position, states, width, height): fails exactly when
        the states have no default; the current state starts as the first
        default state's name. */
    static method Create(id: string, position: Position, states: StateList, width: real, height: real)
      returns (r: Result<SceneResource>)
      ensures r.Err? <==> FirstDefault(Values(states)).None?
      ensures r.Err? ==> r.error == Runtime("No default state found")
      ensures r.Ok? ==> fresh(r.value) && fresh(r.value.resourceStates)
      ensures r.Ok? ==> r.value.id == id && r.value.position == position && r.value.states == states
      ensures r.Ok? ==> r.value.width == width && r.value.height == height
      ensures r.Ok? ==> r.value.currentState == states[FirstDefault(Values(states)).value].name
      ensures r.Ok? ==> !r.value.dragging && r.value.originalPosition == position
    {
      var rs := ResourceStates.Create(states);
      if rs.Err? {
        return Err(rs.error);
      }
      var res := new SceneResource.Init(id, position, states, rs.value, rs.value.defaultState.name, width, height);
      return Ok(res);
    }

    /** setState: any string is accepted. */
    method SetState(state: string)
      modifies this`currentState
      ensures currentState == state
    {
      currentState := state;
    }

    /** pointInside: the click lies in the resource's drawn box, centred on
        its screen position. */
    predicate PointInside(p: Position, screenUnit: real, offset: Position)
      reads this`position, this`width, this`height
    {
      Within(p.x, p.y, ToScreen(position, screenUnit, offset), width * screenUnit / 2.0, height * screenUnit / 2.0)
    }

    /** onMouseDown: a left press inside starts a drag, remembering the
        position and where on the resource it was grabbed. */
    method OnMouseDown(x: int, y: int, button: int, screenUnit: real, offset: Position) returns (pressed: bool)
      modifies this`dragging, this`originalPosition, this`dragOffset
      ensures pressed <==> button == LEFT_BUTTON && PointInside(Mouse(x, y), screenUnit, offset)
      ensures pressed ==> dragging && originalPosition == position
      ensures pressed ==> dragOffset == Mouse(x, y).Minus(ToScreen(position, screenUnit, offset))
      ensures !pressed ==> dragging == old(dragging) && originalPosition == old(originalPosition)
      ensures !pressed ==> dragOffset == old(dragOffset)
    {
      if button == LEFT_BUTTON && PointInside(Mouse(x, y), screenUnit, offset) {
        dragging := true;
        originalPosition := position;
        dragOffset := Mouse(x, y).Minus(ToScreen(position, screenUnit, offset));
        return true;
      }
      return false;
    }

    /** onMouseMove: while dragging, the resource keeps its grip under the
        mouse (snapped when asked). */
    method OnMouseMove(x: int, y: int, screenUnit: real, offset: Position, snapToGrid: bool)
      requires screenUnit != 0.0
      modifies this`position
      ensures dragging ==> position == Snapped(ToWorld(Mouse(x, y).Minus(dragOffset), screenUnit, offset), snapToGrid)
      ensures !dragging ==> position == old(position)
    {
      if dragging {
        position := Snapped(ToWorld(Mouse(x, y).Minus(dragOffset), screenUnit, offset), snapToGrid);
      }
    }
  }

  // ----------------------------------------------------------- KSLStation

  /** KSLStation: a named point. */
  class SceneStation {
    var id: string
    var position: Position

    constructor (id: string, position: Position)
      ensures this.id == id && this.position == position
    {
      this.id := id;
      this.position := position;
    }

    /** serialize: the setup entry with the id and position. */
    function Serialize(): (e: SetupObject)
      reads this`id, this`position
      ensures e.StationEntry? && e.id == id && e.position == position
    {
      StationEntry(id, position)
    }
  }

  // ---------------------------------------------------------- KSLVariable

  /** KSLVariable: a resizable box showing a value as text. */
  class SceneVariable {
    var id: string
    var position: Position
    var width: real
    var height: real
    var defaultValue: string
    var maxTextScale: real
    var precision: int
    var textColor: Rgba
    var value: string
    var clickPoints: seq<(DragPoint, Position)>
    var drag: Option<DragState>

    constructor (id: string, position: Position, width: real, height: real, defaultValue: string,
                 maxTextScale: real, precision: int, textColor: Rgba)
      ensures this.id == id && this.position == position && this.width == width && this.height == height
      ensures this.defaultValue == defaultValue && this.maxTextScale == maxTextScale
      ensures this.precision == precision && this.textColor == textColor
      ensures value == defaultValue && clickPoints == [] && drag == None
    {
      this.id := id;
      this.position := position;
      this.width := width;
      this.height := height;
      this.defaultValue := defaultValue;
      this.maxTextScale := maxTextScale;
      this.precision := precision;
      this.textColor := textColor;
      value := defaultValue;
      clickPoints := [];
      drag := None;
    }

    /** KSLVariable(kslVariable): the setup entry with its text colour
        decoded; a colour that does not decode makes the construction
        throw. The click points are computed at once. */
    static method FromEntry(e: SetupObject) returns (r: Result<SceneVariable>)
      requires e.VariableEntry?
      ensures DecodeColor(e.textColor).Err? ==> r == Err(DecodeColor(e.textColor).error)
      ensures DecodeColor(e.textColor).Ok? ==> r.Ok? && fresh(r.value)
      ensures r.Ok? ==> r.value.id == e.id && r.value.position == e.position
      ensures r.Ok? ==> r.value.width == e.width && r.value.height == e.height
      ensures r.Ok? ==> r.value.defaultValue == e.defaultValue && r.value.value == e.defaultValue
      ensures r.Ok? ==> r.value.maxTextScale == e.maxTextScale && r.value.precision == e.precision
      ensures r.Ok? ==> r.value.textColor == DecodeColor(e.textColor).value
      ensures r.Ok? ==> r.value.clickPoints == ClickPoints(Rect(e.position, e.width, e.height)) && r.value.drag == None
    {
      var color := DecodeColor(e.textColor);
      if color.Err? {
        return Err(color.error);
      }
      var v := new SceneVariable(e.id, e.position, e.width, e.height, e.defaultValue, e.maxTextScale, e.precision, color.value);
      v.RecalculateClickPoints();
      return Ok(v);
    }

    function Bounds(): Rect
      reads this`position, this`width, this`height
    {
      Rect(position, width, height)
    }

    /** serialize: the setup entry, with the current value as the default
        value and the colour as unpadded hexadecimal text. */
    function Serialize(): (e: SetupObject)
      reads this`id, this`position, this`width, this`height, this`maxTextScale
      reads this`value, this`precision, this`textColor
      ensures e.VariableEntry? && e.id == id && e.position == position
      ensures e.width == width && e.height == height && e.maxTextScale == maxTextScale
      ensures e.defaultValue == value && e.precision == precision
      ensures |e.textColor| >= 2 && e.textColor[0] == '#' && AllHexDigits(e.textColor[1..])
      ensures HexValue(e.textColor[1..]) == PackedColor(textColor)
    {
      VariableEntry(id, position, width, height, maxTextScale, value, precision, EncodeColor(textColor))
    }

    /** setValue(String): stores its argument as it is. */
    method SetValue(v: string)
      modifies this`value
      ensures value == v
    {
      value := v;
    }

    /** setValue(Double): the number as `format` (DecimalFormat with at most
        `precision` fraction digits) writes it. */
    method SetValueNumber(v: real, format: (real, int) -> string)
      modifies this`value
      ensures value == format(v, precision)
    {
      value := format(v, precision);
    }

    /** recalculateClickPoints. */
    method RecalculateClickPoints()
      modifies this`clickPoints
      ensures clickPoints == ClickPoints(Bounds())
    {
      clickPoints := ClickPoints(Bounds());
    }

    /** handleDraggedPoint, as for a resizable object. */
    method HandleDraggedPoint(newPos: Position, snapToGrid: bool)
      modifies this`position, this`width, this`height
      ensures Bounds() == Geometry.HandleDraggedPoint(old(Bounds()), drag, newPos, snapToGrid)
    {
      var d := Geometry.HandleDraggedPoint(Bounds(), drag, newPos, snapToGrid);
      position, width, height := d.position, d.width, d.height;
    }

    /** onMouseDown, as for a resizable object. */
    method OnMouseDown(x: int, y: int, screenUnit: real, offset: Position, snapToGrid: bool) returns (pressed: bool)
      requires screenUnit != 0.0
      modifies this`clickPoints, this`drag, this`position, this`width, this`height
      ensures clickPoints == ClickPoints(old(Bounds()))
      ensures var hit := FirstHit(ClickPoints(old(Bounds())), 0, x as real, y as real, screenUnit, offset);
        && (pressed <==> hit.Some?)
        && (hit.None? ==> drag == old(drag) && Bounds() == old(Bounds()))
        && (hit.Some? ==>
              drag == Some(DragState(clickPoints[hit.value].0, old(position), Position(old(width), old(height)), clickPoints[hit.value].1))
              && Bounds() == Geometry.HandleDraggedPoint(old(Bounds()), drag, ToWorld(Mouse(x, y), screenUnit, offset), snapToGrid))
    {
      RecalculateClickPoints();
      var hit := FindClickPoint(clickPoints, x, y, screenUnit, offset);
      if hit.None? {
        return false;
      }
      var (point, at) := clickPoints[hit.value];
      drag := Some(DragState(point, position, Position(width, height), at));
      HandleDraggedPoint(ToWorld(Mouse(x, y), screenUnit, offset), snapToGrid);
      return true;
    }

    /** onMouseMove, as for a resizable object. */
    method OnMouseMove(x: int, y: int, screenUnit: real, offset: Position, snapToGrid: bool)
      requires screenUnit != 0.0
      modifies this`position, this`width, this`height
      ensures Bounds() == Geometry.HandleDraggedPoint(old(Bounds()), drag, ToWorld(Mouse(x, y), screenUnit, offset), snapToGrid)
    {
      HandleDraggedPoint(ToWorld(Mouse(x, y), screenUnit, offset), snapToGrid);
    }
  }
}
