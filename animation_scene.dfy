// common/AnimationScene.kt: the editor's scene, with its registries, its
// view transform and its undo history, and the changes of builder/changes/
// run against it. The mouse-up handlers of the renderables, which record
// those changes, are here too, since they need the scene.

module AnimationScenes {
  import opened Common
  import opened Colors
  import opened Geometry
  import opened Setup
  import opened SimEntities
  import opened EditorEntities
  import opened SceneChanges
  import History

  /** `screenAmount`: the viewport spans 20 world units across. */
  const SCREEN_AMOUNT: real := 20.0

  // ------------------------------------------------ entities a change adds

  /** The object AddObject creates under `id`. */
  predicate DefaultObject(o: SceneObject, id: string)
    reads o
  {
    && o.id == id && o.position == Origin && o.objectType == "default_object_type"
    && o.width == 1.0 && o.height == 1.0 && !o.inQueue && o.clickPoints == [] && o.drag == None
  }

  /** The queue AddQueue creates: from (-1, 0) to (1, 0), scale 1, empty,
      placed at its midpoint, the origin. */
  predicate DefaultQueue(q: SceneQueue, id: string)
    reads q
  {
    && q.id == id && q.startPosition == Position(-1.0, 0.0) && q.endPosition == Position(1.0, 0.0)
    && q.scale == 1.0 && q.position == Origin && q.members == [] && q.pointSelected == NoPoint
  }

  /** The resource AddResource creates: at the origin, 1 by 1, with the one
      state "default_state" showing "default_resource", marked default. */
  predicate DefaultResource(x: SceneResource, id: string)
    reads x, x.states
  {
    && x.id == id && x.position == Origin && x.width == 1.0 && x.height == 1.0
    && Values(x.states) == [StateValue("default_state", "default_resource", true)]
    && x.currentState == "default_state" && !x.dragging
  }

  /** The station AddStation creates, at the origin. */
  predicate DefaultStation(st: SceneStation, id: string)
    reads st
  {
    st.id == id && st.position == Origin
  }

  /** The variable AddVariable creates: at (-1, 0), 2 by 1, showing
      "Variable", text scale 2, precision 2, black. */
  predicate DefaultVariable(v: SceneVariable, id: string)
    reads v
  {
    && v.id == id && v.position == Position(-1.0, 0.0) && v.width == 2.0 && v.height == 1.0
    && v.defaultValue == "Variable" && v.value == "Variable" && v.maxTextScale == 2.0
    && v.precision == 2 && v.textColor == BLACK && v.clickPoints == [] && v.drag == None
  }

  /** The queue AddQueue builds. */
  method NewDefaultQueue(id: string) returns (q: SceneQueue)
    ensures fresh(q) && DefaultQueue(q, id)
  {
    q := new SceneQueue(id, Position(-1.0, 0.0), Position(1.0, 0.0), 1.0);
    MidpointOfOpposites(q.startPosition, q.endPosition);
  }

  /** One unit down: the offset of a copied queue or resource. */
  const COPY_SHIFT: Position := Position(0.0, 1.0)

  /** CopyQueue's queue: both endpoints one unit down, the same scale. */
  predicate QueueCopy(n: SceneQueue, q: SceneQueue)
    reads n, q
  {
    && n.id == q.id + "_copy"
    && n.startPosition == q.startPosition.Plus(COPY_SHIFT) && n.endPosition == q.endPosition.Plus(COPY_SHIFT)
    && n.scale == q.scale && n.position == Midpoint(n.startPosition, n.endPosition)
    && n.members == [] && n.pointSelected == NoPoint
  }

  /** CopyResource's resource: one unit down, the same list of state
      objects and the same size, its current state the first default's. */
  predicate ResourceCopy(n: SceneResource, x: SceneResource)
    reads n, x, x.states
  {
    && n.id == x.id + "_copy" && n.position == x.position.Plus(COPY_SHIFT)
    && n.states == x.states && n.width == x.width && n.height == x.height
    && FirstDefault(Values(x.states)).Some?
    && n.currentState == x.states[FirstDefault(Values(x.states)).value].name && !n.dragging
  }

  /** CopyStation's station, at the same position. */
  predicate StationCopy(n: SceneStation, st: SceneStation)
    reads n, st
  {
    n.id == st.id + "_copy" && n.position == st.position
  }

  /** CopyVariable's variable: the same position, size and settings, its
      value reset to the default value. */
  predicate VariableCopy(n: SceneVariable, v: SceneVariable)
    reads n, v
  {
    && n.id == v.id + "_copy" && n.position == v.position && n.width == v.width && n.height == v.height
    && n.defaultValue == v.defaultValue && n.value == v.defaultValue && n.maxTextScale == v.maxTextScale
    && n.precision == v.precision && n.textColor == v.textColor && n.clickPoints == [] && n.drag == None
  }

  /** The settings an EditVariableSettingsChange writes. */
  predicate VariableSettings(v: SceneVariable, id: string, defaultValue: string, maxTextScale: real,
                             precision: int, textColor: Rgba)
    reads v
  {
    && v.id == id && v.defaultValue == defaultValue && v.maxTextScale == maxTextScale
    && v.precision == precision && v.textColor == textColor
  }

  /** The resource a change copies, and its state objects. */
  function CopiedStates(c: Change): seq<ResourceState>
  {
    if c.CopyResource? then c.resource.states else []
  }

  /** The entities a change holds. */
  function Held(c: Change): set<object>
  {
    match c
    case RemoveObject(o) => {o}
    case RemoveQueue(q) => {q}
    case RemoveResource(x) => {x}
    case RemoveStation(st) => {st}
    case RemoveVariable(v) => {v}
    case CopyQueue(q) => {q}
    case CopyResource(x) => {x}
    case CopyStation(st) => {st}
    case CopyVariable(v) => {v}
    case EditQueueSettings(q, _, _, _, _) => {q}
    case EditResourceSettings(x, _, _) => {x}
    case EditStationSettings(st, _, _) => {st}
    case EditVariableSettings(v, _, _, _, _, _, _, _, _, _, _) => {v}
    case EditObjectSettings(o, _, _, _, _) => {o}
    case _ => {}
  }

  /** The entity a settings edit writes, if `o` is one. */
  function EditedQueue(o: Option<Change>): set<SceneQueue>
  {
    if o.Some? && o.value.EditQueueSettings? then {o.value.queue} else {}
  }

  function EditedResource(o: Option<Change>): set<SceneResource>
  {
    if o.Some? && o.value.EditResourceSettings? then {o.value.resource} else {}
  }

  function EditedStation(o: Option<Change>): set<SceneStation>
  {
    if o.Some? && o.value.EditStationSettings? then {o.value.station} else {}
  }

  function EditedVariable(o: Option<Change>): set<SceneVariable>
  {
    if o.Some? && o.value.EditVariableSettings? then {o.value.variable} else {}
  }

  // ----------------------------------------------------------------- scene

  /** AnimationScene: the images and object types, the registries, the view
      transform (`offset`, `screenUnit`) and the undo history. An image is
      represented by its name, an object type by the name of its image. */
  class AnimationScene {
    var images: set<string>
    var objectTypes: map<string, string>
    var movements: seq<MoveQuery>

    var objects: map<string, SceneObject>
    var queues: map<string, SceneQueue>
    var resources: map<string, SceneResource>
    var stations: map<string, SceneStation>
    var variables: map<string, SceneVariable>
    var renderables: map<string, Renderable>

    var offset: Position
    var screenUnit: real

    /** The stored `changes`, `changePointer`, `canRedo` and `redoPointer`. */
    var history: History.History<Change>

    function Hist(): History.History<Change>
      reads this`history
    {
      history
    }

    /** The six registries. */
    function Regs(): Registries
      reads this`objects, this`queues, this`resources, this`stations, this`variables, this`renderables
    {
      Registries(objects, queues, resources, stations, variables, renderables)
    }

    ghost predicate Valid()
      reads this`history
    {
      History.Valid(Hist())
    }

    /** A new scene centred in the viewport; `screenUnit` stays 0 until
        the first `resize`. */
    constructor (viewportWidth: real, viewportHeight: real)
      ensures Valid() && Hist() == History.Initial()
      ensures Regs() == NoRegistries && images == {} && objectTypes == map[] && movements == []
      ensures offset == Position(viewportWidth / 2.0, viewportHeight / 2.0) && screenUnit == 0.0
    {
      images, objectTypes, movements := {}, map[], [];
      objects, queues, resources, stations, variables, renderables := map[], map[], map[], map[], map[], map[];
      offset := Position(viewportWidth / 2.0, viewportHeight / 2.0);
      screenUnit := 0.0;
      history := History.Initial();
      new;
      History.OperationsKeepValid(Hist(), AddObject(""));
    }

    /** resize: twenty world units across the viewport. */
    method Resize(viewportWidth: real)
      modifies this`screenUnit
      ensures screenUnit == viewportWidth / SCREEN_AMOUNT
    {
      screenUnit := viewportWidth / SCREEN_AMOUNT;
    }

    /** resetScene: empties the images, object types and registries, and
        disables undo and redo; the stored changes, `redoPointer`, the
        movements and the view are kept. */
    method ResetScene()
      requires Valid()
      modifies this`images, this`objectTypes
      modifies this`objects, this`queues, this`resources, this`stations, this`variables, this`renderables
      modifies this`history
      ensures Valid()
      ensures images == {} && objectTypes == map[] && Regs() == NoRegistries
      ensures Hist() == History.Reset(old(Hist()))
    {
      images, objectTypes := {}, map[];
      ClearRegistries();
      RewindHistory();
    }

    /** The `clear()` of the six registries. */
    method ClearRegistries()
      modifies this`objects, this`queues, this`resources, this`stations, this`variables, this`renderables
      ensures Regs() == NoRegistries
    {
      objects, queues, resources, stations, variables, renderables := map[], map[], map[], map[], map[], map[];
    }

    /** resetScene's history part. */
    method RewindHistory()
      requires Valid()
      modifies this`history
      ensures Valid() && Hist() == History.Reset(old(Hist()))
    {
      History.OperationsKeepValid(history, AddObject(""));
      history := History.Reset(history);
    }

    // ------------------------------------------------------- registries

    /** addRenderable(e): the entity under its current id in its own
        registry and in `renderables`, overwriting what was there. */
    method AddRenderable(e: Renderable)
      modifies this`objects, this`queues, this`resources, this`stations, this`variables, this`renderables
      ensures Regs() == Put(old(Regs()), IdOf(e), e)
    {
      match e {
        case RObject(o) => objects := objects[o.id := o];
        case RQueue(q) => queues := queues[q.id := q];
        case RResource(x) => resources := resources[x.id := x];
        case RStation(st) => stations := stations[st.id := st];
        case RVariable(v) => variables := variables[v.id := v];
      }
      renderables := renderables[IdOf(e) := e];
    }

    /** `<k>.remove(id)` followed by `renderables.remove(id)`. */
    method Unregister(k: Kind, id: string)
      modifies this`objects, this`queues, this`resources, this`stations, this`variables, this`renderables
      ensures Regs() == Drop(old(Regs()), k, id)
    {
      match k {
        case Objects => objects := objects - {id};
        case Queues => queues := queues - {id};
        case Resources => resources := resources - {id};
        case Stations => stations := stations - {id};
        case Variables => variables := variables - {id};
      }
      renderables := renderables - {id};
    }

    /** `addRenderable` of the new entity `e` under `id`. */
    twostate predicate Added(id: string, new e: Renderable)
      reads this`objects, this`queues, this`resources, this`stations, this`variables, this`renderables
    {
      fresh(Target(e)) && Regs() == Put(old(Regs()), id, e)
    }

    /** The registries are as they were. */
    twostate predicate Kept()
      reads this`objects, this`queues, this`resources, this`stations, this`variables, this`renderables
    {
      Regs() == old(Regs())
    }

    // ----------------------------------------------------- positions

    function ObjectAt(id: string): set<SceneObject>
      reads this`objects
    {
      if id in objects then {objects[id]} else {}
    }

    function QueueAt(id: string): set<SceneQueue>
      reads this`queues
    {
      if id in queues then {queues[id]} else {}
    }

    function ResourceAt(id: string): set<SceneResource>
      reads this`resources
    {
      if id in resources then {resources[id]} else {}
    }

    function StationAt(id: string): set<SceneStation>
      reads this`stations
    {
      if id in stations then {stations[id]} else {}
    }

    function VariableAt(id: string): set<SceneVariable>
      reads this`variables
    {
      if id in variables then {variables[id]} else {}
    }

    /** The resource MoveAndResizeObjectChange reaches: only when no
        variable has the id. */
    function ResourceUnlessVariable(id: string): set<SceneResource>
      reads this`variables, this`resources
    {
      if id in variables then {} else ResourceAt(id)
    }

    /** `queues[id]?.startPosition = s; queues[id]?.endPosition = e`. */
    predicate QueueEndsAre(id: string, s: Position, e: Position)
      reads this`queues, QueueAt(id)
    {
      id in queues ==> queues[id].startPosition == s && queues[id].endPosition == e
    }

    /** `queues[id]?.startPosition = s`. */
    predicate QueueStartIs(id: string, s: Position)
      reads this`queues, QueueAt(id)
    {
      id in queues ==> queues[id].startPosition == s
    }

    /** `resources[id]?.position = p`. */
    predicate ResourceIsAt(id: string, p: Position)
      reads this`resources, ResourceAt(id)
    {
      id in resources ==> resources[id].position == p
    }

    /** The variable `id`, if there is one, has position `p` and size
        `size`. */
    predicate VariableGeometryIs(id: string, p: Position, size: Position)
      reads this`variables, VariableAt(id)
    {
      id in variables ==> variables[id].position == p && variables[id].width == size.x && variables[id].height == size.y
    }

    /** MoveAndResizeObjectChange's target: the variable `id` if there is
        one, otherwise the resource `id` if there is one. */
    predicate GeometryIs(id: string, p: Position, size: Position)
      reads this`variables, VariableAt(id), this`resources, ResourceAt(id)
    {
      && VariableGeometryIs(id, p, size)
      && (id !in variables && id in resources ==>
            resources[id].position == p && resources[id].width == size.x && resources[id].height == size.y)
    }

    method SetQueueEnds(id: string, s: Position, e: Position)
      modifies QueueAt(id)`startPosition, QueueAt(id)`endPosition
      ensures QueueEndsAre(id, s, e)
    {
      if id in queues {
        queues[id].startPosition := s;
        queues[id].endPosition := e;
      }
    }

    method SetQueueStart(id: string, s: Position)
      modifies QueueAt(id)`startPosition
      ensures QueueStartIs(id, s)
    {
      if id in queues {
        queues[id].startPosition := s;
      }
    }

    method SetResourcePosition(id: string, p: Position)
      modifies ResourceAt(id)`position
      ensures ResourceIsAt(id, p)
    {
      if id in resources {
        resources[id].position := p;
      }
    }

    method SetVariableGeometry(id: string, p: Position, size: Position)
      modifies VariableAt(id)`position, VariableAt(id)`width, VariableAt(id)`height
      ensures VariableGeometryIs(id, p, size)
    {
      if id in variables {
        var v := variables[id];
        v.position, v.width, v.height := p, size.x, size.y;
      }
    }

    method SetGeometry(id: string, p: Position, size: Position)
      modifies VariableAt(id)`position, VariableAt(id)`width, VariableAt(id)`height
      modifies ResourceUnlessVariable(id)`position, ResourceUnlessVariable(id)`width, ResourceUnlessVariable(id)`height
      ensures GeometryIs(id, p, size)
    {
      if id in variables {
        SetVariableGeometry(id, p, size);
      } else if id in resources {
        var x := resources[id];
        x.position, x.width, x.height := p, size.x, size.y;
      }
    }
      // ------------------------------------------------ adding entities

    /** The state objects of the resource `id`, if there is one. */
    function StatesAt(id: string): seq<ResourceState>
      reads this`resources
    {
      if id in resources then resources[id].states else []
    }

    twostate predicate AddedObject(id: string)
      reads this`objects, this`queues, this`resources, this`stations, this`variables, this`renderables
      reads ObjectAt(id)
    {
      id in objects && Added(id, RObject(objects[id])) && DefaultObject(objects[id], id)
    }

    twostate predicate AddedQueue(id: string)
      reads this`objects, this`queues, this`resources, this`stations, this`variables, this`renderables
      reads QueueAt(id)
    {
      id in queues && Added(id, RQueue(queues[id])) && DefaultQueue(queues[id], id)
    }

    /** The new resource's one state is a new object too. */
    twostate predicate AddedResource(id: string)
      reads this`objects, this`queues, this`resources, this`stations, this`variables, this`renderables
      reads ResourceAt(id), StatesAt(id)
    {
      && id in resources && Added(id, RResource(resources[id])) && DefaultResource(resources[id], id)
      && fresh(resources[id].states[0])
    }

    twostate predicate AddedStation(id: string)
      reads this`objects, this`queues, this`resources, this`stations, this`variables, this`renderables
      reads StationAt(id)
    {
      id in stations && Added(id, RStation(stations[id])) && DefaultStation(stations[id], id)
    }

    twostate predicate AddedVariable(id: string)
      reads this`objects, this`queues, this`resources, this`stations, this`variables, this`renderables
      reads VariableAt(id)
    {
      id in variables && Added(id, RVariable(variables[id])) && DefaultVariable(variables[id], id)
    }

    twostate predicate CopiedQueue(q: SceneQueue)
      reads this`objects, this`queues, this`resources, this`stations, this`variables, this`renderables
      reads q, QueueAt(q.id + "_copy")
    {
      var id := q.id + "_copy";
      id in queues && Added(id, RQueue(queues[id])) && QueueCopy(queues[id], q)
    }

    /** Building the copy throws when the states have no default. */
    twostate predicate CopiedResource(x: SceneResource, r: Outcome)
      reads this`objects, this`queues, this`resources, this`stations, this`variables, this`renderables
      reads x, x.states, ResourceAt(x.id + "_copy")
    {
      var id := x.id + "_copy";
      if FirstDefault(Values(x.states)).None? then r == Failed(Runtime("No default state found")) && Kept()
      else r == Done && id in resources && Added(id, RResource(resources[id])) && ResourceCopy(resources[id], x)
    }

    twostate predicate CopiedStation(st: SceneStation)
      reads this`objects, this`queues, this`resources, this`stations, this`variables, this`renderables
      reads st, StationAt(st.id + "_copy")
    {
      var id := st.id + "_copy";
      id in stations && Added(id, RStation(stations[id])) && StationCopy(stations[id], st)
    }

    twostate predicate CopiedVariable(v: SceneVariable)
      reads this`objects, this`queues, this`resources, this`stations, this`variables, this`renderables
      reads v, VariableAt(v.id + "_copy")
    {
      var id := v.id + "_copy";
      id in variables && Added(id, RVariable(variables[id])) && VariableCopy(variables[id], v)
    }

    method AddDefaultObject(id: string)
      modifies this`objects, this`queues, this`resources, this`stations, this`variables, this`renderables
      ensures AddedObject(id)
    {
      var o := new SceneObject(id, Origin, "default_object_type", 1.0, 1.0);
      AddRenderable(RObject(o));
    }

    method AddDefaultQueue(id: string)
      modifies this`objects, this`queues, this`resources, this`stations, this`variables, this`renderables
      ensures AddedQueue(id)
    {
      var q := NewDefaultQueue(id);
      AddRenderable(RQueue(q));
    }

    method AddDefaultResource(id: string)
      modifies this`objects, this`queues, this`resources, this`stations, this`variables, this`renderables
      ensures AddedResource(id)
    {
      var st := new ResourceState("default_state", "default_resource", true);
      assert Values([st]) == [StateValue("default_state", "default_resource", true)];
      var made := SceneResource.Create(id, Origin, [st], 1.0, 1.0);
      assert made.Ok?;
      AddRenderable(RResource(made.value));
    }

    method AddDefaultStation(id: string)
      modifies this`objects, this`queues, this`resources, this`stations, this`variables, this`renderables
      ensures AddedStation(id)
    {
      var st := new SceneStation(id, Origin);
      AddRenderable(RStation(st));
    }

    method AddDefaultVariable(id: string)
      modifies this`objects, this`queues, this`resources, this`stations, this`variables, this`renderables
      ensures AddedVariable(id)
    {
      var v := new SceneVariable(id, Position(-1.0, 0.0), 2.0, 1.0, "Variable", 2.0, 2, BLACK);
      AddRenderable(RVariable(v));
    }

    method AddQueueCopy(q: SceneQueue)
      modifies this`objects, this`queues, this`resources, this`stations, this`variables, this`renderables
      ensures CopiedQueue(q)
    {
      var n := new SceneQueue(q.id + "_copy", q.startPosition.Plus(COPY_SHIFT), q.endPosition.Plus(COPY_SHIFT), q.scale);
      AddRenderable(RQueue(n));
    }

    method AddResourceCopy(x: SceneResource) returns (r: Outcome)
      modifies this`objects, this`queues, this`resources, this`stations, this`variables, this`renderables
      ensures CopiedResource(x, r)
    {
      ghost var vs := Values(x.states);
      var made := SceneResource.Create(x.id + "_copy", x.position.Plus(COPY_SHIFT), x.states, x.width, x.height);
      if made.Err? {
        return Failed(made.error);
      }
      assert ResourceCopy(made.value, x);
      AddRenderable(RResource(made.value));
      assert Values(x.states) == vs;
      assert ResourceCopy(made.value, x);
      return Done;
    }

    method AddStationCopy(st: SceneStation)
      modifies this`objects, this`queues, this`resources, this`stations, this`variables, this`renderables
      ensures CopiedStation(st)
    {
      var n := new SceneStation(st.id + "_copy", st.position);
      AddRenderable(RStation(n));
    }

    method AddVariableCopy(v: SceneVariable)
      modifies this`objects, this`queues, this`resources, this`stations, this`variables, this`renderables
      ensures CopiedVariable(v)
    {
      var n := new SceneVariable(v.id + "_copy", v.position, v.width, v.height, v.defaultValue,
                                 v.maxTextScale, v.precision, v.textColor);
      AddRenderable(RVariable(n));
    }

    // ------------------------------------------------ what a change moves

    /** The queue whose start an undo or redo of `o` writes: MoveQueue's,
        and MoveStation's, which looks its id up among the queues. */
    function MovedStart(o: Option<Change>): set<SceneQueue>
      reads this`queues
    {
      if o.None? then {}
      else match o.value
        case MoveQueue(id, _, _, _, _) => QueueAt(id)
        case MoveStation(id, _, _) => QueueAt(id)
        case _ => {}
    }

    function MovedEnd(o: Option<Change>): set<SceneQueue>
      reads this`queues
    {
      if o.Some? && o.value.MoveQueue? then QueueAt(o.value.queueId) else {}
    }

    /** The resource whose position an undo or redo of `o` writes. */
    function MovedResource(o: Option<Change>): set<SceneResource>
      reads this`resources, this`variables
    {
      if o.None? then {}
      else match o.value
        case MoveResource(id, _, _) => ResourceAt(id)
        case MoveAndResizeObject(id, _, _, _, _) => ResourceUnlessVariable(id)
        case _ => {}
    }

    function ResizedResource(o: Option<Change>): set<SceneResource>
      reads this`resources, this`variables
    {
      if o.Some? && o.value.MoveAndResizeObject? then ResourceUnlessVariable(o.value.objectId) else {}
    }

    function ResizedVariable(o: Option<Change>): set<SceneVariable>
      reads this`variables
    {
      if o.None? then {}
      else match o.value
        case MoveAndResizeObject(id, _, _, _, _) => VariableAt(id)
        case MoveAndResizeVariable(id, _, _, _, _) => VariableAt(id)
        case _ => {}
    }

    /** The entity an add or a copy registers, found under its id. */
    function Registered(c: Change): set<object>
      reads this`objects, this`queues, this`resources, this`stations, this`variables, Held(c)
    {
      match c
      case AddObject(id) => ObjectAt(id)
      case AddQueue(id) => QueueAt(id)
      case AddResource(id) => ResourceAt(id)
      case AddStation(id) => StationAt(id)
      case AddVariable(id) => VariableAt(id)
      case CopyQueue(q) => QueueAt(q.id + "_copy")
      case CopyResource(x) => ResourceAt(x.id + "_copy")
      case CopyStation(st) => StationAt(st.id + "_copy")
      case CopyVariable(v) => VariableAt(v.id + "_copy")
      case _ => {}
    }

    /** The entity whose geometry an undo or a redo of a move writes. */
    function Moved(c: Change): set<object>
      reads this`queues, this`resources, this`variables
    {
      match c
      case MoveQueue(id, _, _, _, _) => QueueAt(id)
      case MoveResource(id, _, _) => ResourceAt(id)
      case MoveStation(id, _, _) => QueueAt(id)
      case MoveAndResizeObject(id, _, _, _, _) => VariableAt(id) + ResourceAt(id)
      case MoveAndResizeVariable(id, _, _, _, _) => VariableAt(id)
      case _ => {}
    }

    /** The state objects of the resource an AddResource change creates. */
    function NewStates(c: Change): seq<ResourceState>
      reads this`resources
    {
      if c.AddResource? then StatesAt(c.resourceId) else []
    }

    // ---------------------------------------------------- change effects

    /** Each add registered its new default entity. */
    twostate predicate AddEffect(c: Change)
      reads this`objects, this`queues, this`resources, this`stations, this`variables, this`renderables
      reads Held(c), Registered(c), NewStates(c)
    {
      match c
      case AddObject(id) => AddedObject(id)
      case AddQueue(id) => AddedQueue(id)
      case AddResource(id) => AddedResource(id)
      case AddStation(id) => AddedStation(id)
      case AddVariable(id) => AddedVariable(id)
      case _ => false
    }

    /** Each copy registered its copy, or (a resource without a default
        state) threw. */
    twostate predicate CopyEffect(c: Change, r: Outcome)
      reads this`objects, this`queues, this`resources, this`stations, this`variables, this`renderables
      reads Held(c), CopiedStates(c), Registered(c)
    {
      match c
      case CopyQueue(q) => r == Done && CopiedQueue(q)
      case CopyResource(x) => CopiedResource(x, r)
      case CopyStation(st) => r == Done && CopiedStation(st)
      case CopyVariable(v) => r == Done && CopiedVariable(v)
      case _ => false
    }

    /** A removal's apply: the entry under the entity's id at call time is
        dropped from the typed registry (for an object: from `queues`) and
        from `renderables`. */
    twostate predicate RemoveEffect(c: Change)
      reads this`objects, this`queues, this`resources, this`stations, this`variables, this`renderables
    {
      match c
      case RemoveObject(o) => Regs() == Drop(old(Regs()), Queues, old(o.id))
      case RemoveQueue(q) => Regs() == Drop(old(Regs()), Queues, old(q.id))
      case RemoveResource(x) => Regs() == Drop(old(Regs()), Resources, old(x.id))
      case RemoveStation(st) => Regs() == Drop(old(Regs()), Stations, old(st.id))
      case RemoveVariable(v) => Regs() == Drop(old(Regs()), Variables, old(v.id))
      case _ => false
    }

    /** A removal's undo, and its redo too: the entity is added back under
        its current id. */
    twostate predicate RestoreEffect(c: Change)
      reads this`objects, this`queues, this`resources, this`stations, this`variables, this`renderables
    {
      match c
      case RemoveObject(o) => Regs() == Put(old(Regs()), old(o.id), RObject(o))
      case RemoveQueue(q) => Regs() == Put(old(Regs()), old(q.id), RQueue(q))
      case RemoveResource(x) => Regs() == Put(old(Regs()), old(x.id), RResource(x))
      case RemoveStation(st) => Regs() == Put(old(Regs()), old(st.id), RStation(st))
      case RemoveVariable(v) => Regs() == Put(old(Regs()), old(v.id), RVariable(v))
      case _ => false
    }

    /** An add's or a copy's undo: its id is removed again (AddObject's from
        `queues`, a copy's recomputed from the source's current id). */
    twostate predicate UnregisterEffect(c: Change)
      reads this`objects, this`queues, this`resources, this`stations, this`variables, this`renderables
    {
      match c
      case AddObject(id) => Regs() == Drop(old(Regs()), Queues, id)
      case AddQueue(id) => Regs() == Drop(old(Regs()), Queues, id)
      case AddResource(id) => Regs() == Drop(old(Regs()), Resources, id)
      case AddStation(id) => Regs() == Drop(old(Regs()), Stations, id)
      case AddVariable(id) => Regs() == Drop(old(Regs()), Variables, id)
      case CopyQueue(q) => Regs() == Drop(old(Regs()), Queues, old(q.id) + "_copy")
      case CopyResource(x) => Regs() == Drop(old(Regs()), Resources, old(x.id) + "_copy")
      case CopyStation(st) => Regs() == Drop(old(Regs()), Stations, old(st.id) + "_copy")
      case CopyVariable(v) => Regs() == Drop(old(Regs()), Variables, old(v.id) + "_copy")
      case _ => false
    }

    /** A settings edit's fields hold its new settings, or with `back` its
        previous ones. The object edit writes nothing here. */
    predicate SettingsAre(c: Change, back: bool)
      reads Held(c)
    {
      match c
      case EditQueueSettings(q, pid, id, ps, scale) =>
        q.id == (if back then pid else id) && q.scale == (if back then ps else scale)
      case EditResourceSettings(x, pid, id) => x.id == (if back then pid else id)
      case EditStationSettings(st, pid, id) => st.id == (if back then pid else id)
      case EditVariableSettings(v, pid, id, pdv, dv, pts, ts, ppr, pr, ptc, tc) =>
        if back then VariableSettings(v, pid, pdv, pts, ppr, ptc) else VariableSettings(v, id, dv, ts, pr, tc)
      case EditObjectSettings(_, _, _, _, _) => true
      case _ => false
    }

    /** A move's geometry holds its new values, or with `back` its old
        ones, wherever the id is found. */
    predicate GeometryAre(c: Change, back: bool)
      reads this`queues, this`resources, this`variables, Moved(c)
    {
      match c
      case MoveQueue(id, os, oe, ns, ne) => if back then QueueEndsAre(id, os, oe) else QueueEndsAre(id, ns, ne)
      case MoveResource(id, op, np) => ResourceIsAt(id, if back then op else np)
      case MoveStation(id, op, np) => QueueStartIs(id, if back then op else np)
      case MoveAndResizeObject(id, op, os, np, ns) => if back then GeometryIs(id, op, os) else GeometryIs(id, np, ns)
      case MoveAndResizeVariable(id, op, os, np, ns) =>
        if back then VariableGeometryIs(id, op, os) else VariableGeometryIs(id, np, ns)
      case _ => false
    }

    /** What `c.apply()` does. The moves and the object edit have no
        `apply` of their own: AnimationChange's does nothing. */
    twostate predicate ApplyEffect(c: Change, r: Outcome)
      reads this`objects, this`queues, this`resources, this`stations, this`variables, this`renderables
      reads Held(c), CopiedStates(c), NewStates(c), Registered(c)
    {
      if c.IsAdd() then r == Done && AddEffect(c)
      else if c.IsRemove() then r == Done && RemoveEffect(c)
      else if c.IsCopy() then CopyEffect(c, r)
      else if c.IsEdit() then r == Done && Kept() && SettingsAre(c, false)
      else r == Done && Kept()
    }

    /** What `c.undo()` does. */
    twostate predicate UndoEffect(c: Change)
      reads this`objects, this`queues, this`resources, this`stations, this`variables, this`renderables
      reads Held(c), Moved(c)
    {
      if c.IsAdd() || c.IsCopy() then UnregisterEffect(c)
      else if c.IsRemove() then RestoreEffect(c)
      else if c.IsEdit() then Kept() && SettingsAre(c, true)
      else Kept() && GeometryAre(c, true)
    }

    /** What `c.redo()` does: a removal's redo is its undo, a move's redo
        writes the new geometry, and every other redo is its apply. */
    twostate predicate RedoEffect(c: Change, r: Outcome)
      reads this`objects, this`queues, this`resources, this`stations, this`variables, this`renderables
      reads Held(c), CopiedStates(c), NewStates(c), Registered(c), Moved(c)
    {
      if c.IsRemove() then r == Done && RestoreEffect(c)
      else if c.IsMove() then r == Done && Kept() && GeometryAre(c, false)
      else ApplyEffect(c, r)
    }

    // ---------------------------------------------------- running changes

    method RunAdd(c: Change, next: History.History<Change>)
      requires c.IsAdd()
      modifies this`objects, this`queues, this`resources, this`stations, this`variables, this`renderables, this`history
      ensures AddEffect(c) && history == next
    {
      history := next;
      if c.AddObject? {
        AddDefaultObject(c.objectId);
      } else if c.AddQueue? {
        AddDefaultQueue(c.queueId);
      } else if c.AddResource? {
        AddDefaultResource(c.resourceId);
      } else if c.AddStation? {
        AddDefaultStation(c.stationId);
      } else {
        AddDefaultVariable(c.variableId);
      }
    }

    method RunCopy(c: Change, next: History.History<Change>) returns (r: Outcome)
      requires c.IsCopy()
      modifies this`objects, this`queues, this`resources, this`stations, this`variables, this`renderables, this`history
      ensures CopyEffect(c, r)
      ensures history == if r.Done? then next else old(history)
    {
      if !CopyThrows(c) {
        history := next;
      }
      r := Done;
      if c.CopyQueue? {
        AddQueueCopy(c.queue);
      } else if c.CopyResource? {
        r := AddResourceCopy(c.resource);
      } else if c.CopyStation? {
        AddStationCopy(c.station);
      } else {
        AddVariableCopy(c.variable);
      }
    }

    method RunRemove(c: Change, next: History.History<Change>)
      requires c.IsRemove()
      modifies this`objects, this`queues, this`resources, this`stations, this`variables, this`renderables, this`history
      ensures RemoveEffect(c) && history == next
    {
      history := next;
      if c.RemoveObject? {
        Unregister(Queues, c.kslObject.id);
      } else if c.RemoveQueue? {
        Unregister(Queues, c.queue.id);
      } else if c.RemoveResource? {
        Unregister(Resources, c.resource.id);
      } else if c.RemoveStation? {
        Unregister(Stations, c.station.id);
      } else {
        Unregister(Variables, c.variable.id);
      }
    }

    method RunRestore(c: Change, next: History.History<Change>)
      requires c.IsRemove()
      modifies this`objects, this`queues, this`resources, this`stations, this`variables, this`renderables, this`history
      ensures RestoreEffect(c) && history == next
    {
      history := next;
      if c.RemoveObject? {
        AddRenderable(RObject(c.kslObject));
      } else if c.RemoveQueue? {
        AddRenderable(RQueue(c.queue));
      } else if c.RemoveResource? {
        AddRenderable(RResource(c.resource));
      } else if c.RemoveStation? {
        AddRenderable(RStation(c.station));
      } else {
        AddRenderable(RVariable(c.variable));
      }
    }

    method RunUnregister(c: Change, next: History.History<Change>)
      requires c.IsAdd() || c.IsCopy()
      modifies this`objects, this`queues, this`resources, this`stations, this`variables, this`renderables, this`history
      ensures UnregisterEffect(c) && history == next
    {
      history := next;
      if c.AddObject? {
        Unregister(Queues, c.objectId);
      } else if c.AddQueue? {
        Unregister(Queues, c.queueId);
      } else if c.AddResource? {
        Unregister(Resources, c.resourceId);
      } else if c.AddStation? {
        Unregister(Stations, c.stationId);
      } else if c.AddVariable? {
        Unregister(Variables, c.variableId);
      } else if c.CopyQueue? {
        Unregister(Queues, c.queue.id + "_copy");
      } else if c.CopyResource? {
        Unregister(Resources, c.resource.id + "_copy");
      } else if c.CopyStation? {
        Unregister(Stations, c.station.id + "_copy");
      } else {
        Unregister(Variables, c.variable.id + "_copy");
      }
    }

    method WriteSettings(c: Change, back: bool, next: History.History<Change>)
      requires c.IsEdit()
      modifies EditedQueue(Some(c))`id, EditedQueue(Some(c))`scale, EditedResource(Some(c))`id, EditedStation(Some(c))`id
      modifies EditedVariable(Some(c))`id, EditedVariable(Some(c))`defaultValue, EditedVariable(Some(c))`maxTextScale
      modifies EditedVariable(Some(c))`precision, EditedVariable(Some(c))`textColor
      modifies this`history
      ensures SettingsAre(c, back) && history == next
    {
      history := next;
      if c.EditQueueSettings? {
        var q := c.queue;
        q.id, q.scale := if back then c.previousId else c.id, if back then c.previousScale else c.scale;
      } else if c.EditResourceSettings? {
        c.resource.id := if back then c.previousId else c.id;
      } else if c.EditStationSettings? {
        c.station.id := if back then c.previousId else c.id;
      } else if c.EditVariableSettings? {
        var v := c.variable;
        if back {
          v.id, v.defaultValue, v.maxTextScale := c.previousId, c.previousDefaultValue, c.previousMaxTextScale;
          v.precision, v.textColor := c.previousPrecision, c.previousTextColor;
        } else {
          v.id, v.defaultValue, v.maxTextScale := c.id, c.defaultValue, c.maxTextScale;
          v.precision, v.textColor := c.precision, c.textColor;
        }
      }
    }

    method WriteGeometry(c: Change, back: bool, next: History.History<Change>)
      requires c.IsMove()
      modifies MovedStart(Some(c))`startPosition, MovedEnd(Some(c))`endPosition, MovedResource(Some(c))`position
      modifies ResizedResource(Some(c))`width, ResizedResource(Some(c))`height
      modifies ResizedVariable(Some(c))`position, ResizedVariable(Some(c))`width, ResizedVariable(Some(c))`height
      modifies this`history
      ensures GeometryAre(c, back) && history == next
    {
      history := next;
      if c.MoveQueue? {
        if back {
          SetQueueEnds(c.queueId, c.oldStartPosition, c.oldEndPosition);
        } else {
          SetQueueEnds(c.queueId, c.newStartPosition, c.newEndPosition);
        }
      } else if c.MoveResource? {
        SetResourcePosition(c.resourceId, if back then c.oldPosition else c.newPosition);
      } else if c.MoveStation? {
        SetQueueStart(c.stationId, if back then c.oldPosition else c.newPosition);
      } else if c.MoveAndResizeObject? {
        if back {
          SetGeometry(c.objectId, c.oldPosition, c.oldSize);
        } else {
          SetGeometry(c.objectId, c.newPosition, c.newSize);
        }
      } else if back {
        SetVariableGeometry(c.variableId, c.oldPosition, c.oldSize);
      } else {
        SetVariableGeometry(c.variableId, c.newPosition, c.newSize);
      }
    }

    /** Copying a resource whose states have no default throws. */
    predicate CopyThrows(c: Change)
      reads Held(c), CopiedStates(c)
    {
      c.CopyResource? && FirstDefault(Values(c.resource.states)).None?
    }

    /** `c.apply()`, and `next` stored as the history unless it throws. */
    method RunApply(c: Change, next: History.History<Change>) returns (r: Outcome)
      modifies this`objects, this`queues, this`resources, this`stations, this`variables, this`renderables
      modifies EditedQueue(Some(c))`id, EditedQueue(Some(c))`scale, EditedResource(Some(c))`id, EditedStation(Some(c))`id
      modifies EditedVariable(Some(c))`id, EditedVariable(Some(c))`defaultValue, EditedVariable(Some(c))`maxTextScale
      modifies EditedVariable(Some(c))`precision, EditedVariable(Some(c))`textColor
      modifies this`history
      ensures ApplyEffect(c, r)
      ensures history == if r.Done? then next else old(history)
    {
      r := Done;
      if c.IsAdd() {
        RunAdd(c, next);
      } else if c.IsRemove() {
        RunRemove(c, next);
      } else if c.IsCopy() {
        r := RunCopy(c, next);
      } else if c.IsEdit() {
        WriteSettings(c, false, next);
      } else {
        history := next;
      }
    }

    /** `c.undo()`, and `next` stored as the history. */
    method RunUndo(c: Change, next: History.History<Change>)
      modifies this`objects, this`queues, this`resources, this`stations, this`variables, this`renderables
      modifies EditedQueue(Some(c))`id, EditedQueue(Some(c))`scale, EditedResource(Some(c))`id, EditedStation(Some(c))`id
      modifies EditedVariable(Some(c))`id, EditedVariable(Some(c))`defaultValue, EditedVariable(Some(c))`maxTextScale
      modifies EditedVariable(Some(c))`precision, EditedVariable(Some(c))`textColor
      modifies MovedStart(Some(c))`startPosition, MovedEnd(Some(c))`endPosition, MovedResource(Some(c))`position
      modifies ResizedResource(Some(c))`width, ResizedResource(Some(c))`height
      modifies ResizedVariable(Some(c))`position, ResizedVariable(Some(c))`width, ResizedVariable(Some(c))`height
      modifies this`history
      ensures UndoEffect(c) && history == next
    {
      if c.IsAdd() || c.IsCopy() {
        RunUnregister(c, next);
      } else if c.IsRemove() {
        RunRestore(c, next);
      } else if c.IsEdit() {
        WriteSettings(c, true, next);
      } else {
        WriteGeometry(c, true, next);
      }
    }

    /** `c.redo()`, and `next` stored as the history unless it throws. */
    method RunRedo(c: Change, next: History.History<Change>) returns (r: Outcome)
      modifies this`objects, this`queues, this`resources, this`stations, this`variables, this`renderables
      modifies EditedQueue(Some(c))`id, EditedQueue(Some(c))`scale, EditedResource(Some(c))`id, EditedStation(Some(c))`id
      modifies EditedVariable(Some(c))`id, EditedVariable(Some(c))`defaultValue, EditedVariable(Some(c))`maxTextScale
      modifies EditedVariable(Some(c))`precision, EditedVariable(Some(c))`textColor
      modifies MovedStart(Some(c))`startPosition, MovedEnd(Some(c))`endPosition, MovedResource(Some(c))`position
      modifies ResizedResource(Some(c))`width, ResizedResource(Some(c))`height
      modifies ResizedVariable(Some(c))`position, ResizedVariable(Some(c))`width, ResizedVariable(Some(c))`height
      modifies this`history
      ensures RedoEffect(c, r)
      ensures history == if r.Done? then next else old(history)
    {
      if c.IsRemove() {
        RunRestore(c, next);
        r := Done;
      } else if c.IsMove() {
        WriteGeometry(c, false, next);
        r := Done;
      } else {
        r := RunApply(c, next);
      }
    }

    // ------------------------------------------------------ undo and redo

    /** The change `undo` would run, if any. */
    function Undoable(): Option<Change>
      reads this`history
    {
      History.Undo(Hist()).1
    }

    /** The change `redo` would run, if any. */
    function Redoable(): Option<Change>
      reads this`history
    {
      History.Redo(Hist()).1
    }

    /** applyChange: `change.apply()`, then the change is stored at the
        pointer, the pointer advances and redo is disabled. When `apply`
        throws, nothing is stored. */
    method ApplyChange(c: Change) returns (r: Outcome)
      requires Valid()
      modifies this`objects, this`queues, this`resources, this`stations, this`variables, this`renderables
      modifies EditedQueue(Some(c))`id, EditedQueue(Some(c))`scale, EditedResource(Some(c))`id, EditedStation(Some(c))`id
      modifies EditedVariable(Some(c))`id, EditedVariable(Some(c))`defaultValue, EditedVariable(Some(c))`maxTextScale
      modifies EditedVariable(Some(c))`precision, EditedVariable(Some(c))`textColor
      modifies this`history
      ensures Valid() && ApplyEffect(c, r)
      ensures Hist() == if r.Done? then History.Applied(old(Hist()), c) else old(Hist())
    {
      History.OperationsKeepValid(history, c);
      r := RunApply(c, History.Applied(history, c));
    }

    /** undo: the pointer steps back and the change stored there is undone;
        at pointer 0 nothing happens. */
    method Undo()
      requires Valid()
      modifies this`objects, this`queues, this`resources, this`stations, this`variables, this`renderables
      modifies EditedQueue(Undoable())`id, EditedQueue(Undoable())`scale, EditedResource(Undoable())`id, EditedStation(Undoable())`id
      modifies EditedVariable(Undoable())`id, EditedVariable(Undoable())`defaultValue, EditedVariable(Undoable())`maxTextScale
      modifies EditedVariable(Undoable())`precision, EditedVariable(Undoable())`textColor
      modifies MovedStart(Undoable())`startPosition, MovedEnd(Undoable())`endPosition, MovedResource(Undoable())`position
      modifies ResizedResource(Undoable())`width, ResizedResource(Undoable())`height
      modifies ResizedVariable(Undoable())`position, ResizedVariable(Undoable())`width, ResizedVariable(Undoable())`height
      modifies this`history
      ensures Valid() && Hist() == History.Undo(old(Hist())).0
      ensures old(Undoable()).None? ==> Kept()
      ensures old(Undoable()).Some? ==> UndoEffect(old(Undoable()).value)
    {
      var (h, o) := History.Undo(history);
      History.OperationsKeepValid(history, AddObject(""));
      if o.Some? {
        RunUndo(o.value, h);
      } else {
        history := h;
      }
    }

    /** redo: while redo is possible, the change at the pointer is redone
        and the pointer advances. When the redo throws, the pointer stays. */
    method Redo() returns (r: Outcome)
      requires Valid()
      modifies this`objects, this`queues, this`resources, this`stations, this`variables, this`renderables
      modifies EditedQueue(Redoable())`id, EditedQueue(Redoable())`scale, EditedResource(Redoable())`id, EditedStation(Redoable())`id
      modifies EditedVariable(Redoable())`id, EditedVariable(Redoable())`defaultValue, EditedVariable(Redoable())`maxTextScale
      modifies EditedVariable(Redoable())`precision, EditedVariable(Redoable())`textColor
      modifies MovedStart(Redoable())`startPosition, MovedEnd(Redoable())`endPosition, MovedResource(Redoable())`position
      modifies ResizedResource(Redoable())`width, ResizedResource(Redoable())`height
      modifies ResizedVariable(Redoable())`position, ResizedVariable(Redoable())`width, ResizedVariable(Redoable())`height
      modifies this`history
      ensures Valid()
      ensures Hist() == if r.Done? then History.Redo(old(Hist())).0 else old(Hist())
      ensures old(Redoable()).None? ==> r == Done && Kept()
      ensures old(Redoable()).Some? ==> RedoEffect(old(Redoable()).value, r)
    {
      var (h, o) := History.Redo(history);
      History.OperationsKeepValid(history, AddObject(""));
      if o.Some? {
        r := RunRedo(o.value, h);
      } else {
        r := Done;
        history := h;
      }
    }

    // ------------------------------------------------ recording releases

    /** KSLResizable.onMouseUp on an object: with a point held, one last
        drag to the mouse, then a MoveAndResizeObjectChange from the drag
        start to the new geometry is applied and the drag is dropped. With
        no point held nothing happens. */
    method ObjectMouseUp(o: SceneObject, x: int, y: int, snapToGrid: bool)
      requires Valid() && screenUnit != 0.0
      modifies this`objects, this`queues, this`resources, this`stations, this`variables, this`renderables
      modifies o`position, o`width, o`height, o`drag, this`history
      ensures Valid() && Kept()
      ensures old(o.drag).None? ==> o.drag == None && o.Bounds() == old(o.Bounds()) && Hist() == old(Hist())
      ensures old(o.drag).Some? ==>
        && o.drag == None
        && o.Bounds() == Geometry.HandleDraggedPoint(old(o.Bounds()), old(o.drag), ToWorld(Mouse(x, y), screenUnit, offset), snapToGrid)
        && Hist() == History.Applied(old(Hist()), MoveAndResizeObject(o.id, old(o.drag).value.startPos,
                                     old(o.drag).value.startSize, o.position, Position(o.width, o.height)))
    {
      if o.drag.None? {
        return;
      }
      var d := o.drag.value;
      o.HandleDraggedPoint(ToWorld(Mouse(x, y), screenUnit, offset), snapToGrid);
      var _ := ApplyChange(MoveAndResizeObject(o.id, d.startPos, d.startSize, o.position, Position(o.width, o.height)));
      o.drag := None;
    }

    /** KSLVariable.onMouseUp: the same, recording a
        MoveAndResizeVariableChange. */
    method VariableMouseUp(v: SceneVariable, x: int, y: int, snapToGrid: bool)
      requires Valid() && screenUnit != 0.0
      modifies this`objects, this`queues, this`resources, this`stations, this`variables, this`renderables
      modifies v`position, v`width, v`height, v`drag, this`history
      ensures Valid() && Kept()
      ensures old(v.drag).None? ==> v.drag == None && v.Bounds() == old(v.Bounds()) && Hist() == old(Hist())
      ensures old(v.drag).Some? ==>
        && v.drag == None
        && v.Bounds() == Geometry.HandleDraggedPoint(old(v.Bounds()), old(v.drag), ToWorld(Mouse(x, y), screenUnit, offset), snapToGrid)
        && Hist() == History.Applied(old(Hist()), MoveAndResizeVariable(v.id, old(v.drag).value.startPos,
                                     old(v.drag).value.startSize, v.position, Position(v.width, v.height)))
    {
      if v.drag.None? {
        return;
      }
      var d := v.drag.value;
      v.HandleDraggedPoint(ToWorld(Mouse(x, y), screenUnit, offset), snapToGrid);
      var _ := ApplyChange(MoveAndResizeVariable(v.id, d.startPos, d.startSize, v.position, Position(v.width, v.height)));
      v.drag := None;
    }

    /** KSLQueue.onMouseUp: a MoveQueueChange from the endpoints saved at
        the press to the current ones is applied on every release, a drag
        or not, and the selection is cleared. */
    method QueueMouseUp(q: SceneQueue)
      requires Valid()
      modifies this`objects, this`queues, this`resources, this`stations, this`variables, this`renderables
      modifies q`pointSelected, this`history
      ensures Valid() && Kept() && q.pointSelected == NoPoint
      ensures Hist() == History.Applied(old(Hist()), MoveQueue(q.id, q.actionStart, q.actionEnd, q.startPosition, q.endPosition))
    {
      var _ := ApplyChange(MoveQueue(q.id, q.actionStart, q.actionEnd, q.startPosition, q.endPosition));
      q.pointSelected := NoPoint;
    }

    /** KSLResource.onMouseUp: ending a drag applies a MoveResourceChange
        from the position at the press to the current one. The distances to
        the queues it computes on the way are not used. */
    method ResourceMouseUp(x: SceneResource)
      requires Valid()
      modifies this`objects, this`queues, this`resources, this`stations, this`variables, this`renderables
      modifies x`dragging, this`history
      ensures Valid() && Kept() && !x.dragging
      ensures Hist() == if old(x.dragging) then History.Applied(old(Hist()), MoveResource(x.id, x.originalPosition, x.position))
                        else old(Hist())
    {
      if x.dragging {
        x.dragging := false;
        var _ := ApplyChange(MoveResource(x.id, x.originalPosition, x.position));
      }
    }

    /** KSLObject.closeEditor: when the id typed in the editor differs from
        the object's, an EditObjectSettingsChange from the old id and type
        to the typed ones is applied. */
    method ObjectCloseEditor(o: SceneObject, typedId: string, selectedType: string)
      requires Valid()
      modifies this`objects, this`queues, this`resources, this`stations, this`variables, this`renderables
      modifies this`history
      ensures Valid() && Kept()
      ensures Hist() == if o.id != typedId then History.Applied(old(Hist()), EditObjectSettings(o, o.id, typedId, o.objectType, selectedType))
                        else old(Hist())
    {
      if o.id != typedId {
        var _ := ApplyChange(EditObjectSettings(o, o.id, typedId, o.objectType, selectedType));
      }
    }
  }
}
