// The six registries of common/AnimationScene.kt (objects, queues,
// resources, stations, variables and the drawable `renderables`), what
// `addRenderable` and the registry removals of builder/changes/ do to them,
// and the changes themselves (common/AnimationChange.kt and its subclasses).

module SceneChanges {
  import opened Common
  import opened Colors
  import opened EditorEntities

  /** KSLRenderable: anything the scene draws, tagged with its class. */
  datatype Renderable =
    | RObject(o: SceneObject)
    | RQueue(q: SceneQueue)
    | RResource(r: SceneResource)
    | RStation(s: SceneStation)
    | RVariable(v: SceneVariable)

  /** The five typed registries. */
  datatype Kind = Objects | Queues | Resources | Stations | Variables

  function KindOf(r: Renderable): Kind
  {
    match r
    case RObject(_) => Objects
    case RQueue(_) => Queues
    case RResource(_) => Resources
    case RStation(_) => Stations
    case RVariable(_) => Variables
  }

  /** The entity itself. */
  function Target(e: Renderable): object
  {
    match e
    case RObject(o) => o
    case RQueue(q) => q
    case RResource(x) => x
    case RStation(st) => st
    case RVariable(v) => v
  }

  /** The entity's current id. */
  function IdOf(e: Renderable): string
    reads Target(e)
  {
    match e
    case RObject(o) => o.id
    case RQueue(q) => q.id
    case RResource(x) => x.id
    case RStation(st) => st.id
    case RVariable(v) => v.id
  }

  /** The six registry maps of a scene at one moment, keyed by id. */
  datatype Registries = Registries(
    objects: map<string, SceneObject>,
    queues: map<string, SceneQueue>,
    resources: map<string, SceneResource>,
    stations: map<string, SceneStation>,
    variables: map<string, SceneVariable>,
    renderables: map<string, Renderable>)

  /** The registries of a new or reset scene. */
  const NoRegistries: Registries := Registries(map[], map[], map[], map[], map[], map[])

  /** The entry of typed registry `k` under `id`, as a renderable. */
  function Entry(rg: Registries, k: Kind, id: string): (r: Option<Renderable>)
    ensures r.Some? ==> KindOf(r.value) == k
  {
    match k
    case Objects => if id in rg.objects then Some(RObject(rg.objects[id])) else None
    case Queues => if id in rg.queues then Some(RQueue(rg.queues[id])) else None
    case Resources => if id in rg.resources then Some(RResource(rg.resources[id])) else None
    case Stations => if id in rg.stations then Some(RStation(rg.stations[id])) else None
    case Variables => if id in rg.variables then Some(RVariable(rg.variables[id])) else None
  }

  /** addRenderable(x) with `x`'s id: the typed registry of `x`'s class and
      `renderables` both map the id to `x`. */
  function Put(rg: Registries, id: string, r: Renderable): Registries
  {
    match r
    case RObject(o) => rg.(objects := rg.objects[id := o], renderables := rg.renderables[id := r])
    case RQueue(q) => rg.(queues := rg.queues[id := q], renderables := rg.renderables[id := r])
    case RResource(x) => rg.(resources := rg.resources[id := x], renderables := rg.renderables[id := r])
    case RStation(s) => rg.(stations := rg.stations[id := s], renderables := rg.renderables[id := r])
    case RVariable(v) => rg.(variables := rg.variables[id := v], renderables := rg.renderables[id := r])
  }

  /** `scene.<k>.remove(id); scene.renderables.remove(id)`. */
  function Drop(rg: Registries, k: Kind, id: string): Registries
  {
    var rest := rg.renderables - {id};
    match k
    case Objects => rg.(objects := rg.objects - {id}, renderables := rest)
    case Queues => rg.(queues := rg.queues - {id}, renderables := rest)
    case Resources => rg.(resources := rg.resources - {id}, renderables := rest)
    case Stations => rg.(stations := rg.stations - {id}, renderables := rest)
    case Variables => rg.(variables := rg.variables - {id}, renderables := rest)
  }

  // ------------------------------------------------------- entry by entry

  /** Two registries are equal when every entry and `renderables` are. */
  lemma EqualByEntries(a: Registries, b: Registries)
    requires a.renderables == b.renderables
    requires forall k, id :: Entry(a, k, id) == Entry(b, k, id)
    ensures a == b
  {
    assert a.objects == b.objects by {
      forall id ensures (id in a.objects) == (id in b.objects) && (id in a.objects ==> a.objects[id] == b.objects[id]) {
        assert Entry(a, Objects, id) == Entry(b, Objects, id);
      }
    }
    assert a.queues == b.queues by {
      forall id ensures (id in a.queues) == (id in b.queues) && (id in a.queues ==> a.queues[id] == b.queues[id]) {
        assert Entry(a, Queues, id) == Entry(b, Queues, id);
      }
    }
    assert a.resources == b.resources by {
      forall id ensures (id in a.resources) == (id in b.resources) && (id in a.resources ==> a.resources[id] == b.resources[id]) {
        assert Entry(a, Resources, id) == Entry(b, Resources, id);
      }
    }
    assert a.stations == b.stations by {
      forall id ensures (id in a.stations) == (id in b.stations) && (id in a.stations ==> a.stations[id] == b.stations[id]) {
        assert Entry(a, Stations, id) == Entry(b, Stations, id);
      }
    }
    assert a.variables == b.variables by {
      forall id ensures (id in a.variables) == (id in b.variables) && (id in a.variables ==> a.variables[id] == b.variables[id]) {
        assert Entry(a, Variables, id) == Entry(b, Variables, id);
      }
    }
  }

  /** addRenderable stores `r` under `id` in its own class's registry and in
      `renderables`, and changes no other entry. */
  lemma PutEntries(rg: Registries, id: string, r: Renderable)
    ensures Put(rg, id, r).renderables == rg.renderables[id := r]
    ensures Entry(Put(rg, id, r), KindOf(r), id) == Some(r)
    ensures forall k, key | k != KindOf(r) || key != id :: Entry(Put(rg, id, r), k, key) == Entry(rg, k, key)
  {
  }

  /** A removal empties the entry of `k` under `id` and the drawable entry,
      and changes no other entry. */
  lemma DropEntries(rg: Registries, k: Kind, id: string)
    ensures Drop(rg, k, id).renderables == rg.renderables - {id}
    ensures Entry(Drop(rg, k, id), k, id) == None
    ensures forall k', key | k' != k || key != id :: Entry(Drop(rg, k, id), k', key) == Entry(rg, k', key)
  {
  }

  // ------------------------------------------------------- add and remove

  /** Undoing an add (or a copy) removes the id again. The registries come
      back exactly when the add overwrote nothing: an add over an existing
      id loses the old entry for good. */
  lemma PutThenDrop(rg: Registries, id: string, r: Renderable)
    ensures Drop(Put(rg, id, r), KindOf(r), id) == Drop(rg, KindOf(r), id)
    ensures Drop(Put(rg, id, r), KindOf(r), id) == rg <==>
      Entry(rg, KindOf(r), id).None? && id !in rg.renderables
  {
    var k := KindOf(r);
    var a, b := Drop(Put(rg, id, r), k, id), Drop(rg, k, id);
    PutEntries(rg, id, r);
    DropEntries(Put(rg, id, r), k, id);
    DropEntries(rg, k, id);
    assert a.renderables == b.renderables;
    EqualByEntries(a, b);
    if b == rg {
      assert Entry(b, k, id).None?;
    } else if Entry(rg, k, id).None? && id !in rg.renderables {
      assert b.renderables == rg.renderables;
      EqualByEntries(b, rg);
    }
  }

  /** Undoing a removal puts the entity back under its id; the registries
      come back exactly when the entity was registered there in both maps. */
  lemma DropThenPut(rg: Registries, id: string, r: Renderable)
    ensures Put(Drop(rg, KindOf(r), id), id, r) == Put(rg, id, r)
    ensures Put(Drop(rg, KindOf(r), id), id, r) == rg <==>
      Entry(rg, KindOf(r), id) == Some(r) && id in rg.renderables && rg.renderables[id] == r
  {
    var k := KindOf(r);
    var a, b := Put(Drop(rg, k, id), id, r), Put(rg, id, r);
    DropEntries(rg, k, id);
    PutEntries(Drop(rg, k, id), id, r);
    PutEntries(rg, id, r);
    assert a.renderables == b.renderables;
    EqualByEntries(a, b);
    if b == rg {
      assert Entry(b, k, id) == Some(r);
    } else if Entry(rg, k, id) == Some(r) && id in rg.renderables && rg.renderables[id] == r {
      assert b.renderables == rg.renderables;
      EqualByEntries(b, rg);
    }
  }

  /** Adding the same entity twice is adding it once: a removal's redo,
      which adds the entity back like its undo, leaves the registries as the
      undo left them. */
  lemma PutTwice(rg: Registries, id: string, r: Renderable)
    ensures Put(Put(rg, id, r), id, r) == Put(rg, id, r)
  {
    PutEntries(rg, id, r);
    PutEntries(Put(rg, id, r), id, r);
    EqualByEntries(Put(Put(rg, id, r), id, r), Put(rg, id, r));
  }

  /** AddObject's undo removes the id from the queues: the new object stays
      in `objects` although it is no longer drawn, and a queue registered
      under the same id is lost. */
  lemma AddObjectUndoLeavesObject(rg: Registries, id: string, o: SceneObject)
    ensures var u := Drop(Put(rg, id, RObject(o)), Queues, id);
      && Entry(u, Objects, id) == Some(RObject(o))
      && id !in u.renderables
      && Entry(u, Queues, id) == None
  {
    PutEntries(rg, id, RObject(o));
    DropEntries(Put(rg, id, RObject(o)), Queues, id);
  }

  /** RemoveObject's apply removes the id from the queues: the object stays
      registered, only its drawable entry goes. */
  lemma RemoveObjectKeepsObject(rg: Registries, o: SceneObject)
    requires Entry(rg, Objects, o.id) == Some(RObject(o))
    ensures var a := Drop(rg, Queues, o.id);
      Entry(a, Objects, o.id) == Some(RObject(o)) && o.id !in a.renderables
  {
    DropEntries(rg, Queues, o.id);
  }

  /** A copy is stored under `id + "_copy"`, which is never `id`: the
      original's entries are left as they were. */
  lemma CopyKeepsOriginal(rg: Registries, id: string, r: Renderable)
    ensures id + "_copy" != id
    ensures forall k :: Entry(Put(rg, id + "_copy", r), k, id) == Entry(rg, k, id)
    ensures id in rg.renderables ==> Put(rg, id + "_copy", r).renderables[id] == rg.renderables[id]
  {
    assert |id + "_copy"| == |id| + 5;
    PutEntries(rg, id + "_copy", r);
  }

  // --------------------------------------------------------------- changes

  /** The subclasses of AnimationChange, with the values their constructors
      capture. An entity captured by a change is a reference: the change
      reads the entity's id and fields when it runs, not when it is made. */
  datatype Change =
      /** AddRenderableChange.kt: a new entity with default settings. */
    | AddObject(objectId: string)
    | AddQueue(queueId: string)
    | AddResource(resourceId: string)
    | AddStation(stationId: string)
    | AddVariable(variableId: string)
      /** RemoveRenderableChange.kt: the entity being removed. */
    | RemoveObject(kslObject: SceneObject)
    | RemoveQueue(queue: SceneQueue)
    | RemoveResource(resource: SceneResource)
    | RemoveStation(station: SceneStation)
    | RemoveVariable(variable: SceneVariable)
      /** CopyRenderableChange.kt: the entity being copied. */
    | CopyQueue(queue: SceneQueue)
    | CopyResource(resource: SceneResource)
    | CopyStation(station: SceneStation)
    | CopyVariable(variable: SceneVariable)
      /** EditRenderableChange.kt: the entity and each edited setting
          before and after. */
    | EditQueueSettings(queue: SceneQueue, previousId: string, id: string, previousScale: real, scale: real)
    | EditResourceSettings(resource: SceneResource, previousId: string, id: string)
    | EditStationSettings(station: SceneStation, previousId: string, id: string)
    | EditVariableSettings(variable: SceneVariable, previousId: string, id: string,
        previousDefaultValue: string, defaultValue: string,
        previousMaxTextScale: real, maxTextScale: real,
        previousPrecision: int, precision: int,
        previousTextColor: Rgba, textColor: Rgba)
      /** The change an object's editor records on close. */
    | EditObjectSettings(kslObject: SceneObject, previousId: string, id: string,
        previousObjectType: string, objectType: string)
      /** The Move*Change classes: an id and the geometry before and after
          a drag, which has already happened when the change is applied. */
    | MoveQueue(queueId: string, oldStartPosition: Position, oldEndPosition: Position,
        newStartPosition: Position, newEndPosition: Position)
    | MoveResource(resourceId: string, oldPosition: Position, newPosition: Position)
    | MoveStation(stationId: string, oldPosition: Position, newPosition: Position)
    | MoveAndResizeObject(objectId: string, oldPosition: Position, oldSize: Position,
        newPosition: Position, newSize: Position)
    | MoveAndResizeVariable(variableId: string, oldPosition: Position, oldSize: Position,
        newPosition: Position, newSize: Position)
  {
    /** The classes of AddRenderableChange.kt. */
    predicate IsAdd()
    {
      AddObject? || AddQueue? || AddResource? || AddStation? || AddVariable?
    }

    /** The classes of RemoveRenderableChange.kt. */
    predicate IsRemove()
    {
      RemoveObject? || RemoveQueue? || RemoveResource? || RemoveStation? || RemoveVariable?
    }

    /** The classes of CopyRenderableChange.kt. */
    predicate IsCopy()
    {
      CopyQueue? || CopyResource? || CopyStation? || CopyVariable?
    }

    /** The settings edits, which write fields of the entity they hold. */
    predicate IsEdit()
    {
      EditQueueSettings? || EditResourceSettings? || EditStationSettings? || EditVariableSettings?
      || EditObjectSettings?
    }

    /** The changes whose undo and redo write geometry, and whose apply does
        nothing. */
    predicate IsMove()
    {
      MoveQueue? || MoveResource? || MoveStation? || MoveAndResizeObject? || MoveAndResizeVariable?
    }
  }
}
