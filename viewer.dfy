// viewer/AnimationViewer.kt: the registries a replay acts on, the setup
// loader that fills them, and `render`'s tick clock, event cursor and
// movement pass. The registries hold objects the events update in place;
// `State()` abstracts them to the Replay World, and every method is proved
// to do what the Replay functions say.

module Viewer {
  import opened Common
  import opened MovementFunctions
  import LinkedMaps
  import opened Setup
  import opened SimEntities
  import opened LogEvents
  import opened LogCursor
  import opened Replay

  /** What `objects[it.id] = KSLObject(it)` stores, as an object state. */
  function ObjectPick(e: SetupObject): Option<(string, ObjectState)>
  {
    if e.ObjectEntry? then Some((e.id, ObjectState(e.position, e.objectType, e.width, e.height))) else None
  }

  /** A queue built from its entry has no members. */
  function MembersPick(e: SetupObject): Option<(string, seq<string>)>
  {
    if e.QueueEntry? then Some((e.id, [])) else None
  }

  /** The endpoints and scale of each queue; they are fixed at construction. */
  function ShapesOf(queues: map<string, SimQueue>): map<string, (Position, Position, real)>
  {
    map k | k in queues :: (queues[k].startPosition, queues[k].endPosition, queues[k].scale)
  }

  lemma ShapesOfPut(queues: map<string, SimQueue>, id: string, q: SimQueue)
    ensures ShapesOf(queues[id := q]) == ShapesOf(queues)[id := (q.startPosition, q.endPosition, q.scale)]
  {
  }

  class AnimationViewer {
    var images: set<string>
    var objects: map<string, SimObject>
    var queues: map<string, SimQueue>
    var resources: map<string, SimResource>
    var objectTypes: map<string, string>    // object type id -> image id
    var stations: map<string, Position>
    var variables: map<string, VariableValue>
    var movements: seq<MoveQuery>

    var log: AnimationLog
    var ticksPerSecond: real
    var playing: bool
    var currentEvent: nat
    var ticks: real
    var timer: real

    /** Every registry entry sits under its own id, no two resource keys
        share one resource, every queue's members are keyed uniquely, and
        the running jobs have non-negative clocks. */
    ghost predicate Valid()
      reads this`objects, this`queues, this`resources, this`movements, queues.Values`members
    {
      Registered() && JobsOk(movements)
    }

    /** Every registry is keyed by its entries' ids, a queue's member list
        has no duplicates, and no two resource ids share one resource. */
    ghost predicate Registered()
      reads this`objects, this`queues, this`resources, queues.Values`members
    {
      (forall k :: k in objects ==> objects[k].id == k)
      && (forall k :: k in queues ==> queues[k].id == k && queues[k].Valid())
      && (forall a, b :: a in resources && b in resources && a != b ==> resources[a] != resources[b])
    }

    function ObjectStates(): map<string, ObjectState>
      reads this`objects, objects.Values`position
    {
      map k | k in objects :: ObjectState(objects[k].position, objects[k].objectType, objects[k].width, objects[k].height)
    }

    function QueueMembers(): map<string, seq<string>>
      reads this`queues, queues.Values`members
    {
      map k | k in queues :: queues[k].MemberIds()
    }

    function CurrentStates(): map<string, string>
      reads this`resources, resources.Values`currentState
    {
      map k | k in resources :: resources[k].currentState
    }

    /** What events can observe and change. */
    function State(): World
      reads this`objects, this`queues, this`resources, this`variables, this`movements
      reads objects.Values`position, queues.Values`members, resources.Values`currentState
    {
      World(ObjectStates(), QueueMembers(), CurrentStates(), variables, movements)
    }

    /** What parsing checks ids against. */
    function View(): SetupView
      reads this
    {
      SetupView(objectTypes.Keys, queues.Keys, resources.Keys, variables.Keys, stations)
    }

    /** A fresh viewer: empty registries, paused at tick 0, one tick per
        second, with an empty log installed. */
    constructor ()
      ensures Valid() && State() == World(map[], map[], map[], map[], [])
      ensures images == {} && objectTypes == map[] && stations == map[]
      ensures ticksPerSecond == 1.0 && !playing && currentEvent == 0 && ticks == 0.0 && timer == 0.0
      ensures fresh(log) && log.events == []
    {
      images, objects, queues, resources := {}, map[], map[], map[];
      objectTypes, stations, variables, movements := map[], map[], map[], [];
      log := new AnimationLog();
      ticksPerSecond, playing, currentEvent, ticks, timer := 1.0, false, 0, 0.0, 0.0;
    }

    /** The endpoints and scale of every registered queue. */
    function QueueShapes(): map<string, (Position, Position, real)>
      reads this`queues
    {
      ShapesOf(queues)
    }

    // -------------------------------------------------------------- setup

    /** loadAnimationSetup: fills the images, object types, objects,
        stations, queues and resources, one kind after the other, each by
        `registry[it.id] = ...` in list order. An image whose data does not
        decode is skipped (`decodes` stands for Base64 and PNG decoding);
        a resource without a default state throws out of the load, leaving
        every registry filled so far as it is. */
    method LoadAnimationSetup(objs: seq<SetupObject>, decodes: string -> bool) returns (r: Outcome)
      requires Valid()
      requires forall k :: 0 <= k < |objs| ==> NoDuplicates(StatesOf(objs[k]))
      modifies this`images, this`objectTypes, this`objects, this`stations, this`queues, this`resources
      ensures Valid()
      ensures images == old(images) + Collect(objs, ImagePick(decodes)).Keys
      ensures objectTypes == old(objectTypes) + Collect(objs, TypePick)
      ensures ObjectStates() == old(ObjectStates()) + Collect(objs, ObjectPick)
      ensures stations == old(stations) + Collect(objs, StationPick)
      ensures QueueShapes() == old(QueueShapes()) + Collect(objs, QueuePick)
      ensures QueueMembers() == old(QueueMembers()) + Collect(objs, MembersPick)
      ensures r.Done? <==> forall k :: 0 <= k < |objs| && objs[k].ResourceEntry? ==> old(HasDefault(objs[k]))
      ensures r.Done? ==> CurrentStates() == old(CurrentStates()) + Collect(objs, ResourcePick)
      ensures r.Failed? ==> r == Failed(Runtime("No default state found"))
      ensures r.Failed? ==>
        exists j :: 0 <= j < |objs| && objs[j].ResourceEntry? && !old(HasDefault(objs[j])) &&
          (forall k :: 0 <= k < j && objs[k].ResourceEntry? ==> old(HasDefault(objs[k]))) &&
          CurrentStates() == old(CurrentStates()) + Collect(objs[..j], ResourcePick)
    {
      LoadLookups(objs, decodes);
      ObjectStatesUnchanged();
      QueueMembersUnchanged();
      CurrentStatesUnchanged();
      RegisteredUnchanged();
      AllHasDefaultUnchanged(objs);
      r := LoadRegistries(objs);
    }

    /** The objects, stations, queues and resources of loadAnimationSetup. */
    method LoadRegistries(objs: seq<SetupObject>) returns (r: Outcome)
      requires Valid()
      requires forall k :: 0 <= k < |objs| ==> NoDuplicates(StatesOf(objs[k]))
      modifies this`objects, this`stations, this`queues, this`resources
      ensures Valid()
      ensures ObjectStates() == old(ObjectStates()) + Collect(objs, ObjectPick)
      ensures stations == old(stations) + Collect(objs, StationPick)
      ensures QueueShapes() == old(QueueShapes()) + Collect(objs, QueuePick)
      ensures QueueMembers() == old(QueueMembers()) + Collect(objs, MembersPick)
      ensures r.Done? <==> forall k :: 0 <= k < |objs| && objs[k].ResourceEntry? ==> old(HasDefault(objs[k]))
      ensures r.Done? ==> CurrentStates() == old(CurrentStates()) + Collect(objs, ResourcePick)
      ensures r.Failed? ==> r == Failed(Runtime("No default state found"))
      ensures r.Failed? ==>
        exists j :: 0 <= j < |objs| && objs[j].ResourceEntry? && !old(HasDefault(objs[j])) &&
          (forall k :: 0 <= k < j && objs[k].ResourceEntry? ==> old(HasDefault(objs[k]))) &&
          CurrentStates() == old(CurrentStates()) + Collect(objs[..j], ResourcePick)
    {
      LoadPlaces(objs);
      CurrentStatesUnchanged();
      AllHasDefaultUnchanged(objs);
      label Resources:
      r := LoadResources(objs);
      ObjectStatesUnchanged@Resources();
      QueueMembersUnchanged@Resources();
    }

    /** The objects, stations and queues of loadAnimationSetup. */
    method LoadPlaces(objs: seq<SetupObject>)
      requires Valid()
      modifies this`objects, this`stations, this`queues
      ensures Valid()
      ensures ObjectStates() == old(ObjectStates()) + Collect(objs, ObjectPick)
      ensures stations == old(stations) + Collect(objs, StationPick)
      ensures QueueShapes() == old(QueueShapes()) + Collect(objs, QueuePick)
      ensures QueueMembers() == old(QueueMembers()) + Collect(objs, MembersPick)
    {
      LoadObjects(objs);
      QueueMembersUnchanged();
      label Stations:
      LoadStations(objs);
      ObjectStatesUnchanged@Stations();
      QueueMembersUnchanged@Stations();
      RegisteredUnchanged@Stations();
      LoadQueues(objs);
    }

    /** The images and object types of loadAnimationSetup. */
    method LoadLookups(objs: seq<SetupObject>, decodes: string -> bool)
      modifies this`images, this`objectTypes
      ensures images == old(images) + Collect(objs, ImagePick(decodes)).Keys
      ensures objectTypes == old(objectTypes) + Collect(objs, TypePick)
    {
      LoadImages(objs, decodes);
      LoadObjectTypes(objs);
    }

    method LoadImages(objs: seq<SetupObject>, decodes: string -> bool)
      modifies this`images
      ensures images == old(images) + Collect(objs, ImagePick(decodes)).Keys
    {
      var i := 0;
      while i < |objs|
        invariant i <= |objs| && images == old(images) + Collect(objs[..i], ImagePick(decodes)).Keys
      {
        CollectStep(objs, ImagePick(decodes), i);
        if objs[i].ImageEntry? && decodes(objs[i].data) {
          images := images + {objs[i].id};
        }
        i := i + 1;
      }
      assert objs[..i] == objs;
    }

    method LoadObjectTypes(objs: seq<SetupObject>)
      modifies this`objectTypes
      ensures objectTypes == old(objectTypes) + Collect(objs, TypePick)
    {
      var i := 0;
      while i < |objs|
        invariant i <= |objs| && objectTypes == old(objectTypes) + Collect(objs[..i], TypePick)
      {
        CollectStep(objs, TypePick, i);
        if objs[i].ObjectTypeEntry? {
          UnionUpdate(old(objectTypes), Collect(objs[..i], TypePick), objs[i].id, objs[i].image);
          objectTypes := objectTypes[objs[i].id := objs[i].image];
        }
        i := i + 1;
      }
      assert objs[..i] == objs;
    }

    method LoadStations(objs: seq<SetupObject>)
      modifies this`stations
      ensures stations == old(stations) + Collect(objs, StationPick)
    {
      var i := 0;
      while i < |objs|
        invariant i <= |objs| && stations == old(stations) + Collect(objs[..i], StationPick)
      {
        CollectStep(objs, StationPick, i);
        if objs[i].StationEntry? {
          UnionUpdate(old(stations), Collect(objs[..i], StationPick), objs[i].id, objs[i].position);
          stations := stations[objs[i].id := objs[i].position];
        }
        i := i + 1;
      }
      assert objs[..i] == objs;
    }

    /** `objects[it.id] = KSLObject(it)` for every object entry. */
    method LoadObjects(objs: seq<SetupObject>)
      requires Valid()
      modifies this`objects
      ensures Valid()
      ensures ObjectStates() == old(ObjectStates()) + Collect(objs, ObjectPick)
    {
      ghost var os := ObjectStates();
      var i := 0;
      while i < |objs|
        invariant i <= |objs| && Valid()
        invariant ObjectStates() == os + Collect(objs[..i], ObjectPick)
      {
        CollectStep(objs, ObjectPick, i);
        var e := objs[i];
        if e.ObjectEntry? {
          var o := new SimObject(e.id, e.position, e.objectType, e.width, e.height);
          UnionUpdate(os, Collect(objs[..i], ObjectPick), e.id, ObjectState(e.position, e.objectType, e.width, e.height));
          PutObject(o);
        }
        i := i + 1;
      }
      assert objs[..i] == objs;
    }

    /** `queues[it.id] = KSLQueue(it)` for every queue entry. */
    method LoadQueues(objs: seq<SetupObject>)
      requires Valid()
      modifies this`queues
      ensures Valid()
      ensures QueueShapes() == old(QueueShapes()) + Collect(objs, QueuePick)
      ensures QueueMembers() == old(QueueMembers()) + Collect(objs, MembersPick)
      ensures ObjectStates() == old(ObjectStates()) && CurrentStates() == old(CurrentStates())
    {
      ghost var qs, ms := QueueShapes(), QueueMembers();
      var i := 0;
      while i < |objs|
        invariant i <= |objs| && Valid()
        invariant QueueShapes() == qs + Collect(objs[..i], QueuePick)
        invariant QueueMembers() == ms + Collect(objs[..i], MembersPick)
      {
        CollectStep(objs, QueuePick, i);
        CollectStep(objs, MembersPick, i);
        var e := objs[i];
        if e.QueueEntry? {
          UnionUpdate(qs, Collect(objs[..i], QueuePick), e.id, (e.startPosition, e.endPosition, e.scale));
          UnionUpdate(ms, Collect(objs[..i], MembersPick), e.id, []);
          NewQueue(e.id, e.startPosition, e.endPosition, e.scale);
        }
        i := i + 1;
      }
      assert objs[..i] == objs;
      ObjectStatesUnchanged();
      CurrentStatesUnchanged();
    }

    /** `queues[id] = KSLQueue(...)`: a new, empty queue goes in under its
        id. */
    method NewQueue(id: string, startPosition: Position, endPosition: Position, scale: real)
      requires Valid()
      modifies this`queues
      ensures Valid()
      ensures QueueShapes() == old(QueueShapes())[id := (startPosition, endPosition, scale)]
      ensures QueueMembers() == old(QueueMembers())[id := []]
      ensures ObjectStates() == old(ObjectStates()) && CurrentStates() == old(CurrentStates())
    {
      var q := new SimQueue(id, startPosition, endPosition, scale);
      ShapesOfPut(queues, id, q);
      queues := queues[q.id := q];
      ObjectStatesUnchanged();
      CurrentStatesUnchanged();
      QueueMembersAfterPut(id, q);
    }

    /** `resources[it.id] = KSLResource(it)` for every resource entry, up to
        the first one whose states have no default. */
    method LoadResources(objs: seq<SetupObject>) returns (r: Outcome)
      requires Valid()
      requires forall k :: 0 <= k < |objs| ==> NoDuplicates(StatesOf(objs[k]))
      modifies this`resources
      ensures Valid()
      ensures r.Done? <==> forall k :: 0 <= k < |objs| && objs[k].ResourceEntry? ==> old(HasDefault(objs[k]))
      ensures r.Done? ==> CurrentStates() == old(CurrentStates()) + Collect(objs, ResourcePick)
      ensures r.Failed? ==> r == Failed(Runtime("No default state found"))
      ensures r.Failed? ==>
        exists j :: 0 <= j < |objs| && objs[j].ResourceEntry? && !old(HasDefault(objs[j])) &&
          (forall k :: 0 <= k < j && objs[k].ResourceEntry? ==> old(HasDefault(objs[k]))) &&
          CurrentStates() == old(CurrentStates()) + Collect(objs[..j], ResourcePick)
    {
      ghost var cs := CurrentStates();
      var i := 0;
      r := Done;
      while i < |objs|
        invariant i <= |objs| && Valid() && r == Done
        invariant forall k :: 0 <= k < i && objs[k].ResourceEntry? ==> old(HasDefault(objs[k]))
        invariant CurrentStates() == cs + Collect(objs[..i], ResourcePick)
      {
        HasDefaultUnchanged(objs[i]);
        r := LoadResourceAt(objs, i, cs);
        if r.Failed? {
          break;
        }
        i := i + 1;
      }
      if r.Done? {
        assert objs[..i] == objs;
      } else {
        assert objs[i].ResourceEntry? && !old(HasDefault(objs[i]));
      }
    }

    /** Entry i of the resource pass, with `cs` the states before the pass. */
    method LoadResourceAt(objs: seq<SetupObject>, i: nat, ghost cs: map<string, string>) returns (r: Outcome)
      requires Valid() && i < |objs| && NoDuplicates(StatesOf(objs[i]))
      requires CurrentStates() == cs + Collect(objs[..i], ResourcePick)
      modifies this`resources
      ensures Valid()
      ensures r.Done? <==> (objs[i].ResourceEntry? ==> old(HasDefault(objs[i])))
      ensures r.Done? ==> CurrentStates() == cs + Collect(objs[..i + 1], ResourcePick)
      ensures r.Failed? ==> r == Failed(Runtime("No default state found")) && CurrentStates() == old(CurrentStates())
    {
      CollectStep(objs, ResourcePick, i);
      var e := objs[i];
      if e.ResourceEntry? {
        UnionUpdate(cs, Collect(objs[..i], ResourcePick), e.id, "idle");
        r := LoadResource(e);
      } else {
        r := Done;
      }
    }

    /** One resource entry: `resources[it.id] = KSLResource(it)`, or the
        constructor's exception with nothing stored. */
    method LoadResource(e: SetupObject) returns (r: Outcome)
      requires Valid() && e.ResourceEntry? && NoDuplicates(e.states)
      modifies this`resources
      ensures Valid()
      ensures r.Done? <==> old(HasDefault(e))
      ensures r.Done? ==> CurrentStates() == old(CurrentStates())[e.id := "idle"]
      ensures r.Failed? ==> r == Failed(Runtime("No default state found")) && CurrentStates() == old(CurrentStates())
    {
      var made := SimResource.Create(e.states, e.position, e.width, e.height);
      if made.Err? {
        CurrentStatesUnchanged();
        return Failed(made.error);
      }
      PutResource(e.id, made.value);
      r := Done;
    }

    /** Whether a resource entry has a default reads its own states only. */
    twostate lemma HasDefaultUnchanged(e: SetupObject)
      requires forall s :: s in StatesOf(e) ==> old(allocated(s)) && unchanged(s)
      ensures HasDefault(e) == old(HasDefault(e))
    {
      var rs := StatesOf(e);
      forall k | 0 <= k < |rs|
        ensures Values(rs)[k] == old(Values(rs))[k]
      {
        assert rs[k] in rs;
      }
      assert Values(rs) == old(Values(rs));
    }

    twostate lemma AllHasDefaultUnchanged(objs: seq<SetupObject>)
      requires forall k, s :: 0 <= k < |objs| && s in StatesOf(objs[k]) ==> old(allocated(s)) && unchanged(s)
      ensures forall k :: 0 <= k < |objs| ==> HasDefault(objs[k]) == old(HasDefault(objs[k]))
    {
      forall k | 0 <= k < |objs|
        ensures HasDefault(objs[k]) == old(HasDefault(objs[k]))
      {
        HasDefaultUnchanged(objs[k]);
      }
    }

    /** The registry half of a resource entry. */
    method PutResource(id: string, res: SimResource)
      requires Valid() && forall k :: k in resources ==> resources[k] != res
      modifies this`resources
      ensures Valid()
      ensures CurrentStates() == old(CurrentStates())[id := res.currentState]
      ensures ObjectStates() == old(ObjectStates()) && QueueMembers() == old(QueueMembers())
    {
      ghost var cs := CurrentStates();
      resources := resources[id := res];
      ObjectStatesUnchanged();
      QueueMembersUnchanged();
      assert CurrentStates() == cs[id := res.currentState];
    }

    /** loadAnimationLog: installs the log the viewer replays. */
    method LoadAnimationLog(l: AnimationLog)
      modifies this`log
      ensures log == l
    {
      log := l;
    }

    // ------------------------------------------------------------ execute

    /** ObjectEvent.execute, ADD: stores a new object under its id,
        dropping any older one. */
    method ExecuteAdd(ev: LogEvent) returns (r: Outcome)
      requires Valid() && ev.body.ObjectAdd?
      modifies this`objects
      ensures Valid()
      ensures (r, State()) == AddObject(old(State()), ev.body.objectTypeId, ev.body.objectId, ev.body.position, ev.body.width, ev.body.height)
      ensures forall o :: o in objects.Values ==> o in old(objects.Values) || fresh(o)
    {
      var b := ev.body;
      var o := new SimObject(b.objectId, b.position, b.objectTypeId, b.width, b.height);
      PutObject(o);
      r := Done;
    }

    /** The registry half of an ADD: `o` goes in under its own id. */
    method PutObject(o: SimObject)
      requires Valid()
      modifies this`objects
      ensures Valid() && objects == old(objects)[o.id := o]
      ensures State() == old(State()).(objects := old(State()).objects[o.id := ObjectState(o.position, o.objectType, o.width, o.height)])
    {
      ghost var w := State();
      objects := objects[o.id := o];
      QueueMembersUnchanged();
      CurrentStatesUnchanged();
      assert ObjectStates() == w.objects[o.id := ObjectState(o.position, o.objectType, o.width, o.height)];
    }

    /** ObjectEvent.execute, REMOVE: deletes the entry, or throws when there
        is none. */
    method ExecuteRemove(ev: LogEvent) returns (r: Outcome)
      requires Valid() && ev.body.ObjectRemove?
      modifies this`objects
      ensures Valid()
      ensures (r, State()) == RemoveObject(old(State()), ev.body.objectId)
      ensures forall o :: o in objects.Values ==> o in old(objects.Values) || fresh(o)
    {
      ghost var w := State();
      if ev.body.objectId in objects {
        objects := objects - {ev.body.objectId};
        QueueMembersUnchanged();
        CurrentStatesUnchanged();
        assert ObjectStates() == w.objects - {ev.body.objectId};
        r := Done;
      } else {
        r := Failed(Runtime("Object " + ev.body.objectId + " not found"));
      }
    }

    /** QueueEvent.execute: the object must exist (RuntimeException); a
        JOIN or LEAVE then needs the queue (`!!`, so NullPointerException)
        and adds or removes the registry's object; any other action does
        nothing. */
    method ExecuteQueue(ev: LogEvent) returns (r: Outcome)
      requires Valid() && ev.body.QueueChange?
      modifies queues.Values`members
      ensures Valid()
      ensures (r, State()) == ChangeQueue(old(State()), ev.body.queueId, ev.body.action, ev.body.objectId)
    {
      var b := ev.body;
      if b.objectId !in objects {
        return Failed(Runtime("Object " + b.objectId + " not found"));
      }
      if b.action == KEYWORD_JOIN || b.action == KEYWORD_LEAVE {
        if b.queueId !in queues {
          return Failed(NullPointer);
        }
        if b.action == KEYWORD_JOIN {
          JoinQueue(queues[b.queueId], objects[b.objectId]);
        } else {
          LeaveQueue(queues[b.queueId], objects[b.objectId]);
        }
      }
      r := Done;
    }

    /** addObject on one queue: its member ids gain the object's id (kept
        in place when already there), and no other queue changes. */
    method JoinQueue(q: SimQueue, o: SimObject)
      requires Valid() && q.id in queues && queues[q.id] == q
      modifies q`members
      ensures Valid()
      ensures QueueMembers() == old(QueueMembers())[q.id := LinkedMaps.AddToSet(old(QueueMembers())[q.id], o.id)]
      ensures ObjectStates() == old(ObjectStates()) && CurrentStates() == old(CurrentStates())
    {
      q.AddObject(o);
      ObjectStatesUnchanged();
      CurrentStatesUnchanged();
      OneQueueWritten(q);
    }

    /** removeObject on one queue: its member ids lose the object's id, and
        no other queue changes. */
    method LeaveQueue(q: SimQueue, o: SimObject)
      requires Valid() && q.id in queues && queues[q.id] == q
      modifies q`members
      ensures Valid()
      ensures QueueMembers() == old(QueueMembers())[q.id := LinkedMaps.Without(old(QueueMembers())[q.id], o.id)]
      ensures ObjectStates() == old(ObjectStates()) && CurrentStates() == old(CurrentStates())
    {
      q.RemoveObject(o);
      ObjectStatesUnchanged();
      CurrentStatesUnchanged();
      OneQueueWritten(q);
    }

    /** Writing the member entries of one registered queue: the registry
        stays valid and only that queue's member list changes. */
    twostate lemma OneQueueWritten(q: SimQueue)
      requires unchanged(this`objects, this`queues, this`resources, this`movements)
      requires old(Valid()) && q.id in queues && queues[q.id] == q && q.Valid()
      requires forall p :: p in queues.Values && p != q ==> unchanged(p`members)
      ensures Valid()
      ensures QueueMembers() == old(QueueMembers())[q.id := q.MemberIds()]
    {
      OtherQueuesUnchanged(q);
      OneQueueKeepsRegistered(q);
      OneQueueMembers(q);
    }

    twostate lemma OneQueueKeepsRegistered(q: SimQueue)
      requires unchanged(this`objects, this`queues, this`resources)
      requires old(Registered()) && q.id in queues && queues[q.id] == q && q.Valid()
      requires forall k :: k in queues && k != q.id ==> queues[k].members == old(queues[k].members)
      ensures Registered()
    {
      forall k | k in queues
        ensures queues[k].id == k && queues[k].Valid()
      {
        if k != q.id {
          assert old(queues[k].Valid());
        }
      }
    }

    twostate lemma OneQueueMembers(q: SimQueue)
      requires unchanged(this`queues)
      requires q.id in queues && queues[q.id] == q
      requires forall k :: k in queues && k != q.id ==> queues[k].members == old(queues[k].members)
      ensures QueueMembers() == old(QueueMembers())[q.id := q.MemberIds()]
    {
      forall k | k in queues
        ensures QueueMembers()[k] == old(QueueMembers())[q.id := q.MemberIds()][k]
      {
      }
    }

    /** A queue registered under another id than `q`'s is not `q`. */
    twostate lemma OtherQueuesUnchanged(q: SimQueue)
      requires unchanged(this`queues)
      requires old(Registered()) && q.id in queues && queues[q.id] == q
      requires forall p :: p in queues.Values && p != q ==> unchanged(p`members)
      ensures forall k :: k in queues && k != q.id ==> queues[k].members == old(queues[k].members)
    {
      forall k | k in queues && k != q.id
        ensures queues[k].members == old(queues[k].members)
      {
        assert queues[k] in queues.Values && queues[k] != q;
      }
    }

    /** The objects' states depend on the object registry and positions
        only. */
    twostate lemma ObjectStatesUnchanged()
      requires unchanged(this`objects)
      requires forall o :: o in objects.Values ==> unchanged(o`position)
      ensures ObjectStates() == old(ObjectStates())
    {
    }

    /** The queues' member lists depend on the queue registry and the
        queues' member entries only. */
    twostate lemma QueueMembersUnchanged()
      requires unchanged(this`queues)
      requires forall q :: q in queues.Values ==> unchanged(q`members)
      ensures QueueMembers() == old(QueueMembers())
    {
    }

    /** Registered reads the three registries and the queues' member
        entries only. */
    twostate lemma RegisteredUnchanged()
      requires unchanged(this`objects, this`queues, this`resources)
      requires forall q :: q in queues.Values ==> unchanged(q`members)
      ensures Registered() == old(Registered())
    {
      forall k | k in queues
        ensures queues[k].Valid() <==> old(queues[k].Valid())
      {
        assert queues[k] in queues.Values;
        assert queues[k].members == old(queues[k].members);
      }
    }

    /** Putting queue `q` under `id` changes that one member list. */
    twostate lemma QueueMembersAfterPut(id: string, new q: SimQueue)
      requires queues == old(queues)[id := q]
      requires forall p :: p in old(queues).Values ==> unchanged(p`members)
      ensures QueueMembers() == old(QueueMembers())[id := q.MemberIds()]
    {
      forall k | k in queues && k != id
        ensures queues[k].MemberIds() == old(queues[k].MemberIds())
      {
        assert queues[k] in old(queues).Values;
      }
    }

    /** The resources' states depend on the resource registry and the
        resources' current states only. */
    twostate lemma CurrentStatesUnchanged()
      requires unchanged(this`resources)
      requires forall s :: s in resources.Values ==> unchanged(s`currentState)
      ensures CurrentStates() == old(CurrentStates())
    {
    }

    /** ResourceEvent.execute: sets the resource's state, or throws when the
        resource is missing. */
    method ExecuteResource(ev: LogEvent) returns (r: Outcome)
      requires Valid() && ev.body.ResourceChange?
      modifies resources.Values`currentState
      ensures Valid()
      ensures (r, State()) == ChangeResource(old(State()), ev.body.resourceId, ev.body.newState)
    {
      ghost var w := State();
      var b := ev.body;
      if b.resourceId !in resources {
        return Failed(Runtime("Resource " + b.resourceId + " not found"));
      }
      resources[b.resourceId].SetState(b.newState);
      ObjectStatesUnchanged();
      QueueMembersUnchanged();
      RegisteredUnchanged();
      assert CurrentStates() == w.resources[b.resourceId := b.newState];
      r := Done;
    }

    /** VariableEvent.execute: a value that reads as a number is stored as
        one, anything else as text; a missing variable throws. */
    method ExecuteVariable(ev: LogEvent) returns (r: Outcome)
      requires Valid() && ev.body.VariableSet?
      modifies this`variables
      ensures Valid()
      ensures (r, State()) == SetVariable(old(State()), ev.body.variableId, ev.body.stringVal, ev.body.doubleVal)
    {
      var b := ev.body;
      if b.variableId !in variables {
        return Failed(Runtime("Variable " + b.variableId + " not found"));
      }
      if b.doubleVal.Some? {
        variables := variables[b.variableId := Number(b.doubleVal.value)];
      } else {
        variables := variables[b.variableId := Text(b.stringVal)];
      }
      ObjectStatesUnchanged();
      QueueMembersUnchanged();
      CurrentStatesUnchanged();
      RegisteredUnchanged();
      r := Done;
    }

    /** MoveEvent.execute: appends a job that starts at elapsed time 0 and
        carries the event's current duration; the object does not move. */
    method ExecuteMove(ev: LogEvent) returns (r: Outcome)
      requires Valid() && ev.body.Move? && DurationOk(ev)
      modifies this`movements
      ensures Valid()
      ensures (r, State()) == StartMove(old(State()), ev.body.objectId, ev.body.startPosition, ev.body.endPosition,
                                        ev.body.movementFunction, ev.body.duration)
    {
      var b := ev.body;
      if b.objectId !in objects {
        return Failed(Runtime("Object " + b.objectId + " not found"));
      }
      movements := movements + [MoveQuery(b.objectId, b.startPosition, b.endPosition, 0.0, b.duration, b.movementFunction)];
      ObjectStatesUnchanged();
      QueueMembersUnchanged();
      CurrentStatesUnchanged();
      r := Done;
    }

    /** KSLLogEvent.execute, dispatched on the event's class. */
    method Execute(ev: LogEvent) returns (r: Outcome)
      requires Valid() && DurationOk(ev)
      modifies this`objects, this`variables, this`movements, queues.Values`members, resources.Values`currentState
      ensures Valid()
      ensures (r, State()) == ExecuteSpec(old(State()), ev)
      ensures forall o :: o in objects.Values ==> o in old(objects.Values) || fresh(o)
    {
      match ev.body
      case ObjectAdd(_, _, _, _, _) => r := ExecuteAdd(ev);
      case ObjectRemove(_) => r := ExecuteRemove(ev);
      case QueueChange(_, _, _) => r := ExecuteQueue(ev);
      case ResourceChange(_, _) => r := ExecuteResource(ev);
      case VariableSet(_, _, _) => r := ExecuteVariable(ev);
      case Move(_, _, _, _, _) => r := ExecuteMove(ev);
      case AnimationMark(_) => r := Done;
    }

    /** The events of `evs` executed in order, stopping at the first that
        throws (runInstantEvents' forEach). */
    method RunEvents(evs: seq<LogEvent>) returns (r: Outcome)
      requires Valid() && DurationsOk(evs)
      modifies this`objects, this`variables, this`movements, queues.Values`members, resources.Values`currentState
      ensures Valid()
      ensures (r, State()) == ExecuteAll(old(State()), evs)
      ensures forall o :: o in objects.Values ==> o in old(objects.Values) || fresh(o)
    {
      ghost var w := State();
      var i := 0;
      while i < |evs|
        invariant 0 <= i <= |evs| && Valid()
        invariant ExecuteAll(w, evs[..i]) == (Done, State())
        invariant forall o :: o in objects.Values ==> o in old(objects.Values) || fresh(o)
      {
        assert evs[..i + 1][..i] == evs[..i];
        r := Execute(evs[i]);
        if r.Failed? {
          ExecuteAllKeepsFailure(w, evs, i + 1);
          return;
        }
        i := i + 1;
      }
      assert evs[..i] == evs;
      r := Done;
    }

    /** runInstantEvents: every event within 0.0001 of the start time, in
        log order, whatever the cursor says. */
    method RunInstantEvents() returns (r: Outcome)
      requires Valid() && DurationsOk(log.events)
      modifies this`objects, this`variables, this`movements, queues.Values`members, resources.Values`currentState
      ensures Valid()
      ensures (r, State()) == ExecuteAll(old(State()), InstantEvents(log.events, log.startTime))
      ensures forall o :: o in objects.Values ==> o in old(objects.Values) || fresh(o)
    {
      r := RunEvents(InstantEvents(log.events, log.startTime));
    }

    /** The inner loop of render over a given event list: from index `c0`
        on, the events not later than tick `t` are executed in order; `c`
        is where the loop stopped, the event that threw or the first later
        one. */
    method RunWindow(evs: seq<LogEvent>, c0: nat, t: real) returns (r: Outcome, c: nat)
      requires Valid() && c0 <= |evs| && DurationsOk(evs)
      modifies this`objects, this`variables, this`movements, queues.Values`members, resources.Values`currentState
      ensures Valid() && c0 <= c <= FirstLater(evs, c0, t)
      ensures (r, State()) == ExecuteAll(old(State()), evs[c0..FirstLater(evs, c0, t)])
      ensures r.Done? ==> c == FirstLater(evs, c0, t)
      ensures forall o :: o in objects.Values ==> o in old(objects.Values) || fresh(o)
    {
      ghost var w := State();
      ghost var f := FirstLater(evs, c0, t);
      c, r := c0, Done;
      while c < |evs|
        invariant c0 <= c <= f && FirstLater(evs, c, t) == f
        invariant Valid() && r == Done
        invariant ExecuteAll(w, evs[c0..c]) == (Done, State())
        invariant forall o :: o in objects.Values ==> o in old(objects.Values) || fresh(o)
        decreases |evs| - c
      {
        if evs[c].time > t {
          break;
        }
        assert FirstLater(evs, c, t) == FirstLater(evs, c + 1, t) && c < f;
        ghost var st := State();
        r := Execute(evs[c]);
        ExecuteWindowStep(w, evs, c0, c, f, st, r, State());
        if r.Failed? {
          return;
        }
        c := c + 1;
      }
    }

    /** The clock and cursor of render set at once; the registries are
        not touched. */
    method SetClock(tm: real, tk: real, c: nat)
      modifies this`timer, this`ticks, this`currentEvent
      ensures (currentEvent, ticks, timer) == (c, tk, tm)
      ensures State() == old(State()) && Valid() == old(Valid())
    {
      timer, ticks, currentEvent := tm, tk, c;
      ObjectStatesUnchanged();
      QueueMembersUnchanged();
      CurrentStatesUnchanged();
      RegisteredUnchanged();
    }

    /** The tick loop of render, on the timer grown by `extra`: while more
        than one quantum `q` is on the timer, a quantum is taken off, the
        tick count goes up by one and the events due at the new tick are
        executed. On an exception the frame stops where it is. */
    method RunTicks(q: real, extra: real) returns (r: Outcome)
      requires Valid() && q > 0.0 && currentEvent <= |log.events| && DurationsOk(log.events)
      modifies this`objects, this`variables, this`movements, this`currentEvent, this`ticks, this`timer, queues.Values`members, resources.Values`currentState
      ensures Valid() && currentEvent <= |log.events|
      ensures var f := Ticks(old(State()), log.events, old(currentEvent), old(ticks), old(timer) + extra, q);
        r == f.outcome && State() == f.world && (f.clock.Some? ==> (currentEvent, ticks, timer) == f.clock.value)
      ensures forall o :: o in objects.Values ==> o in old(objects.Values) || fresh(o)
    {
      var tm, tk, c;
      r, tm, tk, c := TickLoop(log.events, q, timer + extra, ticks, currentEvent);
      SetClock(tm, tk, c);
    }

    /** The tick loop over a given event list, timer `t0`, tick count `k0`
        and cursor `c0`; returns the new timer, tick count and cursor. */
    method TickLoop(evs: seq<LogEvent>, q: real, t0: real, k0: real, c0: nat) returns (r: Outcome, tm: real, tk: real, c: nat)
      requires Valid() && q > 0.0 && c0 <= |evs| && DurationsOk(evs)
      modifies this`objects, this`variables, this`movements, queues.Values`members, resources.Values`currentState
      ensures Valid() && c <= |evs|
      ensures var f := Ticks(old(State()), evs, c0, k0, t0, q);
        r == f.outcome && State() == f.world && (f.clock.Some? ==> (c, tk, tm) == f.clock.value)
      ensures forall o :: o in objects.Values ==> o in old(objects.Values) || fresh(o)
    {
      ghost var w := State();
      ghost var n := Quanta(t0, q);
      ghost var k: nat := 0;
      r, tm, tk, c := Done, t0, k0, c0;
      while tm > q
        invariant Valid() && c <= |evs| && r == Done
        invariant k + Quanta(tm, q) == n
        invariant Leftover(tm, q) == Leftover(t0, q) && tk == k0 + k as real
        invariant c == CursorAfter(evs, c0, k0, k)
        invariant ExecuteAll(w, evs[c0..c]) == (Done, State())
        invariant forall o :: o in objects.Values ==> o in old(objects.Values) || fresh(o)
        decreases Quanta(tm, q)
      {
        ghost var before := Quanta(tm, q);
        QuantaStep(tm, q);
        tm, tk, k := tm - q, tk + 1.0, k + 1;
        assert k + Quanta(tm, q) == n && Quanta(tm, q) < before;
        assert Leftover(tm, q) == Leftover(t0, q) && tk == k0 + k as real;
        r, c := Tick(w, evs, c0, k0, k, n, c, tk);
        if r.Failed? {
          return;
        }
      }
    }

    /** Tick k of the loop, at tick count `tk`: the events due by then,
        from the cursor left by the previous ticks on. */
    method Tick(ghost w: World, evs: seq<LogEvent>, c0: nat, k0: real, ghost k: nat, ghost n: nat, c: nat, tk: real) returns (r: Outcome, c': nat)
      requires Valid() && DurationsOk(evs) && c0 <= |evs| && 0 < k <= n && tk == k0 + k as real
      requires c == CursorAfter(evs, c0, k0, k - 1) && ExecuteAll(w, evs[c0..c]) == (Done, State())
      modifies this`objects, this`variables, this`movements, queues.Values`members, resources.Values`currentState
      ensures r.Done? ==> c' == CursorAfter(evs, c0, k0, k)
      ensures Valid() && c' <= |evs|
      ensures r.Done? ==> ExecuteAll(w, evs[c0..c']) == (Done, State())
      ensures r.Failed? ==> ExecuteAll(w, evs[c0..CursorAfter(evs, c0, k0, n)]) == (r, State())
      ensures forall o :: o in objects.Values ==> o in old(objects.Values) || fresh(o)
    {
      ghost var st := State();
      CursorAfterNext(evs, c0, k0, k);
      ghost var e := CursorAfter(evs, c0, k0, k);
      assert FirstLater(evs, c, tk) == e;
      r, c' := RunWindow(evs, c, tk);
      assert (r, State()) == ExecuteAll(st, evs[c..e]);
      TickWindow(w, evs, c0, k0, k, n, st, r, State());
    }

    /** The movement pass of render with step `dt`: every job is advanced
        and its object moved; finished jobs are dropped; a job whose object
        is gone throws, and the jobs after it stay as they were. */
    method StepMovements(dt: real) returns (r: Outcome)
      requires Valid() && dt > 0.0
      modifies objects.Values`position, this`movements
      ensures Valid()
      ensures (r, ObjectStates(), movements) == StepJobs(old(ObjectStates()), old(movements), dt)
      ensures QueueMembers() == old(QueueMembers()) && CurrentStates() == old(CurrentStates())
    {
      r, movements := MoveAll(movements, dt);
      RegisteredUnchanged();
      QueueMembersUnchanged();
      CurrentStatesUnchanged();
    }

    /** The loop of the movement pass over a given job list; `rest` is the
        list the iterator leaves behind. */
    method MoveAll(jobs: seq<MoveQuery>, dt: real) returns (r: Outcome, rest: seq<MoveQuery>)
      requires Valid() && JobsOk(jobs) && dt > 0.0
      modifies objects.Values`position
      ensures Valid() && JobsOk(rest)
      ensures (r, ObjectStates(), rest) == StepJobs(old(ObjectStates()), jobs, dt)
      ensures QueueMembers() == old(QueueMembers()) && CurrentStates() == old(CurrentStates())
    {
      ghost var os, qs, cs := ObjectStates(), QueueMembers(), CurrentStates();
      rest := [];
      var i := 0;
      while i < |jobs|
        invariant 0 <= i <= |jobs| && Valid()
        invariant StepJobs(os, jobs[..i], dt) == (Done, ObjectStates(), rest)
        invariant QueueMembers() == qs && CurrentStates() == cs
      {
        StepJobsNext(os, jobs, dt, i);
        var job := Advance(jobs[i], dt);
        if job.objectId !in objects {
          r := Failed(Runtime("Object " + job.objectId + " not found"));
        } else {
          var moved := MoveObject(objects[job.objectId], job);
          match moved
          case Err(e) =>
            r := Failed(e);
          case Ok(finished) =>
            if !finished {
              rest := rest + [job];
            }
            i := i + 1;
            continue;
        }
        StepJobsKeepsFailure(os, jobs, dt, i + 1);
        rest := rest + [job] + jobs[i + 1..];
        return;
      }
      assert jobs[..i] == jobs;
      r := Done;
    }

    /** render: the timer grows by the frame time while playing, the tick
        loop runs, and while playing the movements are stepped by
        `delta * ticksPerSecond`. Drawing is not modelled. */
    method Render(delta: real) returns (r: Outcome)
      requires Valid() && ticksPerSecond > 0.0 && delta >= 0.0 && (playing ==> delta > 0.0)
      requires currentEvent <= |log.events| && DurationsOk(log.events)
      modifies this`objects, this`variables, this`movements, this`currentEvent, this`ticks, this`timer
      modifies objects.Values`position, queues.Values`members, resources.Values`currentState
      ensures Valid() && currentEvent <= |log.events|
      ensures var f := Frame(old(State()), log.events, old(currentEvent), old(ticks), old(timer), playing, delta, ticksPerSecond);
        r == f.outcome && State() == f.world && (f.clock.Some? ==> (currentEvent, ticks, timer) == f.clock.value)
    {
      if playing {
        r := RenderPlaying(delta);
      } else {
        r := RenderPaused(delta);
      }
    }

    /** A paused frame: the tick loop on the timer as it is. */
    method RenderPaused(delta: real) returns (r: Outcome)
      requires Valid() && ticksPerSecond > 0.0 && delta >= 0.0 && !playing
      requires currentEvent <= |log.events| && DurationsOk(log.events)
      modifies this`objects, this`variables, this`movements, this`currentEvent, this`ticks, this`timer
      modifies queues.Values`members, resources.Values`currentState
      ensures Valid() && currentEvent <= |log.events|
      ensures var f := Frame(old(State()), log.events, old(currentEvent), old(ticks), old(timer), false, delta, ticksPerSecond);
        r == f.outcome && State() == f.world && (f.clock.Some? ==> (currentEvent, ticks, timer) == f.clock.value)
    {
      FrameWhenStopped(State(), log.events, currentEvent, ticks, timer, false, delta, ticksPerSecond);
      r := RunTicks(1.0 / ticksPerSecond, 0.0);
    }

    /** A playing frame: the tick loop on the timer grown by `delta`, then,
        if it got through, the movement pass. */
    method RenderPlaying(delta: real) returns (r: Outcome)
      requires Valid() && ticksPerSecond > 0.0 && delta > 0.0 && playing
      requires currentEvent <= |log.events| && DurationsOk(log.events)
      modifies this`objects, this`variables, this`movements, this`currentEvent, this`ticks, this`timer
      modifies objects.Values`position, queues.Values`members, resources.Values`currentState
      ensures Valid() && currentEvent <= |log.events|
      ensures var f := Frame(old(State()), log.events, old(currentEvent), old(ticks), old(timer), true, delta, ticksPerSecond);
        r == f.outcome && State() == f.world && (f.clock.Some? ==> (currentEvent, ticks, timer) == f.clock.value)
    {
      var tps := ticksPerSecond;
      ghost var w0, evs, c0, k0, t0 := State(), log.events, currentEvent, ticks, timer;
      ghost var ft := Ticks(w0, evs, c0, k0, t0 + delta, 1.0 / tps);
      r := RunTicks(1.0 / tps, delta);
      assert r == ft.outcome && State() == ft.world;
      assert log.events == evs && ticksPerSecond == tps && playing;
      ghost var clock := Clock();
      assert ft.clock.Some? ==> clock == ft.clock.value;
      r := PlayMovements(r, w0, evs, c0, k0, t0, delta, tps);
      assert Clock() == clock;
    }

    /** The end of a playing frame whose tick loop ended in `r0`: the
        movement pass if it got through, nothing if it threw. */
    method PlayMovements(r0: Outcome, ghost w0: World, ghost evs: seq<LogEvent>, ghost c0: nat, ghost k0: real, ghost t0: real, delta: real, tps: real)
      returns (r: Outcome)
      requires Valid() && c0 <= |evs| && DurationsOk(evs) && JobsOk(w0.movements) && tps > 0.0 && delta > 0.0
      requires var ft := Ticks(w0, evs, c0, k0, t0 + delta, 1.0 / tps);
        ft.outcome == r0 && ft.world == State()
      modifies objects.Values`position, this`movements
      ensures Valid()
      ensures var f := Frame(w0, evs, c0, k0, t0, true, delta, tps);
        r == f.outcome && State() == f.world && f.clock == Ticks(w0, evs, c0, k0, t0 + delta, 1.0 / tps).clock
    {
      if r0.Failed? {
        FrameWhenStopped(w0, evs, c0, k0, t0, true, delta, tps);
        return r0;
      }
      ghost var w := State();
      MulPositive(delta, tps);
      var dt := delta * tps;
      ghost var m := StepJobs(ObjectStates(), movements, dt);
      FrameWhenPlaying(w0, evs, c0, k0, t0, delta, tps);
      r := StepMovements(dt);
      assert (r, ObjectStates(), movements) == m;
      assert State() == w.(objects := m.1, movements := m.2);
    }

    /** applyMovement on the object a job names: only that object's position
        changes. */
    method MoveObject(o: SimObject, job: MoveQuery) returns (r: Result<bool>)
      requires Valid() && job.objectId in objects && objects[job.objectId] == o && Steppable(job)
      modifies o`position
      ensures Valid()
      ensures MovementStep(job).Ok? ==>
        r == Ok(MovementStep(job).value.1) &&
        ObjectStates() == old(ObjectStates())[job.objectId := old(ObjectStates())[job.objectId].(position := MovementStep(job).value.0)]
      ensures MovementStep(job).Err? ==> r == Err(MovementStep(job).error) && ObjectStates() == old(ObjectStates())
      ensures QueueMembers() == old(QueueMembers()) && CurrentStates() == old(CurrentStates())
    {
      ghost var before := ObjectStates();
      r := o.ApplyMovement(job);
      QueueMembersUnchanged();
      CurrentStatesUnchanged();
      RegisteredUnchanged();
      assert forall k :: k in objects && k != job.objectId ==> objects[k] != o;
      if r.Ok? {
        assert ObjectStates() == before[job.objectId := before[job.objectId].(position := o.position)];
      } else {
        assert MovementStep(job).Err?;
        assert ObjectStates() == before;
      }
    }

    /** The settings no event touches. */
    function Setting(): (set<string>, map<string, string>, map<string, Position>, AnimationLog, real, bool)
      reads this
    {
      (images, objectTypes, stations, log, ticksPerSecond, playing)
    }

    /** The clock and cursor of render. */
    function Clock(): (nat, real, real)
      reads this
    {
      (currentEvent, ticks, timer)
    }
  }
}
