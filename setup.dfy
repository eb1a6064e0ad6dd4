// setup/ResourceStates.kt and the shapes of setup/KSLAnimation.kt.
//
// A resource's states are mutable `ResourceState` objects kept in a list;
// `defaultState` is a reference to one of them, fixed at construction, so an
// edit of that object in place is seen through `defaultState` too. The list
// is owned by its ResourceStates and holds each object once.

module Setup {
  import opened Common

  /** ResourceState(name, image, default), a data class with mutable fields. */
  class ResourceState {
    var name: string
    var image: string
    var isDefault: bool

    constructor (name: string, image: string, isDefault: bool)
      ensures this.name == name && this.image == image && this.isDefault == isDefault
    {
      this.name := name;
      this.image := image;
      this.isDefault := isDefault;
    }
  }

  /** The field values of one state at one moment. */
  datatype StateValue = StateValue(name: string, image: string, isDefault: bool)

  function Values(rs: seq<ResourceState>): (vs: seq<StateValue>)
    reads rs
    ensures |vs| == |rs|
    ensures forall k :: 0 <= k < |rs| ==> vs[k] == StateValue(rs[k].name, rs[k].image, rs[k].isDefault)
  {
    if |rs| == 0 then [] else [StateValue(rs[0].name, rs[0].image, rs[0].isDefault)] + Values(rs[1..])
  }

  // ------------------------------------------------ specification on values

  /** `states.find { it.name == name }`, as an index. */
  function FirstNamed(s: seq<StateValue>, name: string): (r: Option<nat>)
    ensures r.Some? ==> r.value < |s| && s[r.value].name == name
    ensures r.Some? ==> forall k :: 0 <= k < r.value ==> s[k].name != name
    ensures r.None? ==> forall k :: 0 <= k < |s| ==> s[k].name != name
  {
    if |s| == 0 then None
    else if s[0].name == name then Some(0)
    else match FirstNamed(s[1..], name)
      case None => None
      case Some(i) => Some(i + 1)
  }

  /** `states.find { it.default }`, as an index. */
  function FirstDefault(s: seq<StateValue>): (r: Option<nat>)
    ensures r.Some? ==> r.value < |s| && s[r.value].isDefault
    ensures r.Some? ==> forall k :: 0 <= k < r.value ==> !s[k].isDefault
    ensures r.None? ==> forall k :: 0 <= k < |s| ==> !s[k].isDefault
  {
    if |s| == 0 then None
    else if s[0].isDefault then Some(0)
    else match FirstDefault(s[1..])
      case None => None
      case Some(i) => Some(i + 1)
  }

  function ClearDefaults(s: seq<StateValue>): (r: seq<StateValue>)
    ensures |r| == |s|
    ensures forall k :: 0 <= k < |s| ==> r[k] == s[k].(isDefault := false)
  {
    seq(|s|, k requires 0 <= k < |s| => s[k].(isDefault := false))
  }

  /** setDefaultState: every flag cleared, then the first state with `name`
      flagged; "No state found" (after the clearing) when there is none. */
  function WithDefault(s: seq<StateValue>, name: string): (r: Result<seq<StateValue>>)
    ensures r.Err? <==> FirstNamed(s, name).None?
    ensures r.Ok? ==> |r.value| == |s|
    ensures r.Ok? ==> forall k :: 0 <= k < |s| ==> r.value[k] == s[k].(isDefault := k == FirstNamed(s, name).value)
  {
    var cleared := ClearDefaults(s);
    FirstNamedSameNames(cleared, s, name);
    match FirstNamed(cleared, name)
    case None => Err(Runtime("No state found"))
    case Some(i) => Ok(cleared[i := cleared[i].(isDefault := true)])
  }

  /** updateState: the first state named `oldName` takes all of `newState`'s
      fields; a default `newState` then becomes the only default. */
  function Updated(s: seq<StateValue>, oldName: string, newState: StateValue): (r: Result<seq<StateValue>>)
    ensures r.Err? <==> FirstNamed(s, oldName).None?
    ensures r.Ok? ==> |r.value| == |s|
  {
    match FirstNamed(s, oldName)
    case None => Err(Runtime("No state found"))
    case Some(i) =>
      var s1 := s[i := newState];
      if newState.isDefault then
        FirstNamedFinds(s1, newState.name, i);
        WithDefault(s1, newState.name)
      else Ok(s1)
  }

  /** getImage: the image of the named state, or of the default state when no
      state has that name; the texture must exist. */
  function ImageFor(s: seq<StateValue>, defaultImage: string, name: string, images: set<string>): (r: Result<string>)
    ensures r.Ok? ==> r.value in images
    ensures r.Ok? && FirstNamed(s, name).Some? ==> r.value == s[FirstNamed(s, name).value].image
    ensures r.Ok? && FirstNamed(s, name).None? ==> r.value == defaultImage
    ensures r.Err? <==> (if FirstNamed(s, name).Some? then s[FirstNamed(s, name).value].image else defaultImage) !in images
  {
    var imageName := match FirstNamed(s, name) case Some(i) => s[i].image case None => defaultImage;
    if imageName in images then Ok(imageName)
    else Err(Runtime("Texture \"" + imageName + "\" not found in assets!"))
  }

  /** After setDefaultState succeeds exactly one state is the default: the
      first one carrying the requested name. */
  lemma WithDefaultIsUnique(s: seq<StateValue>, name: string)
    requires WithDefault(s, name).Ok?
    ensures FirstDefault(WithDefault(s, name).value) == FirstNamed(s, name)
  {
    FirstDefaultAt(WithDefault(s, name).value, FirstNamed(s, name).value);
  }

  lemma {:induction false} FirstNamedFinds(s: seq<StateValue>, name: string, i: nat)
    requires i < |s| && s[i].name == name
    ensures FirstNamed(s, name).Some? && FirstNamed(s, name).value <= i
  {
    if i > 0 && s[0].name != name {
      FirstNamedFinds(s[1..], name, i - 1);
    }
  }

  lemma RemoveAtKeepsDistinct<T>(s: seq<T>, i: nat)
    requires NoDuplicates(s) && i < |s|
    ensures NoDuplicates(s[..i] + s[i + 1..])
  {
    var t := s[..i] + s[i + 1..];
    forall a, b | 0 <= a < b < |t| ensures t[a] != t[b] {
      var a' := if a < i then a else a + 1;
      var b' := if b < i then b else b + 1;
      assert t[a] == s[a'] && t[b] == s[b'];
    }
  }

  lemma {:induction false} FirstNamedSameNames(a: seq<StateValue>, b: seq<StateValue>, name: string)
    requires |a| == |b| && forall k :: 0 <= k < |a| ==> a[k].name == b[k].name
    ensures FirstNamed(a, name) == FirstNamed(b, name)
  {
    if |a| > 0 {
      FirstNamedSameNames(a[1..], b[1..], name);
    }
  }

  lemma {:induction false} FirstDefaultAt(s: seq<StateValue>, i: nat)
    requires i < |s| && s[i].isDefault && forall k :: 0 <= k < |s| && k != i ==> !s[k].isDefault
    ensures FirstDefault(s) == Some(i)
  {
    if i > 0 {
      FirstDefaultAt(s[1..], i - 1);
    }
  }

  /** updateState keeps every other state's name and image, and the updated
      state carries the new name and image. */
  lemma UpdatedTouchesOnlyTarget(s: seq<StateValue>, oldName: string, newState: StateValue)
    requires Updated(s, oldName, newState).Ok?
    ensures var i := FirstNamed(s, oldName).value; var r := Updated(s, oldName, newState).value;
      r[i].name == newState.name && r[i].image == newState.image
      && forall k :: 0 <= k < |s| && k != i ==> r[k].name == s[k].name && r[k].image == s[k].image
  {
    var i := FirstNamed(s, oldName).value;
    var s1 := s[i := newState];
    UpdatedUnfolds(s, oldName, newState);
    if newState.isDefault {
      WithDefaultKeepsNames(s1, newState.name);
    }
  }

  lemma UpdatedUnfolds(s: seq<StateValue>, oldName: string, newState: StateValue)
    requires FirstNamed(s, oldName).Some?
    ensures var s1 := s[FirstNamed(s, oldName).value := newState];
      Updated(s, oldName, newState) == if newState.isDefault then WithDefault(s1, newState.name) else Ok(s1)
  {
  }

  /** setDefaultState changes only flags. */
  lemma WithDefaultKeepsNames(s: seq<StateValue>, name: string)
    requires WithDefault(s, name).Ok?
    ensures var r := WithDefault(s, name).value;
      forall k :: 0 <= k < |s| ==> r[k].name == s[k].name && r[k].image == s[k].image
  {
  }

  /** addState leaves the lookup of every existing name unchanged. */
  lemma {:induction false} AddedKeepsLookups(s: seq<StateValue>, added: string, name: string)
    requires FirstNamed(s, name).Some?
    ensures FirstNamed(s + [StateValue(added, "default_resource", false)], name) == FirstNamed(s, name)
  {
    var t := s + [StateValue(added, "default_resource", false)];
    if s[0].name != name {
      assert t[1..] == s[1..] + [StateValue(added, "default_resource", false)];
      AddedKeepsLookups(s[1..], added, name);
    }
  }

  // ----------------------------------------------------------- the class

  /** ResourceStates(states): a resource's list of states and its default. */
  class ResourceStates {
    var states: seq<ResourceState>
    const defaultState: ResourceState

    ghost predicate Valid()
      reads this
    {
      NoDuplicates(states)
    }

    function Snapshot(): seq<StateValue>
      reads this, states
    {
      Values(states)
    }

    constructor Init(states: seq<ResourceState>, defaultState: ResourceState)
      requires NoDuplicates(states)
      ensures Valid() && this.states == states && this.defaultState == defaultState
    {
      this.states := states;
      this.defaultState := defaultState;
    }

    /** The init block: construction fails with "No default state found"
        unless some state is a default; `defaultState` is the first one. */
    static method Create(states: seq<ResourceState>) returns (r: Result<ResourceStates>)
      requires NoDuplicates(states)
      ensures r.Err? <==> FirstDefault(Values(states)).None?
      ensures r.Err? ==> r.error == Runtime("No default state found")
      ensures r.Ok? ==> fresh(r.value) && r.value.Valid() && r.value.states == states
      ensures r.Ok? ==> r.value.defaultState == states[FirstDefault(Values(states)).value]
    {
      var i := 0;
      while i < |states| && !states[i].isDefault
        invariant 0 <= i <= |states|
        invariant forall k :: 0 <= k < i ==> !states[k].isDefault
      {
        i := i + 1;
      }
      if i == |states| {
        return Err(Runtime("No default state found"));
      }
      FirstDefaultAtLeast(Values(states), i);
      var rs := new ResourceStates.Init(states, states[i]);
      return Ok(rs);
    }

    static lemma FirstDefaultAtLeast(s: seq<StateValue>, i: nat)
      requires i < |s| && s[i].isDefault && forall k :: 0 <= k < i ==> !s[k].isDefault
      ensures FirstDefault(s) == Some(i)
    {
    }

    /** The position `states.find { it.name == name }` stops at. */
    method FindState(name: string) returns (r: Option<nat>)
      ensures r == FirstNamed(Snapshot(), name)
    {
      var i := 0;
      while i < |states| && states[i].name != name
        invariant 0 <= i <= |states|
        invariant forall k :: 0 <= k < i ==> states[k].name != name
      {
        i := i + 1;
      }
      if i == |states| {
        return None;
      }
      FirstNamedAt(Snapshot(), name, i);
      return Some(i);
    }

    static lemma FirstNamedAt(s: seq<StateValue>, name: string, i: nat)
      requires i < |s| && s[i].name == name && forall k :: 0 <= k < i ==> s[k].name != name
      ensures FirstNamed(s, name) == Some(i)
    {
    }

    /** getState: the first state with that name, or "No state found". */
    method GetState(name: string) returns (r: Result<ResourceState>)
      ensures r.Err? <==> FirstNamed(Snapshot(), name).None?
      ensures r.Ok? ==> r.value == states[FirstNamed(Snapshot(), name).value]
    {
      var i := FindState(name);
      if i.None? {
        return Err(Runtime("No state found"));
      }
      return Ok(states[i.value]);
    }

    /** addState: appends a non-default state showing "default_resource". */
    method AddState(name: string)
      requires Valid()
      modifies this
      ensures Valid()
      ensures |states| == |old(states)| + 1 && states[..|old(states)|] == old(states)
      ensures fresh(states[|old(states)|])
      ensures Snapshot() == old(Snapshot()) + [StateValue(name, "default_resource", false)]
    {
      var added := new ResourceState(name, "default_resource", false);
      states := states + [added];
      assert forall k :: 0 <= k < |old(states)| ==> states[k] == old(states)[k];
    }

    /** One state's fields overwritten in place; the other objects are
        distinct from it, so their fields stay as they were. */
    method Overwrite(i: nat, v: StateValue)
      requires Valid() && i < |states|
      modifies states[i]
      ensures Snapshot() == old(Snapshot())[i := v]
    {
      var state := states[i];
      state.name := v.name;
      state.image := v.image;
      state.isDefault := v.isDefault;
      assert forall k :: 0 <= k < |states| && k != i ==> states[k] != state;
    }

    /** updateState: the first state named `oldName` is overwritten in place
        with `newState`'s name, image and flag. */
    method UpdateState(oldName: string, newState: StateValue) returns (r: Outcome)
      requires Valid()
      modifies states
      ensures r.Failed? <==> Updated(old(Snapshot()), oldName, newState).Err?
      ensures r.Done? ==> Snapshot() == Updated(old(Snapshot()), oldName, newState).value
      ensures r.Failed? ==> Snapshot() == old(Snapshot())
    {
      var i := FindState(oldName);
      if i.None? {
        return Failed(Runtime("No state found"));
      }
      Overwrite(i.value, newState);
      if newState.isDefault {
        FirstNamedFinds(Snapshot(), newState.name, i.value);
        r := SetDefaultState(newState.name);
      } else {
        r := Done;
      }
    }

    /** removeState: the first state with that name is taken out of the list
        (data-class equality makes `remove` drop the first equal element,
        which is the one found); `defaultState` still refers to it if it was
        the default. */
    method RemoveState(name: string) returns (r: Outcome)
      requires Valid()
      modifies this
      ensures Valid()
      ensures r.Failed? <==> FirstNamed(old(Snapshot()), name).None?
      ensures r.Failed? ==> states == old(states)
      ensures r.Done? ==> var i := FirstNamed(old(Snapshot()), name).value;
        states == old(states)[..i] + old(states)[i + 1..]
    {
      var i := FindState(name);
      if i.None? {
        return Failed(Runtime("No state found"));
      }
      RemoveAtKeepsDistinct(states, i.value);
      states := states[..i.value] + states[i.value + 1..];
      return Done;
    }

    /** The first loop of setDefaultState: every flag cleared. */
    method ClearDefaultFlags()
      requires Valid()
      modifies states
      ensures Snapshot() == ClearDefaults(old(Snapshot()))
    {
      var i := 0;
      while i < |states|
        invariant 0 <= i <= |states|
        invariant forall k :: 0 <= k < |states| ==> states[k].name == old(states[k].name) && states[k].image == old(states[k].image)
        invariant forall k :: 0 <= k < i ==> !states[k].isDefault
        invariant forall k :: i <= k < |states| ==> states[k].isDefault == old(states[k].isDefault)
      {
        assert forall k :: 0 <= k < |states| && k != i ==> states[k] != states[i];
        states[i].isDefault := false;
        i := i + 1;
      }
    }

    /** setDefaultState: every flag is cleared, then the first state with
        that name is flagged. */
    method SetDefaultState(name: string) returns (r: Outcome)
      requires Valid()
      modifies states
      ensures r.Failed? <==> WithDefault(old(Snapshot()), name).Err?
      ensures r.Done? ==> Snapshot() == WithDefault(old(Snapshot()), name).value
      ensures r.Failed? ==> Snapshot() == ClearDefaults(old(Snapshot()))
    {
      ClearDefaultFlags();
      var i := FindState(name);
      if i.None? {
        return Failed(Runtime("No state found"));
      }
      var v := states[i.value];
      Overwrite(i.value, StateValue(v.name, v.image, true));
      return Done;
    }

    /** getImage: resolves the image name a state is drawn with, falling back
        to the default state's current image for an unknown name. */
    method GetImage(name: string, images: set<string>) returns (r: Result<string>)
      ensures r == ImageFor(Snapshot(), defaultState.image, name, images)
    {
      var found := GetState(name);
      var imageName := if found.Ok? then found.value.image else defaultState.image;
      if imageName in images {
        r := Ok(imageName);
      } else {
        r := Err(Runtime("Texture \"" + imageName + "\" not found in assets!"));
      }
    }
  }

  // ------------------------------------------- setup/KSLAnimation.kt shapes

  /** KSLAnimationObject: one entry of an animation setup file. */
  datatype SetupObject =
    | ImageEntry(id: string, data: string)
    | QueueEntry(id: string, startPosition: Position, endPosition: Position, scale: real)
    | ResourceEntry(id: string, states: seq<ResourceState>, position: Position, width: real, height: real)
    | ObjectTypeEntry(id: string, image: string)
    | ObjectEntry(id: string, objectType: string, position: Position, width: real, height: real)
    | StationEntry(id: string, position: Position)
    | VariableEntry(id: string, position: Position, width: real, height: real,
                    maxTextScale: real, defaultValue: string, precision: int, textColor: string)

  // --------------------------------------------- loadAnimationSetup's fill

  /** The registry one kind of setup entry fills, by `registry[it.id] = ...`
      in list order: `pick` says whether an entry is of the kind and what is
      stored for it, and a later entry with the same id overwrites. */
  function Collect<T, V>(s: seq<T>, pick: T -> Option<(string, V)>): (m: map<string, V>)
  {
    if |s| == 0 then map[]
    else
      var m := Collect(s[..|s| - 1], pick);
      var p := pick(s[|s| - 1]);
      if p.Some? then m[p.value.0 := p.value.1] else m
  }

  /** Writing one key after a union is writing it into the right operand. */
  lemma UnionUpdate<V>(a: map<string, V>, b: map<string, V>, k: string, v: V)
    ensures (a + b)[k := v] == a + b[k := v]
  {
  }

  /** One more entry: the fill of a prefix grows by that entry alone. */
  lemma CollectStep<T, V>(s: seq<T>, pick: T -> Option<(string, V)>, i: nat)
    requires i < |s|
    ensures Collect(s[..i + 1], pick) ==
      if pick(s[i]).Some? then Collect(s[..i], pick)[pick(s[i]).value.0 := pick(s[i]).value.1]
      else Collect(s[..i], pick)
  {
    assert s[..i + 1][..i] == s[..i];
  }

  /** Only entries of the kind are registered. */
  lemma {:induction false} CollectOnlyPicked<T, V>(s: seq<T>, pick: T -> Option<(string, V)>, k: string)
    requires k in Collect(s, pick)
    ensures exists i :: 0 <= i < |s| && pick(s[i]).Some? && pick(s[i]).value.0 == k
    decreases |s|
  {
    var t := s[..|s| - 1];
    var p := pick(s[|s| - 1]);
    if !(p.Some? && p.value.0 == k) {
      CollectOnlyPicked(t, pick, k);
      var i :| 0 <= i < |t| && pick(t[i]).Some? && pick(t[i]).value.0 == k;
      assert s[i] == t[i];
    }
  }

  /** Every entry of the kind is registered under its id. */
  lemma {:induction false} CollectHasEvery<V>(s: seq<SetupObject>, pick: SetupObject -> Option<(string, V)>, i: nat)
    requires i < |s| && pick(s[i]).Some?
    ensures pick(s[i]).value.0 in Collect(s, pick)
    decreases |s|
  {
    if i < |s| - 1 {
      CollectHasEvery(s[..|s| - 1], pick, i);
    }
  }

  /** The last entry with an id wins: the registry holds what it stores. */
  lemma {:induction false} CollectLastWins<V>(s: seq<SetupObject>, pick: SetupObject -> Option<(string, V)>, i: nat)
    requires i < |s| && pick(s[i]).Some?
    requires forall j :: i < j < |s| && pick(s[j]).Some? ==> pick(s[j]).value.0 != pick(s[i]).value.0
    ensures pick(s[i]).value.0 in Collect(s, pick)
    ensures Collect(s, pick)[pick(s[i]).value.0] == pick(s[i]).value.1
    decreases |s|
  {
    if i < |s| - 1 {
      var t := s[..|s| - 1];
      assert forall j :: i < j < |t| ==> t[j] == s[j];
      CollectLastWins(t, pick, i);
    }
  }

  /** What each loop of loadAnimationSetup stores. */
  function ImagePick(decodes: string -> bool): SetupObject -> Option<(string, string)>
  {
    (e: SetupObject) => if e.ImageEntry? && decodes(e.data) then Some((e.id, e.data)) else None
  }

  function TypePick(e: SetupObject): Option<(string, string)>
  {
    if e.ObjectTypeEntry? then Some((e.id, e.image)) else None
  }

  function StationPick(e: SetupObject): Option<(string, Position)>
  {
    if e.StationEntry? then Some((e.id, e.position)) else None
  }

  /** A queue is registered with its endpoints and scale. */
  function QueuePick(e: SetupObject): Option<(string, (Position, Position, real))>
  {
    if e.QueueEntry? then Some((e.id, (e.startPosition, e.endPosition, e.scale))) else None
  }

  /** A resource is registered in state "idle". */
  function ResourcePick(e: SetupObject): Option<(string, string)>
  {
    if e.ResourceEntry? then Some((e.id, "idle")) else None
  }

  function StatesOf(e: SetupObject): seq<ResourceState>
  {
    if e.ResourceEntry? then e.states else []
  }

  /** The KSLResource a resource entry builds can be constructed. */
  ghost predicate HasDefault(e: SetupObject)
    reads StatesOf(e)
  {
    FirstDefault(Values(StatesOf(e))).Some?
  }
}
