// The stand-alone command grammar of parser.kt: a token cursor over the
// words of one line, the `fromString` readers of every command, the
// `toString` templates, and the `main` that checks a parse/print round trip
// on eleven sample lines.

module LegacyParser {
  import opened Common
  import opened Text

  // ---------------------------------------------------------------- values

  /** LoggedObject: an entity named by type and id, or a unique object. */
  datatype LoggedObject = Entity(entityType: string, id: string) | Unique(id: string)

  type EntityObject = o: LoggedObject | o.Entity? witness Entity("", "")

  /** LogCommand: Change.Variable, Change.Image and the six entity commands;
      every command carries its `time` (a Long). */
  datatype LogCommand =
    | ChangeVariable(id: string, column: Option<int>, row: Option<int>, value: int, time: int)
    | ChangeImage(obj: LoggedObject, imageId: string, time: int)
    | PushQueueStack(entity: EntityObject, queueStackId: string, time: int)
    | PopQueueStack(entity: EntityObject, queueStackId: string, time: int)
    | AddResource(resource: string, targetId: string, time: int)
    | PickupEntity(entity: EntityObject, transporterId: string, time: int)
    | DropoffEntity(entity: EntityObject, transporterId: string, time: int)
    | Move(movedObject: LoggedObject, location: string, duration: int, time: int)
    | Despawn(entity: EntityObject, time: int)

  /** The leading word of each command's text. */
  function Keyword(c: LogCommand): string
  {
    match c
    case ChangeVariable(_, _, _, _, _) => "Change"
    case ChangeImage(_, _, _) => "Change"
    case PushQueueStack(_, _, _) => "Push"
    case PopQueueStack(_, _, _) => "Pop"
    case AddResource(_, _, _) => "Add"
    case PickupEntity(_, _, _) => "Pickup"
    case DropoffEntity(_, _, _) => "Dropoff"
    case Move(_, _, _, _) => "Move"
    case Despawn(_, _) => "Despawn"
  }

  const Keywords: set<string> := {"Change", "Push", "Pop", "Add", "Pickup", "Dropoff", "Move", "Despawn"}

  /** The IllegalArgumentException of an unknown leading word. */
  const UnknownCommand: Error := IllegalArgument("Invalid command type")

  /** `error("Expected $checkVal got $n")`. */
  function Mismatch(expected: string, got: string): Error
  {
    Runtime("Expected " + expected + " got " + got)
  }

  // ------------------------------------------------------- the token reads

  /** What a read produced, and where the cursor stands afterwards (also
      after an exception, since `tokens[index++]` advances before it
      throws). */
  datatype Parsed<T> = Parsed(result: Result<T>, index: nat)
  {
    predicate IsFailure() { result.Err? }
    function PropagateFailure<U>(): Parsed<U> requires result.Err? { Parsed(Err(result.error), index) }
    function Extract(): (T, nat) requires result.Ok? { (result.value, index) }
  }

  /** `next()`: the current token, and the index one further on. */
  function NextAt(ts: seq<string>, i: nat): Parsed<string>
  {
    Parsed(if i < |ts| then Ok(ts[i]) else Err(IndexOutOfBounds), i + 1)
  }

  /** `peek(offset)`: the token `offset` places ahead; the index stays. */
  function PeekAt(ts: seq<string>, i: nat, offset: nat): Parsed<string>
  {
    Parsed(if i + offset < |ts| then Ok(ts[i + offset]) else Err(IndexOutOfBounds), i)
  }

  /** `assertNext(v)`. */
  function ExpectAt(ts: seq<string>, i: nat, v: string): Parsed<()>
  {
    var n :- NextAt(ts, i);
    Parsed(if n.0 == v then Ok(()) else Err(Mismatch(v, n.0)), n.1)
  }

  /** `checkNext(v)`: consumes the token only when it is `v`. */
  function CheckNextAt(ts: seq<string>, i: nat, v: string): Parsed<bool>
  {
    var n :- PeekAt(ts, i, 0);
    if n.0 == v then Parsed(Ok(true), i + 1) else Parsed(Ok(false), i)
  }

  /** `assertPeek(v, offset)`. */
  function ExpectPeekAt(ts: seq<string>, i: nat, v: string, offset: nat): Parsed<()>
  {
    var n :- PeekAt(ts, i, offset);
    Parsed(if n.0 == v then Ok(()) else Err(Mismatch(v, n.0)), i)
  }

  /** `checkPeek(v, offset)`. */
  function CheckPeekAt(ts: seq<string>, i: nat, v: string, offset: nat): Parsed<bool>
  {
    var n :- PeekAt(ts, i, offset);
    Parsed(Ok(n.0 == v), i)
  }

  // ----------------------------------------------------- the object reads

  /** `Entity.fromString`: the word "Entity", then the type and the id. */
  function EntityAt(ts: seq<string>, i: nat): (p: Parsed<EntityObject>)
    ensures p.result.Ok? <==> i + 3 <= |ts| && ts[i] == "Entity"
    ensures p.result.Ok? ==> i + 3 <= |ts| && p.index == i + 3 && p.result.value == Entity(ts[i + 1], ts[i + 2])
  {
    var a :- ExpectAt(ts, i, "Entity");
    var ty :- NextAt(ts, a.1);
    var id :- NextAt(ts, ty.1);
    var e: EntityObject := Entity(ty.0, id.0);
    Parsed(Ok(e), id.1)
  }

  /** `Unique.fromString`: one token. */
  function UniqueAt(ts: seq<string>, i: nat): Parsed<LoggedObject>
  {
    var id :- NextAt(ts, i);
    Parsed(Ok(Unique(id.0)), id.1)
  }

  /** `LoggedObject.fromString`: an entity when the next word is "Entity"
      (three tokens), a unique object otherwise (one token). */
  function ObjectAt(ts: seq<string>, i: nat): (p: Parsed<LoggedObject>)
    ensures p.result.Ok? <==> i < |ts| && (ts[i] == "Entity" ==> i + 3 <= |ts|)
    ensures p.result.Ok? && ts[i] == "Entity" ==>
      i + 3 <= |ts| && p.index == i + 3 && p.result.value == Entity(ts[i + 1], ts[i + 2])
    ensures p.result.Ok? && ts[i] != "Entity" ==> p.index == i + 1 && p.result.value == Unique(ts[i])
  {
    var first :- PeekAt(ts, i, 0);
    if first.0 == "Entity" then
      var e :- EntityAt(ts, i);
      var o: LoggedObject := e.0;
      Parsed(Ok(o), e.1)
    else UniqueAt(ts, i)
  }

  /** `parseTime`: the words "at" and "tick", then a Long. */
  function TimeAt(ts: seq<string>, i: nat): (p: Parsed<int>)
    ensures p.result.Ok? <==>
      i + 3 <= |ts| && ts[i] == "at" && ts[i + 1] == "tick" && ParseLong(ts[i + 2]).Ok?
    ensures p.result.Ok? ==> i + 3 <= |ts| && p.index == i + 3 && Ok(p.result.value) == ParseLong(ts[i + 2])
  {
    var a :- ExpectAt(ts, i, "at");
    var b :- ExpectAt(ts, a.1, "tick");
    var n :- NextAt(ts, b.1);
    var time :- Parsed(ParseLong(n.0), n.1);
    Parsed(Ok(time.0), time.1)
  }

  // ---------------------------------------------------- the command reads

  /** The optional `at <column> <row>` of Change Variable: both Ints or neither. */
  function CellAt(ts: seq<string>, i: nat): (p: Parsed<(Option<int>, Option<int>)>)
    ensures p.result.Ok? ==> (p.result.value.0.Some? <==> p.result.value.1.Some?)
    ensures p.result.Ok? ==> i < |ts| && (p.result.value.0.Some? <==> ts[i] == "at")
  {
    var at :- CheckNextAt(ts, i, "at");
    if at.0 then
      var c :- NextAt(ts, at.1);
      var column :- Parsed(ParseInt(c.0), c.1);
      var r :- NextAt(ts, column.1);
      var row :- Parsed(ParseInt(r.0), r.1);
      Parsed(Ok((Some(column.0), Some(row.0))), row.1)
    else Parsed(Ok((None, None)), at.1)
  }

  /** `Change.Variable.fromString`. */
  function ChangeVariableAt(ts: seq<string>, i: nat): (p: Parsed<LogCommand>)
    ensures p.result.Ok? ==> p.result.value.ChangeVariable?
    ensures p.result.Ok? ==> (p.result.value.column.Some? <==> p.result.value.row.Some?)
  {
    var a :- ExpectAt(ts, i, "Change");
    var b :- ExpectAt(ts, a.1, "Variable");
    var id :- NextAt(ts, b.1);
    var cell :- CellAt(ts, id.1);
    var c :- ExpectAt(ts, cell.1, "to");
    var v :- NextAt(ts, c.1);
    var value :- Parsed(ParseInt(v.0), v.1);
    var time :- TimeAt(ts, value.1);
    Parsed(Ok(ChangeVariable(id.0, cell.0.0, cell.0.1, value.0, time.0)), time.1)
  }

  /** `Change.Image.fromString`. */
  function ChangeImageAt(ts: seq<string>, i: nat): (p: Parsed<LogCommand>)
    ensures p.result.Ok? ==> p.result.value.ChangeImage?
  {
    var a :- ExpectAt(ts, i, "Change");
    var b :- ExpectAt(ts, a.1, "Image");
    var obj :- ObjectAt(ts, b.1);
    var c :- ExpectAt(ts, obj.1, "to");
    var image :- NextAt(ts, c.1);
    var time :- TimeAt(ts, image.1);
    Parsed(Ok(ChangeImage(obj.0, image.0, time.0)), time.1)
  }

  /** `Change.fromString`: the second word chooses Variable or Image. */
  function ChangeAt(ts: seq<string>, i: nat): (p: Parsed<LogCommand>)
    ensures p.result.Ok? ==> i + 1 < |ts| && ts[i] == "Change"
    ensures p.result.Ok? ==> (p.result.value.ChangeVariable? <==> ts[i + 1] == "Variable")
    ensures p.result.Ok? ==> p.result.value.ChangeVariable? || p.result.value.ChangeImage?
  {
    var a :- ExpectPeekAt(ts, i, "Change", 0);
    var variable :- CheckPeekAt(ts, a.1, "Variable", 1);
    if variable.0 then ChangeVariableAt(ts, variable.1) else ChangeImageAt(ts, variable.1)
  }

  /** `PushQueueStack.fromString`. */
  function PushAt(ts: seq<string>, i: nat): (p: Parsed<LogCommand>)
    ensures p.result.Ok? ==> p.result.value.PushQueueStack?
  {
    var a :- ExpectAt(ts, i, "Push");
    var entity :- EntityAt(ts, a.1);
    var b :- ExpectAt(ts, entity.1, "onto");
    var id :- NextAt(ts, b.1);
    var time :- TimeAt(ts, id.1);
    Parsed(Ok(PushQueueStack(entity.0, id.0, time.0)), time.1)
  }

  /** `PopQueueStack.fromString`. */
  function PopAt(ts: seq<string>, i: nat): (p: Parsed<LogCommand>)
    ensures p.result.Ok? ==> p.result.value.PopQueueStack?
  {
    var a :- ExpectAt(ts, i, "Pop");
    var entity :- EntityAt(ts, a.1);
    var b :- ExpectAt(ts, entity.1, "off");
    var c :- ExpectAt(ts, b.1, "of");
    var id :- NextAt(ts, c.1);
    var time :- TimeAt(ts, id.1);
    Parsed(Ok(PopQueueStack(entity.0, id.0, time.0)), time.1)
  }

  /** `AddResource.fromString`. */
  function AddResourceAt(ts: seq<string>, i: nat): (p: Parsed<LogCommand>)
    ensures p.result.Ok? ==> p.result.value.AddResource?
  {
    var a :- ExpectAt(ts, i, "Add");
    var b :- ExpectAt(ts, a.1, "Resource");
    var resource :- NextAt(ts, b.1);
    var c :- ExpectAt(ts, resource.1, "to");
    var target :- NextAt(ts, c.1);
    var time :- TimeAt(ts, target.1);
    Parsed(Ok(AddResource(resource.0, target.0, time.0)), time.1)
  }

  /** `PickupEntity.fromString`. */
  function PickupAt(ts: seq<string>, i: nat): (p: Parsed<LogCommand>)
    ensures p.result.Ok? ==> p.result.value.PickupEntity?
  {
    var a :- ExpectAt(ts, i, "Pickup");
    var entity :- EntityAt(ts, a.1);
    var b :- ExpectAt(ts, entity.1, "onto");
    var id :- NextAt(ts, b.1);
    var time :- TimeAt(ts, id.1);
    Parsed(Ok(PickupEntity(entity.0, id.0, time.0)), time.1)
  }

  /** `DropoffEntity.fromString`. */
  function DropoffAt(ts: seq<string>, i: nat): (p: Parsed<LogCommand>)
    ensures p.result.Ok? ==> p.result.value.DropoffEntity?
  {
    var a :- ExpectAt(ts, i, "Dropoff");
    var entity :- EntityAt(ts, a.1);
    var b :- ExpectAt(ts, entity.1, "from");
    var id :- NextAt(ts, b.1);
    var time :- TimeAt(ts, id.1);
    Parsed(Ok(DropoffEntity(entity.0, id.0, time.0)), time.1)
  }

  /** `Move.fromString`: the duration is a Long. */
  function MoveAt(ts: seq<string>, i: nat): (p: Parsed<LogCommand>)
    ensures p.result.Ok? ==> p.result.value.Move?
  {
    var a :- ExpectAt(ts, i, "Move");
    var obj :- ObjectAt(ts, a.1);
    var b :- ExpectAt(ts, obj.1, "to");
    var location :- NextAt(ts, b.1);
    var c :- ExpectAt(ts, location.1, "in");
    var d :- NextAt(ts, c.1);
    var duration :- Parsed(ParseLong(d.0), d.1);
    var e :- ExpectAt(ts, duration.1, "ticks");
    var time :- TimeAt(ts, e.1);
    Parsed(Ok(Move(obj.0, location.0, duration.0, time.0)), time.1)
  }

  /** `Despawn.fromString`. */
  function DespawnAt(ts: seq<string>, i: nat): (p: Parsed<LogCommand>)
    ensures p.result.Ok? ==> p.result.value.Despawn?
  {
    var a :- ExpectAt(ts, i, "Despawn");
    var entity :- EntityAt(ts, a.1);
    var time :- TimeAt(ts, entity.1);
    Parsed(Ok(Despawn(entity.0, time.0)), time.1)
  }

  /** `LogCommand.fromString` on the words of a line: the first word picks
      the reader; any other word is an IllegalArgumentException. Words
      after a complete command are ignored. */
  function CommandAt(ts: seq<string>): (p: Parsed<LogCommand>)
    ensures |ts| >= 1 && ts[0] !in Keywords ==> p.result == Err(UnknownCommand)
    ensures p.result.Ok? ==> |ts| >= 1 && Keyword(p.result.value) == ts[0]
  {
    var first :- PeekAt(ts, 0, 0);
    var w := first.0;
    if w == "Change" then ChangeAt(ts, 0)
    else if w == "Push" then PushAt(ts, 0)
    else if w == "Pop" then PopAt(ts, 0)
    else if w == "Add" then AddResourceAt(ts, 0)
    else if w == "Pickup" then PickupAt(ts, 0)
    else if w == "Dropoff" then DropoffAt(ts, 0)
    else if w == "Move" then MoveAt(ts, 0)
    else if w == "Despawn" then DespawnAt(ts, 0)
    else Parsed(Err(UnknownCommand), 0)
  }

  /** `LogCommand.fromString(str)`. */
  function FromString(str: string): Result<LogCommand>
  {
    CommandAt(Split(str, ' ')).result
  }

  // ------------------------------------------------------------ the cursor

  /** Tokens: the words of one line and the index of the next one. */
  class Tokens {
    const tokens: seq<string>
    var index: nat

    /** `Tokens(str)`: `str.split(" ")`, read from the first word. */
    constructor (str: string)
      ensures tokens == Split(str, ' ') && index == 0
    {
      tokens := Split(str, ' ');
      index := 0;
    }

    /** `next()`: `tokens[index++]`, which advances even when it throws. */
    method Next() returns (r: Result<string>)
      modifies this`index
      ensures index == old(index) + 1
      ensures Parsed(r, index) == NextAt(tokens, old(index))
    {
      var i := index;
      index := index + 1;
      if i < |tokens| {
        r := Ok(tokens[i]);
      } else {
        r := Err(IndexOutOfBounds);
      }
    }

    /** `peek(offset)`: never moves the index. */
    method Peek(offset: nat) returns (r: Result<string>)
      ensures Parsed(r, index) == PeekAt(tokens, index, offset)
    {
      if index + offset < |tokens| {
        r := Ok(tokens[index + offset]);
      } else {
        r := Err(IndexOutOfBounds);
      }
    }

    method AssertNext(checkVal: string) returns (r: Result<()>)
      modifies this`index
      ensures index == old(index) + 1
      ensures Parsed(r, index) == ExpectAt(tokens, old(index), checkVal)
    {
      var n :- Next();
      if n != checkVal {
        return Err(Mismatch(checkVal, n));
      }
      r := Ok(());
    }

    /** `checkNext(checkVal)`: advances exactly when the next word matches. */
    method CheckNext(checkVal: string) returns (r: Result<bool>)
      modifies this`index
      ensures r.Ok? ==> (r.value <==> index == old(index) + 1) && (!r.value ==> index == old(index))
      ensures Parsed(r, index) == CheckNextAt(tokens, old(index), checkVal)
    {
      var n :- Peek(0);
      if n == checkVal {
        var _ := Next();
        r := Ok(true);
      } else {
        r := Ok(false);
      }
    }

    method AssertPeek(checkVal: string, offset: nat) returns (r: Result<()>)
      ensures Parsed(r, index) == ExpectPeekAt(tokens, index, checkVal, offset)
    {
      var n :- Peek(offset);
      if n != checkVal {
        return Err(Mismatch(checkVal, n));
      }
      r := Ok(());
    }

    method CheckPeek(checkVal: string, offset: nat) returns (r: Result<bool>)
      ensures Parsed(r, index) == CheckPeekAt(tokens, index, checkVal, offset)
    {
      var n :- Peek(offset);
      r := Ok(n == checkVal);
    }
  }

  // --------------------------------------------------------- the companions

  /** `LoggedObject.Entity.fromString`. */
  method EntityFromString(t: Tokens) returns (r: Result<EntityObject>)
    modifies t`index
    ensures Parsed(r, t.index) == EntityAt(t.tokens, old(t.index))
  {
    var _ :- t.AssertNext("Entity");
    var ty :- t.Next();
    var id :- t.Next();
    r := Ok(Entity(ty, id));
  }

  /** `LoggedObject.Unique.fromString`. */
  method UniqueFromString(t: Tokens) returns (r: Result<LoggedObject>)
    modifies t`index
    ensures Parsed(r, t.index) == UniqueAt(t.tokens, old(t.index))
  {
    var id :- t.Next();
    r := Ok(Unique(id));
  }

  /** `LoggedObject.fromString`. */
  method ObjectFromString(t: Tokens) returns (r: Result<LoggedObject>)
    modifies t`index
    ensures Parsed(r, t.index) == ObjectAt(t.tokens, old(t.index))
  {
    var first :- t.Peek(0);
    if first == "Entity" {
      var e :- EntityFromString(t);
      r := Ok(e);
    } else {
      r := UniqueFromString(t);
    }
  }

  /** `parseTime`. */
  method ParseTime(t: Tokens) returns (r: Result<int>)
    modifies t`index
    ensures Parsed(r, t.index) == TimeAt(t.tokens, old(t.index))
  {
    var _ :- t.AssertNext("at");
    var _ :- t.AssertNext("tick");
    var n :- t.Next();
    r := ParseLong(n);
  }

  /** `Change.Variable.fromString`. */
  method ChangeVariableFromString(t: Tokens) returns (r: Result<LogCommand>)
    modifies t`index
    ensures Parsed(r, t.index) == ChangeVariableAt(t.tokens, old(t.index))
  {
    var _ :- t.AssertNext("Change");
    var _ :- t.AssertNext("Variable");
    var id :- t.Next();
    ghost var afterId := t.index;
    var column: Option<int> := None;
    var row: Option<int> := None;
    var at :- t.CheckNext("at");
    if at {
      var c :- t.Next();
      var cv :- ParseInt(c);
      var w :- t.Next();
      var rv :- ParseInt(w);
      column, row := Some(cv), Some(rv);
    }
    assert CellAt(t.tokens, afterId) == Parsed(Ok((column, row)), t.index);
    var _ :- t.AssertNext("to");
    var v :- t.Next();
    var value :- ParseInt(v);
    var time :- ParseTime(t);
    r := Ok(ChangeVariable(id, column, row, value, time));
  }

  /** `Change.Image.fromString`. */
  method ChangeImageFromString(t: Tokens) returns (r: Result<LogCommand>)
    modifies t`index
    ensures Parsed(r, t.index) == ChangeImageAt(t.tokens, old(t.index))
  {
    var _ :- t.AssertNext("Change");
    var _ :- t.AssertNext("Image");
    var obj :- ObjectFromString(t);
    var _ :- t.AssertNext("to");
    var image :- t.Next();
    var time :- ParseTime(t);
    r := Ok(ChangeImage(obj, image, time));
  }

  /** `Change.fromString`. */
  method ChangeFromString(t: Tokens) returns (r: Result<LogCommand>)
    modifies t`index
    ensures Parsed(r, t.index) == ChangeAt(t.tokens, old(t.index))
  {
    var _ :- t.AssertPeek("Change", 0);
    var variable :- t.CheckPeek("Variable", 1);
    if variable {
      r := ChangeVariableFromString(t);
    } else {
      r := ChangeImageFromString(t);
    }
  }

  /** `PushQueueStack.fromString`. */
  method PushFromString(t: Tokens) returns (r: Result<LogCommand>)
    modifies t`index
    ensures Parsed(r, t.index) == PushAt(t.tokens, old(t.index))
  {
    var _ :- t.AssertNext("Push");
    var entity :- EntityFromString(t);
    var _ :- t.AssertNext("onto");
    var id :- t.Next();
    var time :- ParseTime(t);
    r := Ok(PushQueueStack(entity, id, time));
  }

  /** `PopQueueStack.fromString`. */
  method PopFromString(t: Tokens) returns (r: Result<LogCommand>)
    modifies t`index
    ensures Parsed(r, t.index) == PopAt(t.tokens, old(t.index))
  {
    var _ :- t.AssertNext("Pop");
    var entity :- EntityFromString(t);
    var _ :- t.AssertNext("off");
    var _ :- t.AssertNext("of");
    var id :- t.Next();
    var time :- ParseTime(t);
    r := Ok(PopQueueStack(entity, id, time));
  }

  /** `AddResource.fromString`. */
  method AddResourceFromString(t: Tokens) returns (r: Result<LogCommand>)
    modifies t`index
    ensures Parsed(r, t.index) == AddResourceAt(t.tokens, old(t.index))
  {
    var _ :- t.AssertNext("Add");
    var _ :- t.AssertNext("Resource");
    var resource :- t.Next();
    var _ :- t.AssertNext("to");
    var target :- t.Next();
    var time :- ParseTime(t);
    r := Ok(AddResource(resource, target, time));
  }

  /** `PickupEntity.fromString`. */
  method PickupFromString(t: Tokens) returns (r: Result<LogCommand>)
    modifies t`index
    ensures Parsed(r, t.index) == PickupAt(t.tokens, old(t.index))
  {
    var _ :- t.AssertNext("Pickup");
    var entity :- EntityFromString(t);
    var _ :- t.AssertNext("onto");
    var id :- t.Next();
    var time :- ParseTime(t);
    r := Ok(PickupEntity(entity, id, time));
  }

  /** `DropoffEntity.fromString`. */
  method DropoffFromString(t: Tokens) returns (r: Result<LogCommand>)
    modifies t`index
    ensures Parsed(r, t.index) == DropoffAt(t.tokens, old(t.index))
  {
    var _ :- t.AssertNext("Dropoff");
    var entity :- EntityFromString(t);
    var _ :- t.AssertNext("from");
    var id :- t.Next();
    var time :- ParseTime(t);
    r := Ok(DropoffEntity(entity, id, time));
  }

  /** `Move.fromString`. */
  method MoveFromString(t: Tokens) returns (r: Result<LogCommand>)
    modifies t`index
    ensures Parsed(r, t.index) == MoveAt(t.tokens, old(t.index))
  {
    var _ :- t.AssertNext("Move");
    var obj :- ObjectFromString(t);
    var _ :- t.AssertNext("to");
    var location :- t.Next();
    var _ :- t.AssertNext("in");
    var d :- t.Next();
    var duration :- ParseLong(d);
    var _ :- t.AssertNext("ticks");
    var time :- ParseTime(t);
    r := Ok(Move(obj, location, duration, time));
  }

  /** `Despawn.fromString`. */
  method DespawnFromString(t: Tokens) returns (r: Result<LogCommand>)
    modifies t`index
    ensures Parsed(r, t.index) == DespawnAt(t.tokens, old(t.index))
  {
    var _ :- t.AssertNext("Despawn");
    var entity :- EntityFromString(t);
    var time :- ParseTime(t);
    r := Ok(Despawn(entity, time));
  }

  /** `LogCommand.fromString(str)`: a new cursor over the words of `str`,
      dispatched on its first word. */
  method CommandFromString(str: string) returns (r: Result<LogCommand>)
    ensures r == FromString(str)
  {
    var t := new Tokens(str);
    var first :- t.Peek(0);
    if first == "Change" {
      r := ChangeFromString(t);
    } else if first == "Push" {
      r := PushFromString(t);
    } else if first == "Pop" {
      r := PopFromString(t);
    } else if first == "Add" {
      r := AddResourceFromString(t);
    } else if first == "Pickup" {
      r := PickupFromString(t);
    } else if first == "Dropoff" {
      r := DropoffFromString(t);
    } else if first == "Move" {
      r := MoveFromString(t);
    } else if first == "Despawn" {
      r := DespawnFromString(t);
    } else {
      r := Err(UnknownCommand);
    }
  }

  // -------------------------------------------------------------- printing

  /** `toString` of a LoggedObject, as its words: "Entity $type $id" or "$id". */
  function ObjectWords(o: LoggedObject): seq<string>
  {
    match o
    case Entity(ty, id) => ["Entity", ty, id]
    case Unique(id) => [id]
  }

  /** The words of each command's `toString` template; Change Variable with
      a column but no row is the template's `error(...)`. */
  function Words(c: LogCommand): Result<seq<string>>
  {
    match c
    case ChangeVariable(id, column, row, value, time) =>
      if column.Some? then
        if row.None? then Err(Runtime("This shouldn't be possible!"))
        else Ok(["Change", "Variable", id, "at", IntToString(column.value), IntToString(row.value),
                 "to", IntToString(value), "at", "tick", IntToString(time)])
      else Ok(["Change", "Variable", id, "to", IntToString(value), "at", "tick", IntToString(time)])
    case ChangeImage(obj, image, time) =>
      Ok(["Change", "Image"] + ObjectWords(obj) + ["to", image, "at", "tick", IntToString(time)])
    case PushQueueStack(entity, id, time) =>
      Ok(["Push"] + ObjectWords(entity) + ["onto", id, "at", "tick", IntToString(time)])
    case PopQueueStack(entity, id, time) =>
      Ok(["Pop"] + ObjectWords(entity) + ["off", "of", id, "at", "tick", IntToString(time)])
    case AddResource(resource, target, time) =>
      Ok(["Add", "Resource", resource, "to", target, "at", "tick", IntToString(time)])
    case PickupEntity(entity, id, time) =>
      Ok(["Pickup"] + ObjectWords(entity) + ["onto", id, "at", "tick", IntToString(time)])
    case DropoffEntity(entity, id, time) =>
      Ok(["Dropoff"] + ObjectWords(entity) + ["from", id, "at", "tick", IntToString(time)])
    case Move(obj, location, duration, time) =>
      Ok(["Move"] + ObjectWords(obj) + ["to", location, "in", IntToString(duration), "ticks",
          "at", "tick", IntToString(time)])
    case Despawn(entity, time) =>
      Ok(["Despawn"] + ObjectWords(entity) + ["at", "tick", IntToString(time)])
  }

  /** `toString` of a command: its template's words joined by single
      spaces. Only a column without a row makes it throw. */
  function CommandText(c: LogCommand): (r: Result<string>)
    ensures r.Err? <==> c.ChangeVariable? && c.column.Some? && c.row.None?
  {
    var w :- Words(c);
    Ok(Join(w, ' '))
  }

  // ------------------------------------------------------------ round trip

  predicate Word(w: string) { ' ' !in w }

  predicate IsInt(n: int) { IntMin <= n <= IntMax }

  predicate IsLong(n: int) { LongMin <= n <= LongMax }

  /** An object whose text is read back as the same object: words without
      spaces, and a unique id that is not the word "Entity". */
  predicate ObjectWellFormed(o: LoggedObject)
  {
    match o
    case Entity(ty, id) => Word(ty) && Word(id)
    case Unique(id) => Word(id) && id != "Entity"
  }

  /** A command whose fields fit their Kotlin types (Int cells and value,
      Long times and duration), whose words hold no space, and whose cell
      is set in both coordinates or in neither. */
  predicate WellFormed(c: LogCommand)
  {
    IsLong(c.time) &&
    match c
    case ChangeVariable(id, column, row, value, _) =>
      Word(id) && IsInt(value) && (column.Some? <==> row.Some?)
      && (column.Some? ==> IsInt(column.value) && IsInt(row.value))
    case ChangeImage(obj, image, _) => ObjectWellFormed(obj) && Word(image)
    case PushQueueStack(entity, id, _) => ObjectWellFormed(entity) && Word(id)
    case PopQueueStack(entity, id, _) => ObjectWellFormed(entity) && Word(id)
    case AddResource(resource, target, _) => Word(resource) && Word(target)
    case PickupEntity(entity, id, _) => ObjectWellFormed(entity) && Word(id)
    case DropoffEntity(entity, id, _) => ObjectWellFormed(entity) && Word(id)
    case Move(obj, location, duration, _) => ObjectWellFormed(obj) && Word(location) && IsLong(duration)
    case Despawn(entity, _) => ObjectWellFormed(entity)
  }

  /** A printed number holds no space. */
  lemma NumberIsWord(n: int)
    ensures Word(IntToString(n))
  {
    var s := NatToString(if n < 0 then -n else n);
    assert forall k :: 0 <= k < |s| ==> IsDigit(s[k]);
    if n < 0 {
      assert IntToString(n) == "-" + s;
    }
  }

  predicate AllWords(ws: seq<string>)
  {
    forall k :: 0 <= k < |ws| ==> Word(ws[k])
  }

  lemma AllWordsAppend(a: seq<string>, b: seq<string>)
    requires AllWords(a) && AllWords(b)
    ensures AllWords(a + b)
  {
    assert forall k :: 0 <= k < |a + b| ==> (a + b)[k] == if k < |a| then a[k] else b[k - |a|];
  }

  /** Space-free words around an object's words. */
  lemma SplicedWords(pre: seq<string>, o: LoggedObject, post: seq<string>)
    requires AllWords(pre) && ObjectWellFormed(o) && AllWords(post)
    ensures AllWords(pre + ObjectWords(o) + post)
  {
    AllWordsAppend(pre, ObjectWords(o));
    AllWordsAppend(pre + ObjectWords(o), post);
  }

  lemma ChangeVariableWords(c: LogCommand)
    requires c.ChangeVariable? && WellFormed(c)
    ensures Words(c).Ok? && AllWords(Words(c).value)
  {
    NumberIsWord(c.time);
    NumberIsWord(c.value);
    if c.column.Some? {
      NumberIsWord(c.column.value);
      NumberIsWord(c.row.value);
    }
  }

  /** An object's words are read back as the object, whatever follows. */
  lemma ObjectAtWords(ts: seq<string>, i: nat, o: LoggedObject)
    requires ObjectWellFormed(o)
    requires i + |ObjectWords(o)| <= |ts| && ts[i..i + |ObjectWords(o)|] == ObjectWords(o)
    ensures ObjectAt(ts, i) == Parsed(Ok(o), i + |ObjectWords(o)|)
  {
    assert ts[i] == ObjectWords(o)[0];
    if o.Entity? {
      assert ts[i + 1] == o.entityType && ts[i + 2] == o.id;
    }
  }

  /** "at tick <time>" is read back as the time. */
  lemma TimeAtWords(ts: seq<string>, i: nat, time: int)
    requires IsLong(time)
    requires i + 3 <= |ts| && ts[i] == "at" && ts[i + 1] == "tick" && ts[i + 2] == IntToString(time)
    ensures TimeAt(ts, i) == Parsed(Ok(time), i + 3)
  {
    ParseLongOfIntToString(time);
  }

  /** Each reader reads its own command's words back. */
  lemma PushAtWords(ts: seq<string>, e: EntityObject, id: string, time: int)
    requires IsLong(time)
    requires ts == ["Push", "Entity", e.entityType, e.id, "onto", id, "at", "tick", IntToString(time)]
    ensures PushAt(ts, 0).result == Ok(PushQueueStack(e, id, time))
  {
    TimeAtWords(ts, 6, time);
  }

  lemma PopAtWords(ts: seq<string>, e: EntityObject, id: string, time: int)
    requires IsLong(time)
    requires ts == ["Pop", "Entity", e.entityType, e.id, "off", "of", id, "at", "tick", IntToString(time)]
    ensures PopAt(ts, 0).result == Ok(PopQueueStack(e, id, time))
  {
    TimeAtWords(ts, 7, time);
  }

  lemma PickupAtWords(ts: seq<string>, e: EntityObject, id: string, time: int)
    requires IsLong(time)
    requires ts == ["Pickup", "Entity", e.entityType, e.id, "onto", id, "at", "tick", IntToString(time)]
    ensures PickupAt(ts, 0).result == Ok(PickupEntity(e, id, time))
  {
    TimeAtWords(ts, 6, time);
  }

  lemma DropoffAtWords(ts: seq<string>, e: EntityObject, id: string, time: int)
    requires IsLong(time)
    requires ts == ["Dropoff", "Entity", e.entityType, e.id, "from", id, "at", "tick", IntToString(time)]
    ensures DropoffAt(ts, 0).result == Ok(DropoffEntity(e, id, time))
  {
    TimeAtWords(ts, 6, time);
  }

  lemma DespawnAtWords(ts: seq<string>, e: EntityObject, time: int)
    requires IsLong(time)
    requires ts == ["Despawn", "Entity", e.entityType, e.id, "at", "tick", IntToString(time)]
    ensures DespawnAt(ts, 0).result == Ok(Despawn(e, time))
  {
    TimeAtWords(ts, 4, time);
  }

  lemma AddResourceAtWords(ts: seq<string>, resource: string, target: string, time: int)
    requires IsLong(time)
    requires ts == ["Add", "Resource", resource, "to", target, "at", "tick", IntToString(time)]
    ensures AddResourceAt(ts, 0).result == Ok(AddResource(resource, target, time))
  {
    TimeAtWords(ts, 5, time);
  }

  lemma ChangeImageAtWords(ts: seq<string>, obj: LoggedObject, image: string, time: int)
    requires ObjectWellFormed(obj) && IsLong(time)
    requires var n := |ObjectWords(obj)|;
      7 + n <= |ts| && ts[0] == "Change" && ts[1] == "Image" && ts[2..2 + n] == ObjectWords(obj)
      && ts[2 + n] == "to" && ts[3 + n] == image && ts[4 + n] == "at" && ts[5 + n] == "tick"
      && ts[6 + n] == IntToString(time)
    ensures ChangeImageAt(ts, 0).result == Ok(ChangeImage(obj, image, time))
  {
    var n := |ObjectWords(obj)|;
    ObjectAtWords(ts, 2, obj);
    TimeAtWords(ts, 4 + n, time);
  }

  lemma MoveAtWords(ts: seq<string>, obj: LoggedObject, location: string, duration: int, time: int)
    requires ObjectWellFormed(obj) && IsLong(duration) && IsLong(time)
    requires var n := |ObjectWords(obj)|;
      9 + n <= |ts| && ts[0] == "Move" && ts[1..1 + n] == ObjectWords(obj) && ts[1 + n] == "to"
      && ts[2 + n] == location && ts[3 + n] == "in" && ts[4 + n] == IntToString(duration)
      && ts[5 + n] == "ticks" && ts[6 + n] == "at" && ts[7 + n] == "tick" && ts[8 + n] == IntToString(time)
    ensures MoveAt(ts, 0).result == Ok(Move(obj, location, duration, time))
  {
    var n := |ObjectWords(obj)|;
    ObjectAtWords(ts, 1, obj);
    ParseLongOfIntToString(duration);
    TimeAtWords(ts, 6 + n, time);
  }

  lemma CellAtWords(ts: seq<string>, id: string, column: int, row: int, value: int, time: int)
    requires IsInt(column) && IsInt(row) && IsInt(value) && IsLong(time)
    requires ts == ["Change", "Variable", id, "at", IntToString(column), IntToString(row),
                    "to", IntToString(value), "at", "tick", IntToString(time)]
    ensures ChangeVariableAt(ts, 0).result == Ok(ChangeVariable(id, Some(column), Some(row), value, time))
  {
    ParseIntOfIntToString(column);
    ParseIntOfIntToString(row);
    ParseIntOfIntToString(value);
    assert CellAt(ts, 3) == Parsed(Ok((Some(column), Some(row))), 6);
    TimeAtWords(ts, 8, time);
  }

  lemma NoCellAtWords(ts: seq<string>, id: string, value: int, time: int)
    requires IsInt(value) && IsLong(time)
    requires ts == ["Change", "Variable", id, "to", IntToString(value), "at", "tick", IntToString(time)]
    ensures ChangeVariableAt(ts, 0).result == Ok(ChangeVariable(id, None, None, value, time))
  {
    ParseIntOfIntToString(value);
    assert CellAt(ts, 3) == Parsed(Ok((None, None)), 3);
    TimeAtWords(ts, 5, time);
  }

  /** The first word picks the reader. */
  lemma Dispatch(ts: seq<string>)
    requires |ts| >= 2
    ensures ts[0] == "Change" && ts[1] == "Variable" ==> CommandAt(ts) == ChangeVariableAt(ts, 0)
    ensures ts[0] == "Change" && ts[1] != "Variable" ==> CommandAt(ts) == ChangeImageAt(ts, 0)
    ensures ts[0] == "Push" ==> CommandAt(ts) == PushAt(ts, 0)
    ensures ts[0] == "Pop" ==> CommandAt(ts) == PopAt(ts, 0)
    ensures ts[0] == "Add" ==> CommandAt(ts) == AddResourceAt(ts, 0)
    ensures ts[0] == "Pickup" ==> CommandAt(ts) == PickupAt(ts, 0)
    ensures ts[0] == "Dropoff" ==> CommandAt(ts) == DropoffAt(ts, 0)
    ensures ts[0] == "Move" ==> CommandAt(ts) == MoveAt(ts, 0)
    ensures ts[0] == "Despawn" ==> CommandAt(ts) == DespawnAt(ts, 0)
  {
  }

  lemma ChangeVariableReadBack(c: LogCommand)
    requires WellFormed(c) && c.ChangeVariable?
    ensures Words(c).Ok? && AllWords(Words(c).value)
    ensures ChangeVariableAt(Words(c).value, 0).result == Ok(c)
  {
    var ws := Words(c).value;
    NumberIsWord(c.time);
    var t := IntToString(c.time);
    ChangeVariableWords(c);
    if c.column.Some? {
      CellAtWords(ws, c.id, c.column.value, c.row.value, c.value, c.time);
    } else {
      NoCellAtWords(ws, c.id, c.value, c.time);
    }
  }

  lemma ChangeImageReadBack(c: LogCommand)
    requires WellFormed(c) && c.ChangeImage?
    ensures Words(c).Ok? && AllWords(Words(c).value)
    ensures ChangeImageAt(Words(c).value, 0).result == Ok(c)
  {
    var ws := Words(c).value;
    NumberIsWord(c.time);
    var t := IntToString(c.time);
    SplicedWords(["Change", "Image"], c.obj, ["to", c.imageId, "at", "tick", t]);
    var n := |ObjectWords(c.obj)|;
    assert ws[2..2 + n] == ObjectWords(c.obj);
    ChangeImageAtWords(ws, c.obj, c.imageId, c.time);
  }

  lemma PushQueueStackReadBack(c: LogCommand)
    requires WellFormed(c) && c.PushQueueStack?
    ensures Words(c).Ok? && AllWords(Words(c).value)
    ensures PushAt(Words(c).value, 0).result == Ok(c)
  {
    var ws := Words(c).value;
    NumberIsWord(c.time);
    var t := IntToString(c.time);
    SplicedWords(["Push"], c.entity, ["onto", c.queueStackId, "at", "tick", t]);
    PushAtWords(ws, c.entity, c.queueStackId, c.time);
  }

  lemma PopQueueStackReadBack(c: LogCommand)
    requires WellFormed(c) && c.PopQueueStack?
    ensures Words(c).Ok? && AllWords(Words(c).value)
    ensures PopAt(Words(c).value, 0).result == Ok(c)
  {
    var ws := Words(c).value;
    NumberIsWord(c.time);
    var t := IntToString(c.time);
    SplicedWords(["Pop"], c.entity, ["off", "of", c.queueStackId, "at", "tick", t]);
    PopAtWords(ws, c.entity, c.queueStackId, c.time);
  }

  lemma AddResourceReadBack(c: LogCommand)
    requires WellFormed(c) && c.AddResource?
    ensures Words(c).Ok? && AllWords(Words(c).value)
    ensures AddResourceAt(Words(c).value, 0).result == Ok(c)
  {
    var ws := Words(c).value;
    NumberIsWord(c.time);
    var t := IntToString(c.time);
    AddResourceAtWords(ws, c.resource, c.targetId, c.time);
  }

  lemma PickupEntityReadBack(c: LogCommand)
    requires WellFormed(c) && c.PickupEntity?
    ensures Words(c).Ok? && AllWords(Words(c).value)
    ensures PickupAt(Words(c).value, 0).result == Ok(c)
  {
    var ws := Words(c).value;
    NumberIsWord(c.time);
    var t := IntToString(c.time);
    SplicedWords(["Pickup"], c.entity, ["onto", c.transporterId, "at", "tick", t]);
    PickupAtWords(ws, c.entity, c.transporterId, c.time);
  }

  lemma DropoffEntityReadBack(c: LogCommand)
    requires WellFormed(c) && c.DropoffEntity?
    ensures Words(c).Ok? && AllWords(Words(c).value)
    ensures DropoffAt(Words(c).value, 0).result == Ok(c)
  {
    var ws := Words(c).value;
    NumberIsWord(c.time);
    var t := IntToString(c.time);
    SplicedWords(["Dropoff"], c.entity, ["from", c.transporterId, "at", "tick", t]);
    DropoffAtWords(ws, c.entity, c.transporterId, c.time);
  }

  lemma MoveReadBack(c: LogCommand)
    requires WellFormed(c) && c.Move?
    ensures Words(c).Ok? && AllWords(Words(c).value)
    ensures MoveAt(Words(c).value, 0).result == Ok(c)
  {
    var ws := Words(c).value;
    NumberIsWord(c.time);
    var t := IntToString(c.time);
    var d := IntToString(c.duration);
    NumberIsWord(c.duration);
    SplicedWords(["Move"], c.movedObject, ["to", c.location, "in", d, "ticks", "at", "tick", t]);
    var n := |ObjectWords(c.movedObject)|;
    assert ws[1..1 + n] == ObjectWords(c.movedObject);
    MoveAtWords(ws, c.movedObject, c.location, c.duration, c.time);
  }

  lemma DespawnReadBack(c: LogCommand)
    requires WellFormed(c) && c.Despawn?
    ensures Words(c).Ok? && AllWords(Words(c).value)
    ensures DespawnAt(Words(c).value, 0).result == Ok(c)
  {
    var ws := Words(c).value;
    NumberIsWord(c.time);
    var t := IntToString(c.time);
    SplicedWords(["Despawn"], c.entity, ["at", "tick", t]);
    DespawnAtWords(ws, c.entity, c.time);
  }

  /** A well-formed command's words hold no space, and the reader its
      first word selects reads them back as the command. */
  lemma ReadBack(c: LogCommand)
    requires WellFormed(c)
    ensures Words(c).Ok? && |Words(c).value| >= 2 && AllWords(Words(c).value)
    ensures CommandAt(Words(c).value).result == Ok(c)
  {
    if c.ChangeVariable? {
      ChangeVariableReadBack(c);
    } else if c.ChangeImage? {
      ChangeImageReadBack(c);
    } else if c.PushQueueStack? {
      PushQueueStackReadBack(c);
    } else if c.PopQueueStack? {
      PopQueueStackReadBack(c);
    } else if c.AddResource? {
      AddResourceReadBack(c);
    } else if c.PickupEntity? {
      PickupEntityReadBack(c);
    } else if c.DropoffEntity? {
      DropoffEntityReadBack(c);
    } else if c.Move? {
      MoveReadBack(c);
    } else {
      DespawnReadBack(c);
    }
    Dispatch(Words(c).value);
  }

  /** The round trip `main` checks, for every well-formed command: its
      text is read back as the same command. */
  lemma ParsePrintRoundTrip(c: LogCommand)
    requires WellFormed(c)
    ensures CommandText(c).Ok? && FromString(CommandText(c).value) == Ok(c)
  {
    ReadBack(c);
    SplitOfJoin(Words(c).value, ' ');
  }

  // ------------------------------------------------------------- the tests

  /** `testLine(inp, expected)`: the line must parse to `expected` and print
      back as itself; the messages interpolate the commands' `toString`. */
  function TestLine(inp: string, expected: LogCommand): Outcome
  {
    match FromString(inp)
    case Err(e) => Failed(e)
    case Ok(res) =>
      if res != expected then
        match CommandText(res)
        case Err(e) => Failed(e)
        case Ok(shown) =>
          match CommandText(expected)
          case Err(e) => Failed(e)
          case Ok(wanted) => Failed(Runtime("Got " + shown + " from " + inp + ", expected: " + wanted))
      else
        match CommandText(res)
        case Err(e) => Failed(e)
        case Ok(res2) =>
          if res2 != inp then Failed(Runtime("Got " + res2 + " from " + res2 + ", expected: " + inp))
          else Done
  }

  /** A well-formed command's own text passes its test line. */
  lemma TestLineOfText(c: LogCommand)
    requires WellFormed(c)
    ensures TestLine(CommandText(c).value, c) == Done
  {
    ParsePrintRoundTrip(c);
  }

  /** `main`: the test lines in order; the first failure ends the run. */
  function RunTests(cases: seq<(string, LogCommand)>): Outcome
  {
    if |cases| == 0 then Done
    else
      match TestLine(cases[0].0, cases[0].1)
      case Failed(e) => Failed(e)
      case Done => RunTests(cases[1..])
  }

  /** Every line whose command is well-formed and prints as the line passes. */
  lemma {:induction false} RunTestsPasses(cases: seq<(string, LogCommand)>)
    requires forall k :: 0 <= k < |cases| ==>
      WellFormed(cases[k].1) && CommandText(cases[k].1) == Ok(cases[k].0)
    ensures RunTests(cases) == Done
  {
    if |cases| > 0 {
      TestLineOfText(cases[0].1);
      RunTestsPasses(cases[1..]);
    }
  }

  /** The eleven lines of `main`, each given as the space-separated words
      of its text, with the command it must parse to. */
  const TestCases: seq<(seq<string>, LogCommand)> := [
    (["Change", "Variable", "var1", "to", "20", "at", "tick", "0"],
     ChangeVariable("var1", None, None, 20, 0)),
    (["Change", "Variable", "var1", "at", "1", "20", "to", "30", "at", "tick", "10"],
     ChangeVariable("var1", Some(1), Some(20), 30, 10)),
    (["Change", "Image", "station1", "to", "image1", "at", "tick", "20"],
     ChangeImage(Unique("station1"), "image1", 20)),
    (["Change", "Image", "Entity", "Person", "Ben", "to", "person1Image", "at", "tick", "10"],
     ChangeImage(Entity("Person", "Ben"), "person1Image", 10)),
    (["Push", "Entity", "Person", "Ben", "onto", "stack1", "at", "tick", "30"],
     PushQueueStack(Entity("Person", "Ben"), "stack1", 30)),
    (["Pop", "Entity", "Person", "Ben", "off", "of", "stack1", "at", "tick", "40"],
     PopQueueStack(Entity("Person", "Ben"), "stack1", 40)),
    (["Add", "Resource", "resource1", "to", "thing1", "at", "tick", "50"],
     AddResource("resource1", "thing1", 50)),
    (["Pickup", "Entity", "Person", "Ben", "onto", "Transporter1", "at", "tick", "60"],
     PickupEntity(Entity("Person", "Ben"), "Transporter1", 60)),
    (["Dropoff", "Entity", "Person", "Ben", "from", "Transporter1", "at", "tick", "70"],
     DropoffEntity(Entity("Person", "Ben"), "Transporter1", 70)),
    (["Move", "Transporter1", "to", "station2", "in", "20", "ticks", "at", "tick", "80"],
     Move(Unique("Transporter1"), "station2", 20, 80)),
    (["Despawn", "Entity", "Person", "Bob", "at", "tick", "90"],
     Despawn(Entity("Person", "Bob"), 90))
  ]

  /** The lines of `main`, joined into text. */
  function MainLines(cases: seq<(seq<string>, LogCommand)>): (lines: seq<(string, LogCommand)>)
    ensures |lines| == |cases|
    ensures forall k :: 0 <= k < |cases| ==> lines[k] == (Join(cases[k].0, ' '), cases[k].1)
  {
    if |cases| == 0 then [] else [(Join(cases[0].0, ' '), cases[0].1)] + MainLines(cases[1..])
  }

  /** Each sample command is well-formed and prints as its line's words. */
  lemma SampleWords(k: nat)
    requires k < |TestCases|
    ensures WellFormed(TestCases[k].1) && Words(TestCases[k].1) == Ok(TestCases[k].0)
  {
    if k == 0 {
      Sample0();
    } else if k == 1 {
      Sample1();
    } else if k == 2 {
      Sample2();
    } else if k == 3 {
      Sample3();
    } else if k == 4 {
      Sample4();
    } else if k == 5 {
      Sample5();
    } else if k == 6 {
      Sample6();
    } else if k == 7 {
      Sample7();
    } else if k == 8 {
      Sample8();
    } else if k == 9 {
      Sample9();
    } else {
      Sample10();
    }
  }

  lemma Sample0()
    ensures WellFormed(TestCases[0].1) && Words(TestCases[0].1) == Ok(TestCases[0].0)
  {
    assert TestCases[0] == (["Change", "Variable", "var1", "to", "20", "at", "tick", "0"], ChangeVariable("var1", None, None, 20, 0));
    assert IntToString(0) == "0" && IntToString(20) == "20";
  }

  lemma Sample1()
    ensures WellFormed(TestCases[1].1) && Words(TestCases[1].1) == Ok(TestCases[1].0)
  {
    assert TestCases[1] == (["Change", "Variable", "var1", "at", "1", "20", "to", "30", "at", "tick", "10"], ChangeVariable("var1", Some(1), Some(20), 30, 10));
    assert IntToString(1) == "1" && IntToString(20) == "20" && IntToString(30) == "30" && IntToString(10) == "10";
  }

  lemma Sample2()
    ensures WellFormed(TestCases[2].1) && Words(TestCases[2].1) == Ok(TestCases[2].0)
  {
    assert TestCases[2] == (["Change", "Image", "station1", "to", "image1", "at", "tick", "20"], ChangeImage(Unique("station1"), "image1", 20));
    assert IntToString(20) == "20";
    var w := ["Change", "Image"] + ObjectWords(Unique("station1")) + ["to", "image1", "at", "tick", "20"];
    assert w == ["Change", "Image", "station1", "to", "image1", "at", "tick", "20"];
  }

  lemma Sample3()
    ensures WellFormed(TestCases[3].1) && Words(TestCases[3].1) == Ok(TestCases[3].0)
  {
    assert TestCases[3] == (["Change", "Image", "Entity", "Person", "Ben", "to", "person1Image", "at", "tick", "10"], ChangeImage(Entity("Person", "Ben"), "person1Image", 10));
    assert IntToString(10) == "10";
    var w := ["Change", "Image"] + ObjectWords(Entity("Person", "Ben")) + ["to", "person1Image", "at", "tick", "10"];
    assert w == ["Change", "Image", "Entity", "Person", "Ben", "to", "person1Image", "at", "tick", "10"];
  }

  lemma Sample4()
    ensures WellFormed(TestCases[4].1) && Words(TestCases[4].1) == Ok(TestCases[4].0)
  {
    assert TestCases[4] == (["Push", "Entity", "Person", "Ben", "onto", "stack1", "at", "tick", "30"], PushQueueStack(Entity("Person", "Ben"), "stack1", 30));
    assert IntToString(30) == "30";
    var w := ["Push"] + ObjectWords(Entity("Person", "Ben")) + ["onto", "stack1", "at", "tick", "30"];
    assert w == ["Push", "Entity", "Person", "Ben", "onto", "stack1", "at", "tick", "30"];
  }

  lemma Sample5()
    ensures WellFormed(TestCases[5].1) && Words(TestCases[5].1) == Ok(TestCases[5].0)
  {
    assert TestCases[5] == (["Pop", "Entity", "Person", "Ben", "off", "of", "stack1", "at", "tick", "40"], PopQueueStack(Entity("Person", "Ben"), "stack1", 40));
    assert IntToString(40) == "40";
    var w := ["Pop"] + ObjectWords(Entity("Person", "Ben")) + ["off", "of", "stack1", "at", "tick", "40"];
    assert w == ["Pop", "Entity", "Person", "Ben", "off", "of", "stack1", "at", "tick", "40"];
  }

  lemma Sample6()
    ensures WellFormed(TestCases[6].1) && Words(TestCases[6].1) == Ok(TestCases[6].0)
  {
    assert TestCases[6] == (["Add", "Resource", "resource1", "to", "thing1", "at", "tick", "50"], AddResource("resource1", "thing1", 50));
    assert IntToString(50) == "50";
  }

  lemma Sample7()
    ensures WellFormed(TestCases[7].1) && Words(TestCases[7].1) == Ok(TestCases[7].0)
  {
    assert TestCases[7] == (["Pickup", "Entity", "Person", "Ben", "onto", "Transporter1", "at", "tick", "60"], PickupEntity(Entity("Person", "Ben"), "Transporter1", 60));
    assert IntToString(60) == "60";
    var w := ["Pickup"] + ObjectWords(Entity("Person", "Ben")) + ["onto", "Transporter1", "at", "tick", "60"];
    assert w == ["Pickup", "Entity", "Person", "Ben", "onto", "Transporter1", "at", "tick", "60"];
  }

  lemma Sample8()
    ensures WellFormed(TestCases[8].1) && Words(TestCases[8].1) == Ok(TestCases[8].0)
  {
    assert TestCases[8] == (["Dropoff", "Entity", "Person", "Ben", "from", "Transporter1", "at", "tick", "70"], DropoffEntity(Entity("Person", "Ben"), "Transporter1", 70));
    assert IntToString(70) == "70";
    var w := ["Dropoff"] + ObjectWords(Entity("Person", "Ben")) + ["from", "Transporter1", "at", "tick", "70"];
    assert w == ["Dropoff", "Entity", "Person", "Ben", "from", "Transporter1", "at", "tick", "70"];
  }

  lemma Sample9()
    ensures WellFormed(TestCases[9].1) && Words(TestCases[9].1) == Ok(TestCases[9].0)
  {
    assert TestCases[9] == (["Move", "Transporter1", "to", "station2", "in", "20", "ticks", "at", "tick", "80"], Move(Unique("Transporter1"), "station2", 20, 80));
    assert IntToString(20) == "20" && IntToString(80) == "80";
    var w := ["Move"] + ObjectWords(Unique("Transporter1")) + ["to", "station2", "in", "20", "ticks", "at", "tick", "80"];
    assert w == ["Move", "Transporter1", "to", "station2", "in", "20", "ticks", "at", "tick", "80"];
  }

  lemma Sample10()
    ensures WellFormed(TestCases[10].1) && Words(TestCases[10].1) == Ok(TestCases[10].0)
  {
    assert TestCases[10] == (["Despawn", "Entity", "Person", "Bob", "at", "tick", "90"], Despawn(Entity("Person", "Bob"), 90));
    assert IntToString(90) == "90";
    var w := ["Despawn"] + ObjectWords(Entity("Person", "Bob")) + ["at", "tick", "90"];
    assert w == ["Despawn", "Entity", "Person", "Bob", "at", "tick", "90"];
  }

  /** `main` runs to completion: every test line parses to its expected
      command and prints back as itself. */
  lemma MainPasses()
    ensures RunTests(MainLines(TestCases)) == Done
  {
    var lines := MainLines(TestCases);
    forall k | 0 <= k < |lines|
      ensures WellFormed(lines[k].1) && CommandText(lines[k].1) == Ok(lines[k].0)
    {
      SampleWords(k);
    }
    RunTestsPasses(lines);
  }
}
