// The pharmacy log generator: customers arrive at random intervals, join
// one queue and are served one at a time by a pharmacist whose state the
// generator logs as active, busy and idle. Every command is logged as
// "<time>: <command>" and the log is written out joined by newlines, in the
// order the commands were generated. Math.random() draws are inputs; the
// generator's numbers are integers.

module LegacyPharmacy {
  import opened Common
  import opened Text
  import LegacyDemo
  import LogEvents
  import LogLoading

  const EntityType: string := "customer"
  const QueueName: string := "initial_queue"
  const ResourceName: string := "pharmacist"

  /** The constructor's parameters. */
  datatype Params = Params(serviceTime: int, busyTime: int, arrivalMin: int, arrivalMax: int, customerCount: int)

  /** A queued customer. */
  datatype Customer = Customer(entityId: string, arrivalTime: int)

  /** The four commands the generator writes. */
  datatype Command =
    | SpawnCmd(time: int, id: string)
    | JoinCmd(time: int, id: string)
    | LeaveCmd(time: int, id: string)
    | StateCmd(time: int, state: PharmacistState)

  /** The pharmacist's logged states. */
  datatype PharmacistState = Active | Busy | Idle

  function StateName(s: PharmacistState): string
  {
    match s
    case Active => "active"
    case Busy => "busy"
    case Idle => "idle"
  }

  /** A command's words: the template's text split at its spaces. */
  function Words(c: Command): seq<string>
  {
    match c
    case SpawnCmd(_, id) => LegacyDemo.SpawnWords(EntityType, id)
    case JoinCmd(_, id) => LegacyDemo.QueueWords(QueueName, "JOIN", id)
    case LeaveCmd(_, id) => LegacyDemo.QueueWords(QueueName, "LEAVE", id)
    case StateCmd(_, state) => LegacyDemo.ResourceWords(ResourceName, StateName(state))
  }

  /** The command text the template literal produces. */
  function CommandText(c: Command): string
  {
    Join(Words(c), ' ')
  }

  /** logCommand's line for a timestamp and a command text. */
  function LogLine(timestamp: int, command: string): string
  {
    IntToString(timestamp) + ": " + command
  }

  function Written(c: Command): string
  {
    LogLine(c.time, CommandText(c))
  }

  /** `f` applied to every element, in order. */
  function Map<A, B>(f: A -> B, s: seq<A>): (r: seq<B>)
    ensures |r| == |s| && forall i :: 0 <= i < |s| ==> r[i] == f(s[i])
  {
    if |s| == 0 then [] else Map(f, s[..|s| - 1]) + [f(s[|s| - 1])]
  }

  lemma MapAppend<A, B>(f: A -> B, a: seq<A>, b: seq<A>)
    ensures Map(f, a + b) == Map(f, a) + Map(f, b)
  {
  }

  /** The event the main program's legacy loader reads from a command. */
  function Event(c: Command): LegacyDemo.LogEvent
  {
    match c
    case SpawnCmd(t, id) => LegacyDemo.Spawn(t as real, EntityType, id)
    case JoinCmd(t, id) => LegacyDemo.QueueEvent(t as real, QueueName, "JOIN", id)
    case LeaveCmd(t, id) => LegacyDemo.QueueEvent(t as real, QueueName, "LEAVE", id)
    case StateCmd(t, state) => LegacyDemo.ResourceEvent(t as real, ResourceName, "STATE", StateName(state))
  }


  // ------------------------------------------------------------- arrivals

  /** getRandomArrivalTime for the draw `r` of Math.random(). */
  function ArrivalGap(p: Params, r: real): int
  {
    (r * (p.arrivalMax - p.arrivalMin + 1) as real).Floor + p.arrivalMin
  }

  /** The i-th arrival: the gaps of draws 0 .. i summed. */
  function ArrivalAt(p: Params, draws: seq<real>, i: nat): int
    requires i < |draws|
  {
    (if i == 0 then 0 else ArrivalAt(p, draws, i - 1)) + ArrivalGap(p, draws[i])
  }

  /** generateArrivals over its first k draws: the running sums. */
  function Arrivals(p: Params, draws: seq<real>, k: nat): (a: seq<int>)
    requires k <= |draws|
    ensures |a| == k && forall i :: 0 <= i < k ==> a[i] == ArrivalAt(p, draws, i)
  {
    if k == 0 then [] else Arrivals(p, draws, k - 1) + [ArrivalAt(p, draws, k - 1)]
  }

  /** The number of loop rounds of `for (i = 0; i < customerCount; i++)`. */
  function Rounds(n: int): nat
  {
    if n < 0 then 0 else n
  }

  predicate IsDraw(r: real) { 0.0 <= r < 1.0 }

  /** A draw in [0, 1) gives a gap in [arrivalMin, arrivalMax]. */
  lemma ArrivalGapBounds(p: Params, r: real)
    requires IsDraw(r) && p.arrivalMin <= p.arrivalMax
    ensures p.arrivalMin <= ArrivalGap(p, r) <= p.arrivalMax
  {
    var m := p.arrivalMax - p.arrivalMin + 1;
    var k := m as real;
    var x := r * k;
    assert 0.0 <= x by {
      assert 0.0 <= r && 1.0 <= k;
    }
    assert x < k by {
      var d := 1.0 - r;
      assert d > 0.0 && k >= 1.0;
      PositiveProduct(d, k);
      assert d * k == k - x;
    }
    assert x.Floor as real <= x;
    assert x.Floor >= 0;
    assert x.Floor < m;
  }

  lemma PositiveProduct(x: real, y: real)
    requires x > 0.0 && y > 0.0
    ensures x * y > 0.0
  {
  }

  /** With 0 <= arrivalMin <= arrivalMax, successive arrivals are between
      arrivalMin and arrivalMax apart, so they never decrease. */
  lemma ArrivalsNondecreasing(p: Params, draws: seq<real>)
    requires 0 <= p.arrivalMin <= p.arrivalMax && forall i :: 0 <= i < |draws| ==> IsDraw(draws[i])
    ensures forall i :: 0 < i < |draws| ==>
      p.arrivalMin <= ArrivalAt(p, draws, i) - ArrivalAt(p, draws, i - 1) <= p.arrivalMax
    ensures forall i, j :: 0 <= i <= j < |draws| ==> 0 <= ArrivalAt(p, draws, i) <= ArrivalAt(p, draws, j)
  {
    forall i | 0 <= i < |draws|
      ensures p.arrivalMin <= ArrivalGap(p, draws[i]) <= p.arrivalMax
    {
      ArrivalGapBounds(p, draws[i]);
    }
    forall j | 0 <= j < |draws|
      ensures forall i :: 0 <= i <= j ==> 0 <= ArrivalAt(p, draws, i) <= ArrivalAt(p, draws, j)
    {
      ArrivalsGrow(p, draws, j);
    }
  }

  lemma {:induction false} ArrivalsGrow(p: Params, draws: seq<real>, j: nat)
    requires j < |draws| && forall i :: 0 <= i < |draws| ==> ArrivalGap(p, draws[i]) >= 0
    ensures forall i :: 0 <= i <= j ==> 0 <= ArrivalAt(p, draws, i) <= ArrivalAt(p, draws, j)
  {
    if j > 0 {
      ArrivalsGrow(p, draws, j - 1);
    }
  }

  // -------------------------------------------------------------- service

  /** A customer's service starts once both it and the pharmacist are
      there. */
  function ServiceStart(t: int, c: Customer): (s: int)
    ensures s >= t && s >= c.arrivalTime && (s == t || s == c.arrivalTime)
  {
    if t >= c.arrivalTime then t else c.arrivalTime
  }

  /** One round of processQueue with the clock at `t`: the customer
      leaves and the pharmacist is active at the service start, busy
      serviceTime later and idle busyTime after that. */
  function Served(p: Params, t: int, c: Customer): seq<Command>
  {
    var s := ServiceStart(t, c);
    [LeaveCmd(s, c.entityId), StateCmd(s, Active), StateCmd(s + p.serviceTime, Busy),
     StateCmd(s + p.serviceTime + p.busyTime, Idle)]
  }

  /** The clock after one round. */
  function DoneAt(p: Params, t: int, c: Customer): int
  {
    ServiceStart(t, c) + p.serviceTime + p.busyTime
  }

  /** The clock once the first k customers of `q` are served. */
  function ServiceEnd(p: Params, t: int, q: seq<Customer>, k: nat): int
    requires k <= |q|
  {
    if k == 0 then t else DoneAt(p, ServiceEnd(p, t, q, k - 1), q[k - 1])
  }

  /** processQueue's log over the first k customers of `q`, served from the
      front. */
  function ServiceLog(p: Params, t: int, q: seq<Customer>, k: nat): seq<Command>
    requires k <= |q|
  {
    if k == 0 then [] else ServiceLog(p, t, q, k - 1) + Served(p, ServiceEnd(p, t, q, k - 1), q[k - 1])
  }

  /** The ids of the LEAVE commands, in order. */
  function Departures(cs: seq<Command>): seq<string>
  {
    if |cs| == 0 then []
    else Departures(cs[..|cs| - 1]) + (if cs[|cs| - 1].LeaveCmd? then [cs[|cs| - 1].id] else [])
  }

  lemma {:induction false} DeparturesAppend(a: seq<Command>, b: seq<Command>)
    ensures Departures(a + b) == Departures(a) + Departures(b)
    decreases |b|
  {
    if |b| == 0 {
      assert a + b == a;
    } else {
      var ab := a + b;
      assert ab[..|ab| - 1] == a + b[..|b| - 1];
      assert ab[|ab| - 1] == b[|b| - 1];
      DeparturesAppend(a, b[..|b| - 1]);
    }
  }

  /** A service has exactly one LEAVE, its customer's. */
  lemma DeparturesOfServed(p: Params, t: int, c: Customer)
    ensures Departures(Served(p, t, c)) == [c.entityId]
  {
    var s := Served(p, t, c);
    assert Departures(s) == Departures(s[..3]);
    assert s[..3][..2] == s[..2];
    assert Departures(s[..3]) == Departures(s[..2]);
    assert s[..2][..1] == s[..1];
    assert Departures(s[..2]) == Departures(s[..1]);
    assert s[..1][..0] == [];
    assert Departures(s[..1]) == [c.entityId];
  }

  function Ids(q: seq<Customer>): (ids: seq<string>)
    ensures |ids| == |q| && forall i :: 0 <= i < |q| ==> ids[i] == q[i].entityId
  {
    if |q| == 0 then [] else Ids(q[..|q| - 1]) + [q[|q| - 1].entityId]
  }

  /** Service is first in, first out: the customers leave the queue in
      queue order, each exactly once. */
  lemma {:induction false} ServiceIsFifo(p: Params, t: int, q: seq<Customer>, k: nat)
    requires k <= |q|
    ensures Departures(ServiceLog(p, t, q, k)) == Ids(q[..k])
  {
    if k > 0 {
      ServiceIsFifo(p, t, q, k - 1);
      var served := Served(p, ServiceEnd(p, t, q, k - 1), q[k - 1]);
      DeparturesAppend(ServiceLog(p, t, q, k - 1), served);
      DeparturesOfServed(p, ServiceEnd(p, t, q, k - 1), q[k - 1]);
      assert q[..k][..k - 1] == q[..k - 1];
    }
  }

  /** Four commands per customer: the i-th block is the i-th customer's
      service, with the clock the customers before it left. */
  lemma {:induction false} ServiceLogBlocks(p: Params, t: int, q: seq<Customer>, k: nat)
    requires k <= |q|
    ensures |ServiceLog(p, t, q, k)| == 4 * k
    ensures forall i, j :: 0 <= i < k && 0 <= j < 4 ==>
      ServiceLog(p, t, q, k)[4 * i + j] == Served(p, ServiceEnd(p, t, q, i), q[i])[j]
  {
    if k > 0 {
      ServiceLogBlocks(p, t, q, k - 1);
    }
  }

  /** With non-negative service and busy times the clock never goes back
      along the queue. */
  lemma {:induction false} ServiceClockGrows(p: Params, t: int, q: seq<Customer>, k: nat)
    requires p.serviceTime >= 0 && p.busyTime >= 0 && k <= |q|
    ensures forall i :: 0 <= i <= k ==> t <= ServiceEnd(p, t, q, i) <= ServiceEnd(p, t, q, k)
  {
    if k > 0 {
      ServiceClockGrows(p, t, q, k - 1);
    }
  }

  // ------------------------------------------------------------------ run

  /** `entity_${entityCounter}`. */
  function CustomerId(n: nat): string
  {
    "entity_" + NatToString(n)
  }

  /** The customer that the i-th arrival of a run with ids from `n` is. */
  function RunCustomer(n: nat, a: seq<int>, i: nat): Customer
    requires i < |a|
  {
    Customer(CustomerId(n + i), a[i])
  }

  /** A customer's SPAWN and QUEUE JOIN at its arrival. */
  function Arrived(c: Customer): seq<Command>
  {
    [SpawnCmd(c.arrivalTime, c.entityId), JoinCmd(c.arrivalTime, c.entityId)]
  }

  /** The clock after the first k arrivals of a run. */
  function RunEnd(p: Params, t: int, n: nat, a: seq<int>, k: nat): int
    requires k <= |a|
  {
    if k == 0 then t else DoneAt(p, RunEnd(p, t, n, a, k - 1), RunCustomer(n, a, k - 1))
  }

  /** The run's log over the first k arrivals of `a`: per customer its
      arrival, then its service. Ids count from `n`. */
  function RunLog(p: Params, t: int, n: nat, a: seq<int>, k: nat): seq<Command>
    requires k <= |a|
  {
    if k == 0 then []
    else RunLog(p, t, n, a, k - 1) + Arrived(RunCustomer(n, a, k - 1))
           + Served(p, RunEnd(p, t, n, a, k - 1), RunCustomer(n, a, k - 1))
  }

  /** Six commands per customer: SPAWN and QUEUE JOIN at its arrival,
      then its service with the clock the customers before it left. */
  lemma {:induction false} RunLogBlocks(p: Params, t: int, n: nat, a: seq<int>, k: nat)
    requires k <= |a|
    ensures |RunLog(p, t, n, a, k)| == 6 * k
    ensures forall i, j :: 0 <= i < k && 0 <= j < 6 ==>
      RunLog(p, t, n, a, k)[6 * i + j]
        == (Arrived(RunCustomer(n, a, i)) + Served(p, RunEnd(p, t, n, a, i), RunCustomer(n, a, i)))[j]
  {
    if k > 0 {
      RunLogBlocks(p, t, n, a, k - 1);
      var prev := RunLog(p, t, n, a, k - 1);
      var c := RunCustomer(n, a, k - 1);
      var block := Arrived(c) + Served(p, RunEnd(p, t, n, a, k - 1), c);
      assert |block| == 6;
      assert RunLog(p, t, n, a, k) == prev + block;
      forall i, j | 0 <= i < k && 0 <= j < 6
        ensures RunLog(p, t, n, a, k)[6 * i + j]
          == (Arrived(RunCustomer(n, a, i)) + Served(p, RunEnd(p, t, n, a, i), RunCustomer(n, a, i)))[j]
      {
        if i < k - 1 {
          assert 6 * i + j < |prev|;
        } else {
          assert (prev + block)[6 * i + j] == block[j];
        }
      }
    }
  }

  /** The log is in generation order, not time order: with the program's
      own parameters and arrivals at 2 and 4, the first customer's idle
      command at 11 is written before the second customer's SPAWN at 4. */
  lemma NotInTimeOrder()
    ensures var cs := RunLog(Params(5, 4, 2, 8, 10), 0, 0, [2, 4], 2);
      |cs| == 12 && cs[5].time == 11 && cs[6].time == 4
  {
    var p := Params(5, 4, 2, 8, 10);
    RunLogBlocks(p, 0, 0, [2, 4], 2);
    assert RunEnd(p, 0, 0, [2, 4], 1) == 11;
  }

  /** And those arrivals can be drawn: two draws of 0 give gaps of 2. */
  lemma ArrivalsOfZeroDraws()
    ensures Arrivals(Params(5, 4, 2, 8, 10), [0.0, 0.0], 2) == [2, 4]
  {
    assert ArrivalAt(Params(5, 4, 2, 8, 10), [0.0, 0.0], 1) == 4;
  }

  // ------------------------------------------------------ reading the log

  /** What makes a command's line read back: its id is a plain name. */
  predicate CommandOk(c: Command)
  {
    !c.StateCmd? ==> LegacyDemo.PlainName(c.id)
  }

  lemma NamesArePlain()
    ensures LegacyDemo.PlainName(EntityType) && LegacyDemo.PlainName(QueueName) && LegacyDemo.PlainName(ResourceName)
    ensures LegacyDemo.PlainName("JOIN") && LegacyDemo.PlainName("LEAVE")
    ensures forall st: PharmacistState :: LegacyDemo.PlainName(StateName(st))
  {
  }

  lemma CustomerIdIsPlain(n: nat)
    ensures LegacyDemo.PlainName(CustomerId(n))
  {
    var s := CustomerId(n);
    var d := NatToString(n);
    assert LegacyDemo.PlainName("entity_");
    forall i | 7 <= i < |s|
      ensures IsDigit(s[i])
    {
      assert s[i] == d[i - 7];
    }
    forall i | 0 <= i < |s|
      ensures s[i] != ' ' && s[i] != '"' && s[i] != '\n' && s[i] != '\r'
    {
      if i < 7 {
        assert s[i] == "entity_"[i];
      }
    }
  }

  /** A command's line is the legacy log format of its words. */
  lemma WrittenIsLogLine(c: Command)
    ensures Written(c) == LegacyDemo.LogLine(c.time, Words(c))
  {
  }

  /** Every line of a command of plain names reads back as its event. */
  lemma CommandReads(c: Command)
    requires CommandOk(c)
    ensures LegacyDemo.ParseLogLine(Written(c)) == Ok(Some(Event(c)))
    ensures '\n' !in Written(c) && '\r' !in Written(c)
  {
    WrittenIsLogLine(c);
    NamesArePlain();
    match c
    case SpawnCmd(t, id) => SpawnReads(t, id);
    case JoinCmd(t, id) => QueueReads(t, "JOIN", id);
    case LeaveCmd(t, id) => QueueReads(t, "LEAVE", id);
    case StateCmd(t, state) => StateReads(t, StateName(state));
  }

  lemma SpawnReads(t: int, id: string)
    requires LegacyDemo.PlainName(id) && LegacyDemo.PlainName(EntityType)
    ensures var w := LegacyDemo.LogLine(t, LegacyDemo.SpawnWords(EntityType, id));
      LegacyDemo.ParseLogLine(w) == Ok(Some(LegacyDemo.Spawn(t as real, EntityType, id))) && '\n' !in w && '\r' !in w
  {
    LegacyDemo.SpawnLineParses(t, EntityType, id);
    SpawnLineHasNoBreak(t, id);
  }

  lemma SpawnLineHasNoBreak(t: int, id: string)
    requires LegacyDemo.PlainName(id) && LegacyDemo.PlainName(EntityType)
    ensures var w := LegacyDemo.LogLine(t, LegacyDemo.SpawnWords(EntityType, id));
      '\n' !in w && '\r' !in w
  {
    var words := LegacyDemo.SpawnWords(EntityType, id);
    var e, d := Quote(EntityType), Quote(id);
    LegacyDemo.QuotedWord(EntityType);
    LegacyDemo.QuotedWord(id);
    KeywordsHaveNoBreak();
    assert words == ["SPAWN", e, "AS", d];
    assert '\n' !in words[1] && '\r' !in words[1] && '\n' !in words[3] && '\r' !in words[3];
    NoBreaks(words);
    LineHasNoBreak(t, words);
  }

  lemma QueueReads(t: int, action: string, id: string)
    requires LegacyDemo.PlainName(id) && LegacyDemo.PlainName(action) && LegacyDemo.PlainName(QueueName)
    ensures var w := LegacyDemo.LogLine(t, LegacyDemo.QueueWords(QueueName, action, id));
      LegacyDemo.ParseLogLine(w) == Ok(Some(LegacyDemo.QueueEvent(t as real, QueueName, action, id))) && '\n' !in w && '\r' !in w
  {
    LegacyDemo.QueueLineParses(t, QueueName, action, id);
    QueueLineHasNoBreak(t, action, id);
  }

  lemma QueueLineHasNoBreak(t: int, action: string, id: string)
    requires LegacyDemo.PlainName(id) && LegacyDemo.PlainName(action) && LegacyDemo.PlainName(QueueName)
    ensures var w := LegacyDemo.LogLine(t, LegacyDemo.QueueWords(QueueName, action, id));
      '\n' !in w && '\r' !in w
  {
    var words := LegacyDemo.QueueWords(QueueName, action, id);
    var q, d := Quote(QueueName), Quote(id);
    LegacyDemo.QuotedWord(QueueName);
    LegacyDemo.QuotedWord(id);
    KeywordsHaveNoBreak();
    assert words == ["QUEUE", q, action, d];
    assert '\n' !in words[1] && '\r' !in words[1] && '\n' !in words[3] && '\r' !in words[3];
    NoBreaks(words);
    LineHasNoBreak(t, words);
  }

  lemma StateReads(t: int, state: string)
    requires LegacyDemo.PlainName(state) && LegacyDemo.PlainName(ResourceName)
    ensures var w := LegacyDemo.LogLine(t, LegacyDemo.ResourceWords(ResourceName, state));
      LegacyDemo.ParseLogLine(w) == Ok(Some(LegacyDemo.ResourceEvent(t as real, ResourceName, "STATE", state))) && '\n' !in w && '\r' !in w
  {
    LegacyDemo.ResourceLineParses(t, ResourceName, state);
    StateLineHasNoBreak(t, state);
  }

  lemma StateLineHasNoBreak(t: int, state: string)
    requires LegacyDemo.PlainName(state) && LegacyDemo.PlainName(ResourceName)
    ensures var w := LegacyDemo.LogLine(t, LegacyDemo.ResourceWords(ResourceName, state));
      '\n' !in w && '\r' !in w
  {
    var words := LegacyDemo.ResourceWords(ResourceName, state);
    var q, s := Quote(ResourceName), Quote(state);
    LegacyDemo.QuotedWord(ResourceName);
    LegacyDemo.QuotedWord(state);
    KeywordsHaveNoBreak();
    assert words == ["RESOURCE", q, "SET", "STATE", s];
    assert '\n' !in words[1] && '\r' !in words[1] && '\n' !in words[4] && '\r' !in words[4];
    NoBreaks(words);
    LineHasNoBreak(t, words);
  }

  /** Words without line breaks, as the few words of a template. */
  lemma NoBreaks(words: seq<string>)
    requires |words| <= 5
    requires |words| > 0 ==> '\n' !in words[0] && '\r' !in words[0]
    requires |words| > 1 ==> '\n' !in words[1] && '\r' !in words[1]
    requires |words| > 2 ==> '\n' !in words[2] && '\r' !in words[2]
    requires |words| > 3 ==> '\n' !in words[3] && '\r' !in words[3]
    requires |words| > 4 ==> '\n' !in words[4] && '\r' !in words[4]
    ensures forall i :: 0 <= i < |words| ==> '\n' !in words[i] && '\r' !in words[i]
  {
  }

  lemma KeywordsHaveNoBreak()
    ensures '\n' !in "SPAWN" && '\n' !in "AS" && '\n' !in "QUEUE" && '\n' !in "RESOURCE" && '\n' !in "SET" && '\n' !in "STATE"
    ensures '\r' !in "SPAWN" && '\r' !in "AS" && '\r' !in "QUEUE" && '\r' !in "RESOURCE" && '\r' !in "SET" && '\r' !in "STATE"
  {
  }

  /** A line of words without line breaks has none. */
  lemma LineHasNoBreak(t: int, words: seq<string>)
    requires forall i :: 0 <= i < |words| ==> '\n' !in words[i] && '\r' !in words[i]
    ensures '\n' !in LegacyDemo.LogLine(t, words) && '\r' !in LegacyDemo.LogLine(t, words)
  {
    CharNotInJoin(words, ' ', '\n');
    CharNotInJoin(words, ' ', '\r');
    var s := IntToString(t);
    if t < 0 {
      assert s == "-" + NatToString(-t);
      forall i | 1 <= i < |s| ensures IsDigit(s[i]) {
        assert s[i] == NatToString(-t)[i - 1];
      }
    }
  }

  /** A written log of plain-name commands loads in the legacy viewer as
      their events, sorted by time (ties in written order). */
  lemma LogLoads(cs: seq<Command>)
    requires forall i :: 0 <= i < |cs| ==> CommandOk(cs[i])
    ensures LegacyDemo.LoadLog(Join(Map(Written, cs), '\n')) == Ok(LegacyDemo.SortByTime(Map(Event, cs)))
  {
    var lines := Map(Written, cs);
    if |cs| == 0 {
      assert Join(lines, '\n') == "";
      EmptyLogLoads();
    } else {
      LinesRead(cs);
      LegacyDemo.LinesOfJoin(lines);
      LegacyDemo.ParseLinesOfEvents(lines, Map(Event, cs));
      LoadOfParsed(Join(lines, '\n'), Map(Event, cs));
    }
  }

  lemma LoadOfParsed(text: string, events: seq<LegacyDemo.LogEvent>)
    requires LegacyDemo.ParseLines(Lines(text)) == Ok(events)
    ensures LegacyDemo.LoadLog(text) == Ok(LegacyDemo.SortByTime(events))
  {
  }

  /** An empty output is one empty line, which yields no event. */
  lemma EmptyLogLoads()
    ensures LegacyDemo.LoadLog("") == Ok([])
  {
    assert Lines("") == [""];
    assert LegacyDemo.ParseLogLine("") == Ok(None);
    assert LegacyDemo.ParseLines([""]) == Ok([]);
  }

  /** Each written line reads back as its command's event. */
  lemma LinesRead(cs: seq<Command>)
    requires forall i :: 0 <= i < |cs| ==> CommandOk(cs[i])
    ensures forall i :: 0 <= i < |cs| ==>
      LegacyDemo.ParseLogLine(Map(Written, cs)[i]) == Ok(Some(Map(Event, cs)[i]))
      && '\n' !in Map(Written, cs)[i] && '\r' !in Map(Written, cs)[i]
  {
    forall i | 0 <= i < |cs|
      ensures LegacyDemo.ParseLogLine(Written(cs[i])) == Ok(Some(Event(cs[i])))
      ensures '\n' !in Written(cs[i]) && '\r' !in Written(cs[i])
    {
      CommandReads(cs[i]);
    }
  }

  /** Every command of a run names a plain id. */
  lemma {:induction false} RunLogOk(p: Params, t: int, n: nat, a: seq<int>, k: nat)
    requires k <= |a|
    ensures forall i :: 0 <= i < |RunLog(p, t, n, a, k)| ==> CommandOk(RunLog(p, t, n, a, k)[i])
  {
    if k > 0 {
      RunLogOk(p, t, n, a, k - 1);
      CustomerIdIsPlain(n + k - 1);
    }
  }

  /** The generator's output loads in the legacy viewer, as the run's
      events in time order. */
  lemma RunOutputLoads(p: Params, t: int, n: nat, a: seq<int>)
    ensures LegacyDemo.LoadLog(Join(Map(Written, RunLog(p, t, n, a, |a|)), '\n'))
         == Ok(LegacyDemo.SortByTime(Map(Event, RunLog(p, t, n, a, |a|))))
  {
    RunLogOk(p, t, n, a, |a|);
    LogLoads(RunLog(p, t, n, a, |a|));
  }

  /** The main viewer's parser does not know SPAWN: a SPAWN line yields no
      event there. */
  lemma SpawnUnknownToMainParser(t: int, id: string, view: LogEvents.SetupView, f: LogEvents.LogFields)
    requires LegacyDemo.PlainName(id)
    ensures LogLoading.LineSpec(Written(SpawnCmd(t, id)), view, f) == (LogEvents.NoMatch, f)
  {
    var words := Words(SpawnCmd(t, id));
    SpawnLineSplits(t, id);
    ParseDoubleOfIntToString(t);
    SpawnIsNoCandidate(t as real, words, view, f);
  }

  /** A SPAWN line splits into its number and its four words. */
  lemma SpawnLineSplits(t: int, id: string)
    requires LegacyDemo.PlainName(id)
    ensures var words := Words(SpawnCmd(t, id));
      SplitAtFirst(Written(SpawnCmd(t, id)), LogLoading.LINE_SEPARATOR) == Some((IntToString(t), Join(words, ' ')))
      && Split(Join(words, ' '), ' ') == words
  {
    var words := Words(SpawnCmd(t, id));
    LegacyDemo.NoColonInNumber(t);
    SplitAtFirstAfter(IntToString(t), LogLoading.LINE_SEPARATOR, Join(words, ' '));
    SpawnWordsRejoin(t, id);
  }

  lemma SpawnWordsRejoin(t: int, id: string)
    requires LegacyDemo.PlainName(id)
    ensures Split(Join(Words(SpawnCmd(t, id)), ' '), ' ') == Words(SpawnCmd(t, id))
  {
    var words := Words(SpawnCmd(t, id));
    var e, d := Quote(EntityType), Quote(id);
    NamesArePlain();
    LegacyDemo.QuotedWord(EntityType);
    LegacyDemo.QuotedWord(id);
    LegacyDemo.KeywordsHaveNoSpace();
    assert words == ["SPAWN", e, "AS", d];
    assert ' ' !in words[0] && ' ' !in words[1] && ' ' !in words[2] && ' ' !in words[3];
    LegacyDemo.Separated(words);
    SplitOfJoin(words, ' ');
  }

  /** No candidate of the main parser starts with SPAWN. */
  lemma SpawnIsNoCandidate(time: real, toks: seq<string>, view: LogEvents.SetupView, f: LogEvents.LogFields)
    requires |toks| > 0 && toks[0] == "SPAWN"
    ensures LogLoading.CandidatesSpec(time, toks, view, f) == (LogEvents.NoMatch, f)
  {
    SpawnIsNoMainKeyword();
  }

  lemma SpawnIsNoMainKeyword()
    ensures "SPAWN" != LogEvents.KEYWORD_OBJECT && "SPAWN" != LogEvents.KEYWORD_QUEUE
    ensures "SPAWN" != LogEvents.KEYWORD_RESOURCE && "SPAWN" != LogEvents.KEYWORD_MOVE
    ensures "SPAWN" != LogEvents.KEYWORD_START && "SPAWN" != LogEvents.KEYWORD_STOP
  {
    assert "SPAWN"[0] != LogEvents.KEYWORD_OBJECT[0] && "SPAWN"[0] != LogEvents.KEYWORD_QUEUE[0];
    assert "SPAWN"[0] != LogEvents.KEYWORD_RESOURCE[0] && "SPAWN"[0] != LogEvents.KEYWORD_MOVE[0];
    assert "SPAWN"[1] != LogEvents.KEYWORD_START[1] && |"SPAWN"| != |LogEvents.KEYWORD_STOP|;
  }

  // ------------------------------------------------------- the generator

  class PharmacySimulation {
    const serviceTime: int
    const busyTime: int
    const arrivalMin: int
    const arrivalMax: int
    const customerCount: int
    var queue: seq<Customer>
    var currentTime: int
    var commands: seq<string>
    var entityCounter: nat
    var pharmacistBusy: bool
    var customers: seq<int>
    /** The commands logged so far, of which `commands` holds the lines. */
    ghost var log: seq<Command>

    function Parameters(): Params
    {
      Params(serviceTime, busyTime, arrivalMin, arrivalMax, customerCount)
    }

    /** Between calls the queue is empty and the pharmacist not busy. */
    ghost predicate Settled()
      reads this
    {
      queue == [] && !pharmacistBusy
    }

    /** The lines are the rendering of the logged commands. */
    ghost predicate Logged()
      reads this`commands, this`log
    {
      Renders(commands, log)
    }

    /** The constructor with the draws generateArrivals takes from
        Math.random(). */
    constructor (serviceTime: int, busyTime: int, arrivalMin: int, arrivalMax: int, customerCount: int, draws: seq<real>)
      requires Rounds(customerCount) <= |draws|
      ensures Parameters() == Params(serviceTime, busyTime, arrivalMin, arrivalMax, customerCount)
      ensures Settled() && currentTime == 0 && commands == [] && entityCounter == 0
      ensures Logged() && log == []
      ensures customers == Arrivals(Parameters(), draws, Rounds(customerCount))
    {
      this.serviceTime := serviceTime;
      this.busyTime := busyTime;
      this.arrivalMin := arrivalMin;
      this.arrivalMax := arrivalMax;
      this.customerCount := customerCount;
      queue := [];
      currentTime := 0;
      commands := [];
      entityCounter := 0;
      pharmacistBusy := false;
      customers := [];
      log := [];
      new;
      GenerateArrivals(draws);
    }

    /** logCommand: one more line, "<timestamp>: <command>". */
    method LogCommand(timestamp: int, command: string)
      modifies this`commands
      ensures commands == old(commands) + [LogLine(timestamp, command)]
    {
      commands := commands + [LogLine(timestamp, command)];
    }

    /** generateArrivals: one running-sum arrival per customer. */
    method GenerateArrivals(draws: seq<real>)
      requires Rounds(customerCount) <= |draws|
      modifies this`customers
      ensures customers == old(customers) + Arrivals(Parameters(), draws, Rounds(customerCount))
    {
      var arrivalTime := 0;
      var i := 0;
      while i < customerCount
        invariant 0 <= i <= Rounds(customerCount)
        invariant customers == old(customers) + Arrivals(Parameters(), draws, i)
        invariant arrivalTime == if i == 0 then 0 else ArrivalAt(Parameters(), draws, i - 1)
      {
        arrivalTime := arrivalTime + ArrivalGap(Parameters(), draws[i]);
        customers := customers + [arrivalTime];
        i := i + 1;
      }
    }

    /** logCommand for one of the generator's commands, its text being
        the template's. */
    method Log(c: Command)
      requires Logged()
      modifies this`commands, this`log
      ensures Logged() && log == old(log) + [c]
    {
      LogCommand(c.time, CommandText(c));
      log := log + [c];
    }

    /** processQueue: serve the queue from its front, logging each
        service; the pharmacist is not busy afterwards. */
    method ProcessQueue()
      requires Logged()
      modifies this`queue, this`currentTime, this`commands, this`pharmacistBusy, this`log
      ensures Settled() && Logged()
      ensures log == old(log) + ServiceLog(Parameters(), old(currentTime), old(queue), |old(queue)|)
      ensures currentTime == ServiceEnd(Parameters(), old(currentTime), old(queue), |old(queue)|)
    {
      ghost var q0, t0, l0 := queue, currentTime, log;
      ghost var i := 0;
      assert ServiceLog(Parameters(), t0, q0, 0) == [];
      AppendNil(log, ServiceLog(Parameters(), t0, q0, 0));
      while |queue| > 0
        invariant 0 <= i <= |q0| && queue == q0[i..]
        invariant Logged() && log == l0 + ServiceLog(Parameters(), t0, q0, i)
        invariant currentTime == ServiceEnd(Parameters(), t0, q0, i)
        decreases |queue|
      {
        ghost var before := log;
        assert queue[0] == q0[i];
        ServeFront();
        assert ServiceLog(Parameters(), t0, q0, i + 1)
          == ServiceLog(Parameters(), t0, q0, i) + Served(Parameters(), ServiceEnd(Parameters(), t0, q0, i), q0[i]);
        Assoc(l0, ServiceLog(Parameters(), t0, q0, i), Served(Parameters(), ServiceEnd(Parameters(), t0, q0, i), q0[i]));
        i := i + 1;
      }
      pharmacistBusy := false;
    }

    /** One round of processQueue's loop: the front customer leaves the
        queue and is served from max(currentTime, arrivalTime). */
    method ServeFront()
      requires |queue| > 0 && Logged()
      modifies this`queue, this`currentTime, this`commands, this`pharmacistBusy, this`log
      ensures pharmacistBusy && queue == old(queue)[1..] && Logged()
      ensures currentTime == DoneAt(Parameters(), old(currentTime), old(queue)[0])
      ensures log == old(log) + Served(Parameters(), old(currentTime), old(queue)[0])
    {
      var c := queue[0];
      queue := queue[1..];
      var serviceStartTime := ServiceStart(currentTime, c);
      pharmacistBusy := true;
      currentTime := serviceStartTime;
      Log(LeaveCmd(serviceStartTime, c.entityId));
      Log(StateCmd(serviceStartTime, Active));
      currentTime := currentTime + serviceTime;
      Log(StateCmd(currentTime, Busy));
      currentTime := currentTime + busyTime;
      Log(StateCmd(currentTime, Idle));
    }

    /** run: per arrival a new entity id, SPAWN and QUEUE JOIN at its
        arrival, queued and served at once (the pharmacist is never busy
        here); the log joined by newlines is the console output. */
    method Run() returns (output: string)
      requires Settled() && Logged()
      modifies this`queue, this`currentTime, this`commands, this`pharmacistBusy, this`entityCounter, this`log
      ensures Settled() && Logged() && entityCounter == old(entityCounter) + |customers|
      ensures log == old(log) + RunLog(Parameters(), old(currentTime), old(entityCounter), customers, |customers|)
      ensures commands == old(commands) + Map(Written, RunLog(Parameters(), old(currentTime), old(entityCounter), customers, |customers|))
      ensures currentTime == RunEnd(Parameters(), old(currentTime), old(entityCounter), customers, |customers|)
      ensures output == Join(commands, '\n')
    {
      ghost var n0, t0, l0 := entityCounter, currentTime, log;
      ghost var p := Parameters();
      AppendNil(log, RunLog(p, t0, n0, customers, 0));
      for k := 0 to |customers|
        invariant Settled() && Logged() && entityCounter == n0 + k
        invariant log == l0 + RunLog(p, t0, n0, customers, k)
        invariant currentTime == RunEnd(p, t0, n0, customers, k)
      {
        ghost var c := RunCustomer(n0, customers, k);
        ghost var t := currentTime;
        ghost var prev := RunLog(p, t0, n0, customers, k);
        assert c == Customer(CustomerId(entityCounter), customers[k]);
        Arrive(customers[k]);
        RunStep(p, t0, n0, customers, k);
        Assoc3(l0, prev, Arrived(c), Served(p, t, c));
      }
      RendersMap(old(commands), l0);
      RendersMap(commands, log);
      LogExtends(Written, l0, RunLog(Parameters(), t0, n0, customers, |customers|), old(commands), commands);
      output := Join(commands, '\n');
    }

    /** One round of run's loop: the next entity arrives, is spawned and
        joins the queue, which is served at once as the pharmacist is free. */
    method Arrive(arrivalTime: int)
      requires Settled() && Logged()
      modifies this`queue, this`currentTime, this`commands, this`pharmacistBusy, this`entityCounter, this`log
      ensures Settled() && Logged() && entityCounter == old(entityCounter) + 1
      ensures log == old(log) + Arrived(Customer(CustomerId(old(entityCounter)), arrivalTime))
        + Served(Parameters(), old(currentTime), Customer(CustomerId(old(entityCounter)), arrivalTime))
      ensures currentTime == DoneAt(Parameters(), old(currentTime), Customer(CustomerId(old(entityCounter)), arrivalTime))
    {
      var entityId := CustomerId(entityCounter);
      ghost var c := Customer(entityId, arrivalTime);
      entityCounter := entityCounter + 1;
      Log(SpawnCmd(arrivalTime, entityId));
      Log(JoinCmd(arrivalTime, entityId));
      ghost var arrived := log;
      assert arrived == old(log) + Arrived(c);
      queue := queue + [Customer(entityId, arrivalTime)];
      assert queue == [c];
      if !pharmacistBusy {
        ProcessQueue();
      }
      OneServiceLog(Parameters(), old(currentTime), c);
      assert log == arrived + Served(Parameters(), old(currentTime), c);
    }
  }

  /** `lines` are the rendering of `cs`, line by line. */
  ghost predicate Renders(lines: seq<string>, cs: seq<Command>)
  {
    |lines| == |cs| && forall i :: 0 <= i < |cs| ==> lines[i] == Written(cs[i])
  }

  lemma RendersMap(lines: seq<string>, cs: seq<Command>)
    requires Renders(lines, cs)
    ensures lines == Map(Written, cs)
  {
  }

  /** Lines rendered from a log that grew by `x` grew by the lines of `x`. */
  lemma LogExtends<A, B>(f: A -> B, la: seq<A>, x: seq<A>, ca: seq<B>, cb: seq<B>)
    requires ca == Map(f, la) && cb == Map(f, la + x)
    ensures cb == ca + Map(f, x)
  {
    MapAppend(f, la, x);
  }

  /** One more arrival of a run: its arrival and its service are logged
      and the clock moves to the end of its service. */
  lemma RunStep(p: Params, t: int, n: nat, a: seq<int>, k: nat)
    requires k < |a|
    ensures var c := RunCustomer(n, a, k);
      RunLog(p, t, n, a, k + 1) == RunLog(p, t, n, a, k) + Arrived(c) + Served(p, RunEnd(p, t, n, a, k), c)
      && RunEnd(p, t, n, a, k + 1) == DoneAt(p, RunEnd(p, t, n, a, k), c)
  {
  }

  lemma Assoc3<T>(a: seq<T>, b: seq<T>, c: seq<T>, d: seq<T>)
    ensures a + b + c + d == a + (b + c + d)
  {
  }

  lemma AppendNil<T>(a: seq<T>, b: seq<T>)
    requires b == []
    ensures a + b == a
  {
  }

  lemma Assoc<T>(a: seq<T>, b: seq<T>, c: seq<T>)
    ensures a + b + c == a + (b + c)
  {
  }

  /** A queue of one is served in one round. */
  lemma OneServiceLog(p: Params, t: int, c: Customer)
    ensures ServiceLog(p, t, [c], 1) == Served(p, t, c)
    ensures ServiceEnd(p, t, [c], 1) == DoneAt(p, t, c)
  {
  }
}
