// The elevator demo of the stand-alone game module: an elevator serves a
// queue of floor requests one floor per frame, boarding the boxes that wait
// on a floor it stops at and unloading those bound for that floor.
// Random draws are inputs of the operations that use them.

module LegacyElevator {
  import Colors

  /** The building has floors 0 to FloorCount - 1. */
  const FloorCount: int := 16

  /** The request timer is reset to two seconds. */
  const RequestPeriod: real := 2.0

  /** A request to stop at `floor`. */
  datatype FloorRequest = FloorRequest(floor: int, directionUp: bool)

  /** A box to carry from `startFloor` to `targetFloor`. */
  datatype Box = Box(startFloor: int, targetFloor: int, color: Colors.Color)

  /** The random values one new box is made of: the start floor, the
      successive target-floor draws of the retry loop, and three colour
      components. */
  datatype BoxDraw = BoxDraw(start: int, targets: seq<int>, red: real, green: real, blue: real)

  predicate IsFloor(f: int) { 0 <= f < FloorCount }

  /** What the random source promises of a box draw: floors are drawn from
      the building's range, and the retry loop eventually draws a target
      other than the start. */
  predicate DrawOk(d: BoxDraw)
  {
    IsFloor(d.start) && (forall i :: 0 <= i < |d.targets| ==> IsFloor(d.targets[i]))
    && exists i :: 0 <= i < |d.targets| && d.targets[i] != d.start
  }

  /** The index of the first draw that differs from `start`: where the
      do-while retry loop stops. */
  function FirstDifferent(draws: seq<int>, start: int): (i: nat)
    requires exists k :: 0 <= k < |draws| && draws[k] != start
    ensures i < |draws| && draws[i] != start
    ensures forall k :: 0 <= k < i ==> draws[k] == start
  {
    if draws[0] != start then 0
    else
      assert exists k :: 1 <= k < |draws| && draws[k] != start;
      assert exists k :: 0 <= k < |draws[1..]| && draws[1..][k] != start by {
        var k :| 1 <= k < |draws| && draws[k] != start;
        assert draws[1..][k - 1] == draws[k];
      }
      1 + FirstDifferent(draws[1..], start)
  }

  /** The box a draw makes. */
  function DrawnBox(d: BoxDraw): (b: Box)
    requires DrawOk(d)
    ensures b.startFloor == d.start && b.targetFloor != b.startFloor && IsFloor(b.targetFloor)
    ensures b.targetFloor in d.targets
    ensures b.color == Colors.Color(d.red, d.green, d.blue, 1.0)
  {
    Box(d.start, d.targets[FirstDifferent(d.targets, d.start)], Colors.Color(d.red, d.green, d.blue, 1.0))
  }

  /** The boxes waiting at `floor`; an absent key is an empty list. */
  function Waiting(w: map<int, seq<Box>>, floor: int): seq<Box>
  {
    if floor in w then w[floor] else []
  }

  /** getOrPut(floor).add(b): `b` is appended to the list at `floor`, which
      is created when absent. */
  function PutBox(w: map<int, seq<Box>>, floor: int, b: Box): (r: map<int, seq<Box>>)
    ensures floor in r && Waiting(r, floor) == Waiting(w, floor) + [b]
    ensures forall f :: f != floor ==> (f in r <==> f in w) && Waiting(r, f) == Waiting(w, f)
  {
    w[floor := Waiting(w, floor) + [b]]
  }

  /** The boxes of `bs` that stay aboard at `floor`, in order. */
  function Kept(bs: seq<Box>, floor: int): seq<Box>
  {
    if |bs| == 0 then []
    else if bs[|bs| - 1].targetFloor == floor then Kept(bs[..|bs| - 1], floor)
    else Kept(bs[..|bs| - 1], floor) + [bs[|bs| - 1]]
  }

  /** The boxes of `bs` that leave the elevator at `floor`, in order. */
  function Unloaded(bs: seq<Box>, floor: int): seq<Box>
  {
    if |bs| == 0 then []
    else if bs[|bs| - 1].targetFloor == floor then Unloaded(bs[..|bs| - 1], floor) + [bs[|bs| - 1]]
    else Unloaded(bs[..|bs| - 1], floor)
  }

  /** The removeAll pass: every box for `floor`, in order, goes to the
      waiting list at `floor` by getOrPut(floor).add. */
  function UnloadInto(w: map<int, seq<Box>>, floor: int, bs: seq<Box>): map<int, seq<Box>>
  {
    if |bs| == 0 then w
    else if bs[|bs| - 1].targetFloor == floor then PutBox(UnloadInto(w, floor, bs[..|bs| - 1]), floor, bs[|bs| - 1])
    else UnloadInto(w, floor, bs[..|bs| - 1])
  }

  /** The simulation state processNextEvent works on. */
  datatype ElevatorState = ElevatorState(floor: int, requests: seq<FloorRequest>,
                                         aboard: seq<Box>, waiting: map<int, seq<Box>>)

  /** Every floor the state mentions is a floor of the building. */
  predicate InRange(s: ElevatorState)
  {
    IsFloor(s.floor)
    && (forall i :: 0 <= i < |s.requests| ==> IsFloor(s.requests[i].floor))
    && (forall f :: f in s.waiting ==> IsFloor(f))
  }

  /** processNextEvent: nothing without requests; otherwise one floor toward
      the head request, or, being there, the request served. */
  function Step(s: ElevatorState): ElevatorState
  {
    if |s.requests| == 0 then s
    else if s.floor < s.requests[0].floor then s.(floor := s.floor + 1)
    else if s.floor > s.requests[0].floor then s.(floor := s.floor - 1)
    else Arrive(s.(requests := s.requests[1..]))
  }

  /** Stopping at the current floor: the waiting boxes there board (the list
      is emptied, its key kept), then the boxes bound for this floor leave. */
  function Arrive(s: ElevatorState): ElevatorState
  {
    var all := Boarded(s);
    s.(aboard := Kept(all, s.floor), waiting := UnloadInto(Emptied(s), s.floor, all))
  }

  /** The boxes aboard once the waiting ones at the current floor boarded. */
  function Boarded(s: ElevatorState): seq<Box>
  {
    if s.floor in s.waiting then s.aboard + s.waiting[s.floor] else s.aboard
  }

  /** The waiting lists once the one at the current floor is cleared. */
  function Emptied(s: ElevatorState): map<int, seq<Box>>
  {
    if s.floor in s.waiting then s.waiting[s.floor := []] else s.waiting
  }

  /** `n` frames of processNextEvent. */
  function Steps(s: ElevatorState, n: nat): ElevatorState
    decreases n
  {
    if n == 0 then s else Steps(Step(s), n - 1)
  }

  function Distance(a: int, b: int): nat
  {
    if a <= b then b - a else a - b
  }

  /** All boxes on floors 0 .. n-1, as a multiset. */
  function WaitingUpTo(w: map<int, seq<Box>>, n: nat): multiset<Box>
  {
    if n == 0 then multiset{} else WaitingUpTo(w, n - 1) + multiset(Waiting(w, n - 1))
  }

  /** The boxes a run of draws makes. */
  function DrawnBoxes(ds: seq<BoxDraw>): multiset<Box>
    requires forall i :: 0 <= i < |ds| ==> DrawOk(ds[i])
  {
    if |ds| == 0 then multiset{} else DrawnBoxes(ds[..|ds| - 1]) + multiset{DrawnBox(ds[|ds| - 1])}
  }

  /** One more draw makes one more box. */
  lemma DrawnBoxesStep(ds: seq<BoxDraw>, i: nat)
    requires i < |ds| && forall k :: 0 <= k < |ds| ==> DrawOk(ds[k])
    ensures DrawnBoxes(ds[..i + 1]) == DrawnBoxes(ds[..i]) + multiset{DrawnBox(ds[i])}
  {
    assert ds[..i + 1][..i] == ds[..i];
  }

  /** Every box of the simulation, aboard or waiting. */
  function AllBoxes(s: ElevatorState): multiset<Box>
  {
    multiset(s.aboard) + WaitingUpTo(s.waiting, FloorCount)
  }

  // ---------------------------------------------------------------------
  // Properties of processNextEvent

  /** With no request, processNextEvent changes nothing. */
  lemma StepWithoutRequests(s: ElevatorState)
    requires |s.requests| == 0
    ensures Step(s) == s
  {
  }

  /** Away from the head request's floor, the elevator moves one floor
      toward it and nothing else changes. */
  lemma StepMovesTowardHead(s: ElevatorState)
    requires |s.requests| > 0 && s.floor != s.requests[0].floor
    ensures Distance(Step(s).floor, s.requests[0].floor) == Distance(s.floor, s.requests[0].floor) - 1
    ensures Step(s) == s.(floor := Step(s).floor)
  {
  }

  /** The request at the head is served after as many frames as the
      elevator is floors away from it, plus one. */
  lemma {:induction false} HeadServedAfterDistance(s: ElevatorState)
    requires |s.requests| > 0
    ensures Steps(s, Distance(s.floor, s.requests[0].floor) + 1).requests == s.requests[1..]
    ensures Steps(s, Distance(s.floor, s.requests[0].floor) + 1).floor == s.requests[0].floor
    decreases Distance(s.floor, s.requests[0].floor)
  {
    if s.floor != s.requests[0].floor {
      StepMovesTowardHead(s);
      HeadServedAfterDistance(Step(s));
    }
  }

  /** The partition of one removeAll pass: the kept boxes stay, exactly
      those for `floor` go. */
  lemma {:induction false} KeptAndUnloaded(bs: seq<Box>, floor: int)
    ensures multiset(Kept(bs, floor)) + multiset(Unloaded(bs, floor)) == multiset(bs)
    ensures forall b :: b in Kept(bs, floor) <==> b in bs && b.targetFloor != floor
    ensures forall b :: b in Unloaded(bs, floor) <==> b in bs && b.targetFloor == floor
  {
    if |bs| > 0 {
      KeptAndUnloaded(bs[..|bs| - 1], floor);
      assert bs == bs[..|bs| - 1] + [bs[|bs| - 1]];
    }
  }

  /** The removeAll pass appends exactly the unloaded boxes, in order, to
      the list at `floor`, and creates that key only when some box leaves. */
  lemma {:induction false} UnloadIntoAppends(w: map<int, seq<Box>>, floor: int, bs: seq<Box>)
    ensures Waiting(UnloadInto(w, floor, bs), floor) == Waiting(w, floor) + Unloaded(bs, floor)
    ensures floor in UnloadInto(w, floor, bs) <==> floor in w || |Unloaded(bs, floor)| > 0
    ensures forall f :: f != floor ==> (f in UnloadInto(w, floor, bs) <==> f in w)
    ensures forall f :: f != floor ==> Waiting(UnloadInto(w, floor, bs), f) == Waiting(w, f)
  {
    if |bs| > 0 {
      UnloadIntoAppends(w, floor, bs[..|bs| - 1]);
    }
  }

  /** At the head request's floor: the request is removed, the boxes aboard
      are those aboard or waiting here that are bound elsewhere, the list
      here holds exactly the boxes that left, and every other floor's list is
      unchanged. */
  lemma StepServesHead(s: ElevatorState)
    requires |s.requests| > 0 && s.floor == s.requests[0].floor
    ensures Step(s).floor == s.floor && Step(s).requests == s.requests[1..]
    ensures Step(s).aboard == Kept(s.aboard + Waiting(s.waiting, s.floor), s.floor)
    ensures forall b :: b in Step(s).aboard <==> (b in s.aboard || b in Waiting(s.waiting, s.floor)) && b.targetFloor != s.floor
    ensures Waiting(Step(s).waiting, s.floor) == Unloaded(s.aboard + Waiting(s.waiting, s.floor), s.floor)
    ensures forall f :: f != s.floor ==> (f in Step(s).waiting <==> f in s.waiting)
    ensures forall f :: f != s.floor ==> Waiting(Step(s).waiting, f) == Waiting(s.waiting, f)
  {
    var t := s.(requests := s.requests[1..]);
    assert Boarded(t) == s.aboard + Waiting(s.waiting, s.floor);
    KeptAndUnloaded(Boarded(t), s.floor);
    UnloadIntoAppends(Emptied(t), s.floor, Boarded(t));
  }

  /** Two waiting maps with the same lists on floors 0 .. n-1 hold the same
      boxes there. */
  lemma {:induction false} WaitingUpToAgrees(v: map<int, seq<Box>>, w: map<int, seq<Box>>, n: nat)
    requires forall f :: 0 <= f < n ==> Waiting(v, f) == Waiting(w, f)
    ensures WaitingUpTo(v, n) == WaitingUpTo(w, n)
  {
    if n > 0 {
      WaitingUpToAgrees(v, w, n - 1);
    }
  }

  /** Replacing the list at one floor replaces its boxes in the total. */
  lemma {:induction false} WaitingUpToUpdate(w: map<int, seq<Box>>, floor: int, l: seq<Box>, n: nat)
    requires 0 <= floor < n
    ensures WaitingUpTo(w[floor := l], n) + multiset(Waiting(w, floor)) == WaitingUpTo(w, n) + multiset(l)
  {
    if floor == n - 1 {
      WaitingUpToUpdateTop(w, floor, l, n);
    } else {
      WaitingUpToUpdate(w, floor, l, n - 1);
      WaitingUpToUpdateBelow(w, floor, l, n);
    }
  }

  /** WaitingUpToUpdate when `floor` is the highest floor counted. */
  lemma WaitingUpToUpdateTop(w: map<int, seq<Box>>, floor: int, l: seq<Box>, n: nat)
    requires 0 <= floor == n - 1
    ensures WaitingUpTo(w[floor := l], n) + multiset(Waiting(w, floor)) == WaitingUpTo(w, n) + multiset(l)
  {
    var v := w[floor := l];
    WaitingUpToAgrees(v, w, floor);
    assert WaitingUpTo(v, n) == WaitingUpTo(w, floor) + multiset(l);
  }

  /** WaitingUpToUpdate one floor up from a floor above `floor`. */
  lemma WaitingUpToUpdateBelow(w: map<int, seq<Box>>, floor: int, l: seq<Box>, n: nat)
    requires 0 <= floor < n - 1
    requires WaitingUpTo(w[floor := l], n - 1) + multiset(Waiting(w, floor)) == WaitingUpTo(w, n - 1) + multiset(l)
    ensures WaitingUpTo(w[floor := l], n) + multiset(Waiting(w, floor)) == WaitingUpTo(w, n) + multiset(l)
  {
    var v := w[floor := l];
    assert Waiting(v, n - 1) == Waiting(w, n - 1);
    Rearrange(WaitingUpTo(v, n - 1), multiset(Waiting(w, n - 1)), multiset(Waiting(w, floor)),
              WaitingUpTo(w, n - 1), multiset(l));
  }

  /** (a + m) + x == (b + m) + y whenever a + x == b + y. */
  lemma Rearrange(a: multiset<Box>, m: multiset<Box>, x: multiset<Box>, b: multiset<Box>, y: multiset<Box>)
    requires a + x == b + y
    ensures a + m + x == b + m + y
  {
    assert forall e :: (a + m + x)[e] == (a + x)[e] + m[e];
    assert forall e :: (b + m + y)[e] == (b + y)[e] + m[e];
  }

  /** a == b whenever a + x == b + x. */
  lemma Cancel(a: multiset<Box>, b: multiset<Box>, x: multiset<Box>)
    requires a + x == b + x
    ensures a == b
  {
    assert forall e :: a[e] == (a + x)[e] - x[e];
    assert forall e :: b[e] == (b + x)[e] - x[e];
  }

  /** processNextEvent neither creates nor loses a box. */
  lemma StepKeepsBoxes(s: ElevatorState)
    requires InRange(s)
    ensures AllBoxes(Step(s)) == AllBoxes(s)
  {
    if |s.requests| > 0 && s.floor == s.requests[0].floor {
      ArrivalKeepsBoxes(s, Step(s));
    }
  }

  /** The arrival case of StepKeepsBoxes. */
  lemma ArrivalKeepsBoxes(s: ElevatorState, t: ElevatorState)
    requires InRange(s) && |s.requests| > 0 && s.floor == s.requests[0].floor && t == Step(s)
    ensures AllBoxes(t) == AllBoxes(s)
  {
    var all := s.aboard + Waiting(s.waiting, s.floor);
    var u := Unloaded(all, s.floor);
    StepServesHead(s);
    KeptAndUnloaded(all, s.floor);
    WaitingUpToAgrees(t.waiting, s.waiting[s.floor := u], FloorCount);
    WaitingUpToUpdate(s.waiting, s.floor, u, FloorCount);
    Regroup(multiset(t.aboard), WaitingUpTo(t.waiting, FloorCount), multiset(Waiting(s.waiting, s.floor)),
            multiset(u), multiset(s.aboard), WaitingUpTo(s.waiting, FloorCount));
  }

  /** Boxes moved from the waiting lists aboard and back leave the total
      unchanged. */
  lemma Regroup(kept: multiset<Box>, rest: multiset<Box>, here: multiset<Box>, u: multiset<Box>,
                aboard: multiset<Box>, waiting: multiset<Box>)
    requires rest + here == waiting + u && kept + u == aboard + here
    ensures kept + rest == aboard + waiting
  {
    forall e
      ensures (kept + rest)[e] == (aboard + waiting)[e]
    {
      assert rest[e] + here[e] == (rest + here)[e] == (waiting + u)[e] == waiting[e] + u[e];
      assert kept[e] + u[e] == (kept + u)[e] == (aboard + here)[e] == aboard[e] + here[e];
    }
  }

  /** processNextEvent keeps every floor within the building. */
  lemma StepKeepsRange(s: ElevatorState)
    requires InRange(s)
    ensures InRange(Step(s))
  {
    if |s.requests| > 0 && s.floor == s.requests[0].floor {
      StepServesHead(s);
    }
  }

  /** A box put on a floor of the building adds exactly that box. */
  lemma PutBoxAddsBox(s: ElevatorState, b: Box)
    requires IsFloor(b.startFloor)
    ensures AllBoxes(s.(waiting := PutBox(s.waiting, b.startFloor, b))) == AllBoxes(s) + multiset{b}
  {
    var l := Waiting(s.waiting, b.startFloor);
    var t := s.(waiting := PutBox(s.waiting, b.startFloor, b));
    WaitingUpToUpdate(s.waiting, b.startFloor, l + [b], FloorCount);
    assert multiset(l + [b]) == multiset(l) + multiset{b};
    assert WaitingUpTo(t.waiting, FloorCount) + multiset(l) == WaitingUpTo(s.waiting, FloorCount) + multiset{b} + multiset(l);
    Cancel(WaitingUpTo(t.waiting, FloorCount), WaitingUpTo(s.waiting, FloorCount) + multiset{b}, multiset(l));
  }

  /** The elevator car. */
  class Elevator {
    var currentFloor: int

    constructor (floor: int)
      ensures currentFloor == floor
    {
      currentFloor := floor;
    }
  }

  /** The application: the elevator, its request queue, the boxes aboard,
      the waiting lists per floor and the request timer. */
  class ElevatorSimulation {
    const elevator: Elevator
    var eventQueue: seq<FloorRequest>
    var boxes: seq<Box>
    var waitingBoxes: map<int, seq<Box>>
    var requestTimer: real

    function State(): ElevatorState
      reads this, elevator
    {
      ElevatorState(elevator.currentFloor, eventQueue, boxes, waitingBoxes)
    }

    ghost predicate Valid()
      reads this, elevator
    {
      InRange(State())
    }

    constructor ()
      ensures Valid() && fresh(elevator)
      ensures State() == ElevatorState(0, [], [], map[]) && requestTimer == RequestPeriod
    {
      elevator := new Elevator(0);
      eventQueue := [];
      boxes := [];
      waitingBoxes := map[];
      requestTimer := RequestPeriod;
    }

    /** create: five initial boxes. */
    method Create(draws: seq<BoxDraw>)
      requires Valid() && |draws| == 5 && forall i :: 0 <= i < 5 ==> DrawOk(draws[i])
      modifies this`waitingBoxes
      ensures Valid()
      ensures AllBoxes(State()) == AllBoxes(old(State())) + DrawnBoxes(draws)
    {
      ghost var total := AllBoxes(State());
      for i := 0 to 5
        invariant Valid() && AllBoxes(State()) == total + DrawnBoxes(draws[..i])
      {
        ghost var before := AllBoxes(State());
        var b := AddRandomBox(draws[i]);
        DrawnBoxesStep(draws, i);
        assert AllBoxes(State()) == before + multiset{b};
      }
      assert draws[..5] == draws;
    }

    /** render's simulation part: the timer runs down by `delta`; when it
        reaches zero a request and a box are added and it is reset; then one
        frame of processNextEvent. */
    method Render(delta: real, request: FloorRequest, draw: BoxDraw)
      requires Valid() && IsFloor(request.floor) && DrawOk(draw)
      modifies this, elevator
      ensures Valid()
      ensures requestTimer == if old(requestTimer) - delta <= 0.0 then RequestPeriod else old(requestTimer) - delta
      ensures old(requestTimer) - delta > 0.0 ==> State() == Step(old(State()))
      ensures old(requestTimer) - delta <= 0.0 ==>
        State() == Step(old(State()).(requests := old(eventQueue) + [request],
                                      waiting := PutBox(old(waitingBoxes), draw.start, DrawnBox(draw))))
    {
      requestTimer := requestTimer - delta;
      if requestTimer <= 0.0 {
        AddRandomRequest(request.floor, request.directionUp);
        var _ := AddRandomBox(draw);
        requestTimer := RequestPeriod;
      }
      ProcessNextEvent();
    }

    /** addRandomRequest: the drawn request joins the back of the queue. */
    method AddRandomRequest(floor: int, directionUp: bool)
      requires Valid() && IsFloor(floor)
      modifies this`eventQueue
      ensures Valid() && eventQueue == old(eventQueue) + [FloorRequest(floor, directionUp)]
    {
      eventQueue := eventQueue + [FloorRequest(floor, directionUp)];
    }

    /** addRandomBox: target floors are drawn until one differs from the
        start; the box joins the waiting list at its start floor. */
    method AddRandomBox(d: BoxDraw) returns (box: Box)
      requires Valid() && DrawOk(d)
      modifies this`waitingBoxes
      ensures Valid() && box == DrawnBox(d) && box.targetFloor != box.startFloor
      ensures waitingBoxes == PutBox(old(waitingBoxes), d.start, box)
      ensures AllBoxes(State()) == AllBoxes(old(State())) + multiset{box}
    {
      var i := 0;
      var targetFloor := d.targets[0];
      while targetFloor == d.start
        invariant 0 <= i <= FirstDifferent(d.targets, d.start) && targetFloor == d.targets[i]
        decreases FirstDifferent(d.targets, d.start) - i
      {
        i := i + 1;
        targetFloor := d.targets[i];
      }
      box := Box(d.start, targetFloor, Colors.Color(d.red, d.green, d.blue, 1.0));
      PutBoxAddsBox(State(), box);
      waitingBoxes := PutBox(waitingBoxes, d.start, box);
    }

    /** processNextEvent, proved against Step. */
    method ProcessNextEvent()
      requires Valid()
      modifies elevator, this`eventQueue, this`boxes, this`waitingBoxes
      ensures Valid() && State() == Step(old(State()))
    {
      StepKeepsRange(State());
      if |eventQueue| == 0 {
        return;
      }
      var nextRequest := eventQueue[0];
      if elevator.currentFloor < nextRequest.floor {
        elevator.currentFloor := elevator.currentFloor + 1;
      } else if elevator.currentFloor > nextRequest.floor {
        elevator.currentFloor := elevator.currentFloor - 1;
      } else {
        eventQueue := eventQueue[1..];
        var floor := elevator.currentFloor;
        if floor in waitingBoxes {
          boxes := boxes + waitingBoxes[floor];
          waitingBoxes := waitingBoxes[floor := []];
        }
        var kept, waiting := RemoveArrived(boxes, waitingBoxes, floor);
        boxes, waitingBoxes := kept, waiting;
      }
    }
  }

  /** The removeAll pass over the boxes aboard, in order: a box bound for
      `floor` goes to the waiting list there, any other stays. */
  method RemoveArrived(all: seq<Box>, w: map<int, seq<Box>>, floor: int)
      returns (kept: seq<Box>, waiting: map<int, seq<Box>>)
    ensures kept == Kept(all, floor) && waiting == UnloadInto(w, floor, all)
  {
    kept, waiting := [], w;
    for i := 0 to |all|
      invariant kept == Kept(all[..i], floor) && waiting == UnloadInto(w, floor, all[..i])
    {
      assert all[..i + 1][..i] == all[..i];
      if all[i].targetFloor == floor {
        waiting := PutBox(waiting, floor, all[i]);
      } else {
        kept := kept + [all[i]];
      }
    }
    assert all[..|all|] == all;
  }
}
