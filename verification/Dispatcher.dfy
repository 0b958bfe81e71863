/**
 The event dispatcher under concurrent callers. Events carry tickets in the order in which they are
 dispatched. An event goes straight into the channel, or, when the channel is full, into a goroutine
 that keeps trying; the number of such goroutines is bounded with an atomic counter.
 */
module Dispatchers {

  datatype Drop = TimedOut(begin: int, at: int) | AtStop

  /**
   turned holds the callers that found the channel full, admitted and over those that have raised the counter since,
   by what it then said; live holds the goroutines that are trying, leaving those that are done but still counted;
   detoured is the history of all events that did not go straight into the channel.
   */
  datatype State = State(
    limit: nat,
    capacity: nat,
    timeout: int,
    now: int,
    stopped: bool,
    counter: int,
    next: nat,
    queue: seq<nat>,
    delivered: seq<nat>,
    turned: set<nat>,
    admitted: set<nat>,
    over: set<nat>,
    live: set<nat>,
    leaving: set<nat>,
    begun: map<nat, int>,
    dropped: map<nat, Drop>,
    refused: set<nat>,
    detoured: set<nat>)

  datatype Step =
    | Dispatch
    | Count(t: nat)
    | Spawn(t: nat)
    | Refuse(t: nat)
    | Enqueue(t: nat)
    | Expire(t: nat)
    | Abandon(t: nat)
    | Leave(t: nat)
    | Deliver
    | Wait(time: nat)
    | Stop

  function Room(s: State): bool {
    |s.queue| < s.capacity
  }

  function Next(s: State, step: Step): State {
    match step
    case Dispatch =>
      var ticketed := s.(next := s.next + 1);
      if Room(s) then ticketed.(queue := s.queue + [s.next])
      else ticketed.(turned := s.turned + {s.next}, detoured := s.detoured + {s.next})
    case Count(t) =>
      if t !in s.turned then s
      else
        var counted := s.(turned := s.turned - {t}, counter := s.counter + 1);
        if s.counter + 1 <= s.limit then counted.(admitted := s.admitted + {t}) else counted.(over := s.over + {t})
    case Spawn(t) =>
      if t in s.admitted then s.(admitted := s.admitted - {t}, live := s.live + {t}, begun := s.begun[t := s.now]) else s
    case Refuse(t) =>
      if t in s.over then s.(over := s.over - {t}, counter := s.counter - 1, refused := s.refused + {t}) else s
    case Enqueue(t) =>
      if t in s.live && Room(s) then s.(live := s.live - {t}, leaving := s.leaving + {t}, queue := s.queue + [t]) else s
    case Expire(t) =>
      if t in s.live && t in s.begun && s.now - s.begun[t] >= s.timeout
      then s.(live := s.live - {t}, leaving := s.leaving + {t}, dropped := s.dropped[t := TimedOut(s.begun[t], s.now)]) else s
    case Abandon(t) =>
      if t in s.live && s.stopped
      then s.(live := s.live - {t}, leaving := s.leaving + {t}, dropped := s.dropped[t := AtStop]) else s
    case Leave(t) =>
      if t in s.leaving then s.(leaving := s.leaving - {t}, counter := s.counter - 1) else s
    case Deliver =>
      if s.queue != [] then s.(queue := s.queue[1..], delivered := s.delivered + [s.queue[0]]) else s
    case Wait(time) => s.(now := s.now + time)
    case Stop => s.(stopped := true)
  }

  function Run(s: State, steps: seq<Step>): State {
    if steps == [] then s else Next(Run(s, steps[..|steps| - 1]), steps[|steps| - 1])
  }

  predicate Fresh(s: State) {
    && s.counter == 0 && s.next == 0 && s.queue == [] && s.delivered == []
    && s.turned == {} && s.admitted == {} && s.over == {} && s.live == {} && s.leaving == {}
    && s.begun == map[] && s.dropped == map[] && s.refused == {} && s.detoured == {}
  }

  // ---------------------------------------------------------------------------------------------
  // The bound on goroutines

  predicate Bounded(s: State) {
    && s.counter == |s.admitted| + |s.over| + |s.live| + |s.leaving|
    && |s.admitted| + |s.live| + |s.leaving| <= s.limit
  }

  // ---------------------------------------------------------------------------------------------
  // Where an event is

  /** All that went through the channel, in that order. */
  function Order(s: State): seq<nat> {
    s.delivered + s.queue
  }

  /** Every dispatched event is in exactly one place, and no other is anywhere. */
  predicate Located(s: State, t: nat) {
    && (t < s.next <==>
          t in Order(s) || t in s.turned || t in s.admitted || t in s.over || t in s.live || t in s.dropped || t in s.refused)
    && (t in Order(s) ==> t !in s.turned && t !in s.admitted && t !in s.over && t !in s.live && t !in s.dropped && t !in s.refused)
    && (t in s.turned ==> t !in s.admitted && t !in s.over && t !in s.live && t !in s.dropped && t !in s.refused && t !in s.leaving)
    && (t in s.admitted ==> t !in s.over && t !in s.live && t !in s.dropped && t !in s.refused && t !in s.leaving)
    && (t in s.over ==> t !in s.live && t !in s.dropped && t !in s.refused)
    && (t in s.live ==> t !in s.dropped && t !in s.refused && t !in s.leaving)
    && (t in s.dropped ==> t !in s.refused)
    && (t in s.leaving ==> t < s.next)
    && (t in s.turned || t in s.admitted || t in s.over || t in s.live || t in s.dropped || t in s.refused ==> t in s.detoured)
    && (t in s.dropped ==> match s.dropped[t]
                           case TimedOut(begin, at) => at - begin >= s.timeout
                           case AtStop => s.stopped)
  }

  predicate Distinct(list: seq<nat>) {
    forall i, j :: 0 <= i < j < |list| ==> list[i] != list[j]
  }

  predicate Ordered(list: seq<nat>, detoured: set<nat>) {
    forall i, j :: 0 <= i < j < |list| ==> list[i] < list[j] || list[j] in detoured
  }

  /** An event is overtaken only if it took the detour. */
  predicate InOrder(s: State) {
    Ordered(Order(s), s.detoured)
  }

  ghost predicate Invariant(s: State) {
    Bounded(s) && Distinct(Order(s)) && InOrder(s) && forall t: nat :: Located(s, t)
  }

  lemma Gain(a: set<nat>, t: nat)
    ensures t !in a ==> |a + {t}| == |a| + 1
  {
  }

  lemma Lose(a: set<nat>, t: nat)
    requires t in a
    ensures |a - {t}| == |a| - 1
  {
  }

  lemma BoundedMore(s: State, t: nat, s': State)
    requires Bounded(s) && t !in s.admitted && t !in s.over
    requires s'.limit == s.limit && s'.counter == s.counter + 1 && s'.live == s.live && s'.leaving == s.leaving
    requires if s.counter + 1 <= s.limit then s'.admitted == s.admitted + {t} && s'.over == s.over
             else s'.admitted == s.admitted && s'.over == s.over + {t}
    ensures Bounded(s')
  {
    if s.counter + 1 <= s.limit {
      Gain(s.admitted, t);
    } else {
      Gain(s.over, t);
    }
  }

  lemma BoundedSpawn(s: State, t: nat)
    requires Bounded(s) && t in s.admitted && t !in s.live
    ensures Bounded(Next(s, Spawn(t)))
  {
    Lose(s.admitted, t);
    Gain(s.live, t);
  }

  lemma BoundedDone(s: State, t: nat, s': State)
    requires Bounded(s) && t in s.live && t !in s.leaving
    requires s'.live == s.live - {t} && s'.leaving == s.leaving + {t} && s'.admitted == s.admitted && s'.over == s.over
    requires s'.counter == s.counter && s'.limit == s.limit
    ensures Bounded(s')
  {
    Lose(s.live, t);
    Gain(s.leaving, t);
  }

  lemma BoundedLess(s: State, t: nat)
    requires Bounded(s)
    ensures t in s.over ==> Bounded(Next(s, Refuse(t)))
    ensures t in s.leaving ==> Bounded(Next(s, Leave(t)))
  {
    if t in s.over { Lose(s.over, t); }
    if t in s.leaving { Lose(s.leaving, t); }
  }

  lemma BoundedStep(s: State, step: Step)
    requires Bounded(s) && forall t: nat :: Located(s, t)
    ensures Bounded(Next(s, step))
  {
    match step
    case Count(t) => assert Located(s, t); if t in s.turned { BoundedMore(s, t, Next(s, step)); }
    case Spawn(t) => assert Located(s, t); if t in s.admitted { BoundedSpawn(s, t); }
    case Refuse(t) => BoundedLess(s, t);
    case Leave(t) => BoundedLess(s, t);
    case Enqueue(t) => assert Located(s, t); if t in s.live && Room(s) { BoundedDone(s, t, Next(s, step)); }
    case Expire(t) => assert Located(s, t); if Next(s, step) != s && t in s.live { BoundedDone(s, t, Next(s, step)); }
    case Abandon(t) => assert Located(s, t); if Next(s, step) != s && t in s.live { BoundedDone(s, t, Next(s, step)); }
    case _ =>
  }

  lemma OrderStep(s: State, step: Step)
    ensures Order(Next(s, step)) == Order(s) + (if step.Dispatch? && Room(s) then [s.next]
                                                else if step.Enqueue? && step.t in s.live && Room(s) then [step.t] else [])
  {
  }

  lemma LocatedStep(s: State, step: Step, t: nat)
    requires Located(s, t) && Located(s, s.next)
    ensures Located(Next(s, step), t)
  {
    OrderStep(s, step);
  }

  /** What joins the order is new to it, and later than all of it unless it took the detour. */
  lemma Joins(list: seq<nat>, t: nat, detoured: set<nat>)
    requires Distinct(list) && Ordered(list, detoured) && t !in list
    requires t in detoured || forall u: nat :: u in list ==> u < t
    ensures Distinct(list + [t]) && Ordered(list + [t], detoured)
  {
    forall i | 0 <= i < |list| ensures list[i] != t && (t in detoured || list[i] < t) {
      assert list[i] in list;
    }
  }

  lemma EnqueueKeepsOrder(s: State, t: nat)
    requires Distinct(Order(s)) && InOrder(s) && Located(s, t)
    ensures Distinct(Order(Next(s, Enqueue(t)))) && InOrder(Next(s, Enqueue(t)))
  {
    OrderStep(s, Enqueue(t));
    if t in s.live && Room(s) { Joins(Order(s), t, s.detoured); }
  }

  lemma DispatchKeepsOrder(s: State)
    requires Distinct(Order(s)) && InOrder(s) && s.next !in Order(s) && forall u: nat :: u in Order(s) ==> u < s.next
    ensures Distinct(Order(Next(s, Dispatch))) && InOrder(Next(s, Dispatch))
  {
    OrderStep(s, Dispatch);
    if Room(s) { Joins(Order(s), s.next, s.detoured); }
  }

  lemma OrderKept(s: State, step: Step)
    requires Invariant(s)
    ensures Distinct(Order(Next(s, step))) && InOrder(Next(s, step))
  {
    match step
    case Enqueue(t) =>
      assert Located(s, t);
      EnqueueKeepsOrder(s, t);
    case Dispatch =>
      assert Located(s, s.next);
      forall u: nat | u in Order(s) ensures u < s.next { assert Located(s, u); }
      DispatchKeepsOrder(s);
    case _ => OrderStep(s, step);
  }

  lemma InvariantStep(s: State, step: Step)
    requires Invariant(s)
    ensures Invariant(Next(s, step))
  {
    assert Located(s, s.next);
    BoundedStep(s, step);
    forall t: nat ensures Located(Next(s, step), t) {
      assert Located(s, t);
      LocatedStep(s, step, t);
    }
    OrderKept(s, step);
  }

  lemma {:induction false} InvariantRun(s: State, steps: seq<Step>)
    requires Invariant(s)
    ensures Invariant(Run(s, steps))
  {
    if steps != [] {
      InvariantRun(s, steps[..|steps| - 1]);
      InvariantStep(Run(s, steps[..|steps| - 1]), steps[|steps| - 1]);
    }
  }

  /** Over every run of concurrent callers: no more goroutines than the limit, every event in exactly one
      place, and no event overtaken that went straight into the channel. */
  lemma DispatcherIsSafe(s: State, steps: seq<Step>)
    requires Fresh(s)
    ensures var end := Run(s, steps);
            && |end.live| + |end.leaving| <= end.limit
            && Distinct(Order(end)) && InOrder(end)
            && forall t: nat :: Located(end, t)
  {
    forall t: nat ensures Located(s, t) {}
    assert Invariant(s);
    InvariantRun(s, steps);
  }

  /** As long as nothing took the detour, events are delivered in the order they were dispatched. */
  lemma DeliveryIsDispatchOrder(s: State, steps: seq<Step>)
    requires Fresh(s) && Run(s, steps).detoured == {}
    ensures var end := Run(s, steps);
            |Order(end)| == end.next && forall i :: 0 <= i < end.next ==> Order(end)[i] == i
  {
    var end := Run(s, steps);
    DispatcherIsSafe(s, steps);
    forall t: nat ensures t in Order(end) <==> t < end.next { assert Located(end, t); }
    Increasing(Order(end), end.next);
  }

  /** A strictly increasing list of all numbers below n is the list of those numbers. */
  lemma {:induction false} Increasing(list: seq<nat>, n: nat)
    requires forall i, j :: 0 <= i < j < |list| ==> list[i] < list[j]
    requires forall t: nat :: t in list <==> t < n
    ensures |list| == n && forall i :: 0 <= i < n ==> list[i] == i
  {
    if list == [] {
      assert 0 in list <==> 0 < n;
    } else {
      assert list[0] in list;
      var last := |list| - 1;
      assert n - 1 in list;
      assert list[last] == n - 1 by {
        assert list[last] in list;
        var k :| 0 <= k < |list| && list[k] == n - 1;
      }
      var init := list[..last];
      forall t: nat ensures t in init <==> t < n - 1 {
        if t < n - 1 {
          assert t in list;
          var k :| 0 <= k < |list| && list[k] == t;
          assert init[k] == t;
        }
        if t in init {
          var k :| 0 <= k < |init| && init[k] == t;
          assert list[k] < list[last];
        }
      }
      Increasing(init, n - 1);
    }
  }

  // ---------------------------------------------------------------------------------------------
  // Events get through

  /** The main loop takes the events off the channel one by one, each once, and changes nothing else. */
  lemma {:induction false} ChannelDrains(s: State, n: nat)
    requires n <= |s.queue|
    ensures Run(s, seq(n, _ => Deliver)) == s.(delivered := s.delivered + s.queue[..n], queue := s.queue[n..])
  {
    var steps := seq(n, _ => Deliver);
    if n == 0 {
      assert s.delivered + s.queue[..0] == s.delivered;
    } else {
      assert steps[..n - 1] == seq(n - 1, _ => Deliver);
      ChannelDrains(s, n - 1);
      assert s.queue[n - 1..][1..] == s.queue[n..];
      assert s.delivered + s.queue[..n - 1] + [s.queue[n - 1]] == s.delivered + s.queue[..n];
    }
  }

  predicate Apart(step: Step, t: nat) {
    step.Dispatch? || step.Deliver? || step.Wait? || step.Stop? || step.t != t
  }

  ghost predicate AllApart(steps: seq<Step>, t: nat) {
    forall step :: step in steps ==> Apart(step, t)
  }

  datatype Place = Turned | Admitted | Over | Live(begin: int)

  predicate IsAt(s: State, t: nat, place: Place) {
    match place
    case Turned => t in s.turned
    case Admitted => t in s.admitted
    case Over => t in s.over
    case Live(begin) => t in s.live && t in s.begun && s.begun[t] == begin
  }

  lemma ApartStep(s: State, step: Step, t: nat, place: Place)
    requires IsAt(s, t, place) && Apart(step, t)
    ensures IsAt(Next(s, step), t, place) && Next(s, step).limit == s.limit && Next(s, step).timeout == s.timeout
  {
  }

  lemma {:induction false} ApartRun(s: State, steps: seq<Step>, t: nat, place: Place)
    requires IsAt(s, t, place) && AllApart(steps, t)
    ensures IsAt(Run(s, steps), t, place) && Run(s, steps).limit == s.limit && Run(s, steps).timeout == s.timeout
  {
    if steps != [] {
      var init, last := steps[..|steps| - 1], steps[|steps| - 1];
      assert last in steps;
      ApartRun(s, init, t, place);
      ApartStep(Run(s, init), last, t, place);
    }
  }

  /** Dispatching never fails: with room the event is in the channel at once, else its caller is turned away from it. */
  lemma DispatchIsTaken(s: State)
    ensures var s' := Next(s, Dispatch);
            && (Room(s) ==> Order(s') == Order(s) + [s.next] && s'.detoured == s.detoured)
            && (!Room(s) ==> Order(s') == Order(s) && IsAt(s', s.next, Turned))
  {
    assert s.delivered + (s.queue + [s.next]) == Order(s) + [s.next];
  }

  function Counted(s: State, t: nat, others: seq<Step>): State {
    Next(Run(s, others), Count(t))
  }

  /** A caller that is turned away raises the counter, and goes on exactly if it was below the limit; else the counter is
      lowered again and the event refused. */
  lemma LimitDecides(s: State, t: nat, others1: seq<Step>, others2: seq<Step>)
    requires IsAt(s, t, Turned) && AllApart(others1, t) && AllApart(others2, t)
    ensures var before, counted := Run(s, others1), Counted(s, t, others1);
            var later := Run(counted, others2);
            && counted.counter == before.counter + 1
            && if before.counter < s.limit then IsAt(later, t, Admitted)
               else
                 && IsAt(later, t, Over) && t in Next(later, Refuse(t)).refused
                 && Next(later, Refuse(t)).counter == later.counter - 1
  {
    ApartRun(s, others1, t, Turned);
    var before, counted := Run(s, others1), Counted(s, t, others1);
    ApartRun(counted, others2, t, if before.counter < s.limit then Admitted else Over);
  }

  lemma Enters(s: State, t: nat, begin: int)
    requires IsAt(s, t, Live(begin)) && Room(s)
    ensures var entered := Next(s, Enqueue(t));
            && Order(entered) == Order(s) + [t] && entered.counter == s.counter
            && Next(entered, Leave(t)).counter == s.counter - 1
  {
    assert s.delivered + (s.queue + [t]) == Order(s) + [t];
  }

  lemma Expires(s: State, t: nat, begin: int)
    requires IsAt(s, t, Live(begin)) && s.now - begin >= s.timeout
    ensures var expired := Next(s, Expire(t));
            && t in expired.dropped && expired.dropped[t] == TimedOut(begin, s.now)
            && expired.counter == s.counter && Next(expired, Leave(t)).counter == s.counter - 1
  {
  }

  lemma Spawns(s: State, t: nat)
    requires IsAt(s, t, Admitted)
    ensures var spawned := Next(s, Spawn(t));
            IsAt(spawned, t, Live(s.now)) && spawned.timeout == s.timeout
  {
  }

  /** The goroutine of an admitted event enters it in the channel when it finds room; after the timeout it may give up, with
      its own begin on record. Either way it is counted until it leaves. */
  lemma GoroutineEnds(s: State, t: nat, others1: seq<Step>, others2: seq<Step>)
    requires IsAt(s, t, Admitted) && AllApart(others1, t) && AllApart(others2, t)
    ensures var begins := Run(s, others1);
            var tries := Run(Next(begins, Spawn(t)), others2);
            && (Room(tries) ==>
                  var entered := Next(tries, Enqueue(t));
                  && Order(entered) == Order(tries) + [t] && entered.counter == tries.counter
                  && Next(entered, Leave(t)).counter == tries.counter - 1)
            && (tries.now - begins.now >= s.timeout ==>
                  var expired := Next(tries, Expire(t));
                  && t in expired.dropped && expired.dropped[t] == TimedOut(begins.now, tries.now)
                  && expired.counter == tries.counter && Next(expired, Leave(t)).counter == tries.counter - 1)
  {
    ApartRun(s, others1, t, Admitted);
    var begins := Run(s, others1);
    Spawns(begins, t);
    ApartRun(Next(begins, Spawn(t)), others2, t, Live(begins.now));
    var tries := Run(Next(begins, Spawn(t)), others2);
    if Room(tries) { Enters(tries, t, begins.now); }
    if tries.now - begins.now >= s.timeout { Expires(tries, t, begins.now); }
  }

  lemma {:induction false} StaysStopped(s: State, steps: seq<Step>)
    requires s.stopped
    ensures Run(s, steps).stopped
  {
    if steps != [] { StaysStopped(s, steps[..|steps| - 1]); }
  }

  /** Once the dispatcher is stopped, every goroutine that is still trying can give up at any time. */
  lemma StopAbandons(s: State, t: nat, begin: int, others: seq<Step>)
    requires IsAt(s, t, Live(begin)) && AllApart(others, t)
    ensures var end := Next(Run(Next(s, Stop), others), Abandon(t));
            t in end.dropped && end.dropped[t] == AtStop && t in end.leaving
  {
    ApartStep(s, Stop, t, Live(begin));
    ApartRun(Next(s, Stop), others, t, Live(begin));
    StaysStopped(Next(s, Stop), others);
  }
}
