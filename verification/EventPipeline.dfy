/**
 The event pipeline of one operation: `Operation.push` stamps under one lock and enqueues under
 another, `eventQueue` is an unbounded FIFO, and the pump moves events from it to the channel.

 The machine has one action per lock region (or channel operation), so a run is any interleaving of
 any number of pushers, one pump, a consumer and `close`.
 */
module EventPipeline {
  import opened Wrappers
  import opened Events
  import opened Seqs

  // ----- The queue -----

  datatype Queue = Queue(items: seq<Event>, closed: bool)

  const EMPTY := Queue([], false)

  function Pushed(q: Queue, e: Event): Queue {
    if q.closed then q else q.(items := q.items + [e])
  }

  function Closed(q: Queue): Queue {
    q.(closed := true)
  }

  /** The pump's lock region after its wait loop: the head, or None when the pump returns. */
  function Head(q: Queue): Option<Event> {
    if q.items == [] then None else Some(q.items[0])
  }

  function Tail(q: Queue): Queue {
    if q.items == [] then q else q.(items := q.items[1..])
  }

  /** `eventQueue`, one method per lock region. */
  class EventQueue {
    var items: seq<Event>
    var closed: bool

    ghost function View(): Queue
      reads this
    {
      Queue(items, closed)
    }

    constructor ()
      ensures View() == EMPTY
    {
      items, closed := [], false;
    }

    method Push(e: Event)
      modifies this
      ensures View() == Pushed(old(View()), e)
    {
      if !closed {
        items := items + [e];
      }
    }

    method Close()
      modifies this
      ensures View() == Closed(old(View()))
    {
      closed := true;
    }

    method Take() returns (head: Option<Event>)
      requires items != [] || closed
      modifies this
      ensures head == Head(old(View()))
      ensures View() == Tail(old(View()))
    {
      if items == [] && closed {
        return None;
      }
      head := Some(items[0]);
      items := items[1..];
    }
  }

  function Flat(rounds: seq<seq<Event>>): seq<Event> {
    if rounds == [] then [] else rounds[0] + Flat(rounds[1..])
  }

  method PushAll(q: EventQueue, events: seq<Event>)
    modifies q
    ensures q.closed == old(q.closed)
    ensures q.items == if q.closed then old(q.items) else old(q.items) + events
  {
    for i := 0 to |events|
      invariant q.closed == old(q.closed)
      invariant q.items == if q.closed then old(q.items) else old(q.items) + events[..i]
    {
      q.Push(events[i]);
      assert events[..i + 1] == events[..i] + [events[i]];
    }
    assert events[..|events|] == events;
  }

  /**
   The pump with a consumer that always receives. The lock is free between its rounds: each time the
   pushers of the next round get in, and after the last of them somebody closes the queue. Whatever the
   rounds are, empty ones for which the pump only waits included, it hands over every accepted event
   once and in order, and only then closes the channel by returning.
   */
  method PumpAll(q: EventQueue, rounds: seq<seq<Event>>) returns (out: seq<Event>)
    modifies q
    ensures out == old(q.items) + if old(q.closed) then [] else Flat(rounds)
    ensures q.View() == Queue([], true)
  {
    out := [];
    var todo := rounds;
    ghost var all := q.items + if q.closed then [] else Flat(rounds);
    while true
      invariant q.closed || old(q.closed) == q.closed
      invariant all == out + (q.items + if q.closed then [] else Flat(todo))
      invariant todo != [] ==> q.closed == old(q.closed)
      decreases |todo|, |q.items|
    {
      ghost var before := q.items;
      if todo != [] {
        PushAll(q, todo[0]);
        Regroup(before, todo[0], Flat(todo[1..]));
        todo := todo[1..];
      } else {
        q.Close();
      }
      if q.items == [] && !q.closed {
        continue;
      }
      ghost var items := q.items;
      var head := q.Take();
      if head == None {
        assert out + ([] + []) == out;
        return;
      }
      assert items == [head.value] + q.items;
      TakeOne(out, head.value, q.items, if q.closed then [] else Flat(todo));
      out := out + [head.value];
    }
  }

  lemma TakeOne(out: seq<Event>, e: Event, items: seq<Event>, rest: seq<Event>)
    ensures out + (([e] + items) + rest) == (out + [e]) + (items + rest)
  {
    Regroup([e], items, rest);
    Regroup(out, [e], items + rest);
  }

  // ----- The machine -----

  datatype PumpState = Ready | Sending(event: Event) | Exited

  /**
   `pending` holds the pushes between the stamping lock region and the enqueuing one. `issued`,
   `accepted` and `dropped` are histories: every stamped event, every event the queue took, and
   every event `eventQueue.push` ignored because the queue was closed.
   */
  datatype State = State(
    sequence: nat,
    pending: set<Event>,
    queue: Queue,
    pump: PumpState,
    delivered: seq<Event>,
    issued: seq<Event>,
    accepted: seq<Event>,
    dropped: set<Event>)

  const INIT := State(0, {}, EMPTY, Ready, [], [], [], {})

  datatype Action =
    | Stamp(origin: Origin, payload: Payload)
    | Enqueue(event: Event)
    | Close
    | Take
    | Deliver

  /** The state after an action, or None when the action is not possible yet. */
  function Step(s: State, a: Action): Option<State> {
    match a
    case Stamp(origin, payload) =>
      var e := Event(s.sequence, origin, payload);
      Some(s.(sequence := s.sequence + 1, pending := s.pending + {e}, issued := s.issued + [e]))
    case Enqueue(e) =>
      if e !in s.pending then None
      else
        var t := s.(pending := s.pending - {e}, queue := Pushed(s.queue, e));
        if s.queue.closed then Some(t.(dropped := s.dropped + {e}))
        else Some(t.(accepted := s.accepted + [e]))
    case Close =>
      Some(s.(queue := Closed(s.queue)))
    case Take =>
      if !s.pump.Ready? || (s.queue.items == [] && !s.queue.closed) then None
      else
        (match Head(s.queue)
         case None => Some(s.(pump := Exited))
         case Some(e) => Some(s.(pump := Sending(e), queue := Tail(s.queue))))
    case Deliver =>
      if !s.pump.Sending? then None
      else Some(s.(pump := Ready, delivered := s.delivered + [s.pump.event]))
  }

  function Run(s: State, actions: seq<Action>): Option<State>
    decreases |actions|
  {
    if actions == [] then Some(s)
    else
      match Step(s, actions[0])
      case None => None
      case Some(t) => Run(t, actions[1..])
  }

  // ----- Conservation -----

  /** What the pump has taken and not yet handed over. */
  function InFlight(p: PumpState): seq<Event> {
    if p.Sending? then [p.event] else []
  }

  ghost predicate Conserved(s: State) {
    s.delivered + InFlight(s.pump) + s.queue.items == s.accepted
  }

  /** Every issued event is in exactly one place, and in one position there. */
  ghost predicate Stamped(s: State) {
    && |s.issued| == s.sequence
    && (forall i :: 0 <= i < |s.issued| ==> s.issued[i].sequence == i)
    && (forall e :: e in s.issued <==> Somewhere(s, e))
    && (forall e :: e in s.pending ==> e !in s.accepted && e !in s.dropped)
    && (forall e :: e in s.accepted ==> e !in s.dropped)
    && NoDuplicates(s.accepted)
  }

  predicate Somewhere(s: State, e: Event) {
    e in s.pending || e in s.accepted || e in s.dropped
  }

  /** A step moves events on; only a stamp makes a new one. */
  lemma StepMoves(s: State, a: Action, e: Event)
    requires Step(s, a).Some?
    ensures Somewhere(Step(s, a).value, e) <==>
            Somewhere(s, e) || (a.Stamp? && e == Event(s.sequence, a.origin, a.payload))
  {
  }

  ghost predicate NoDuplicates(events: seq<Event>) {
    forall i, j :: 0 <= i < j < |events| ==> events[i] != events[j]
  }

  ghost predicate ClosedLast(s: State) {
    && (s.pump.Exited? ==> s.queue == Queue([], true))
    && (s.dropped != {} ==> s.queue.closed)
  }

  ghost predicate Inv(s: State) {
    Conserved(s) && Stamped(s) && ClosedLast(s)
  }

  lemma StepConserves(s: State, a: Action)
    requires Conserved(s) && ClosedLast(s)
    ensures Step(s, a).Some? ==> Conserved(Step(s, a).value) && ClosedLast(Step(s, a).value)
  {
    match a
    case Enqueue(e) =>
      if e in s.pending && !s.queue.closed {
        var t := Step(s, a).value;
        assert t.delivered + InFlight(t.pump) + t.queue.items
            == (s.delivered + InFlight(s.pump) + s.queue.items) + [e];
      }
    case Take =>
      if s.pump.Ready? && s.queue.items != [] {
        assert s.queue.items == [s.queue.items[0]] + s.queue.items[1..];
      }
    case _ =>
  }

  lemma StepKeepsStamps(s: State, a: Action)
    requires Stamped(s)
    ensures Step(s, a).Some? ==> Stamped(Step(s, a).value)
  {
    if a.Stamp? {
      var e := Event(s.sequence, a.origin, a.payload);
      assert e !in s.issued;
      assert forall f :: f in s.issued + [e] <==> f in s.issued || f == e;
    } else if a.Enqueue? {
      assert forall f :: f in s.accepted + [a.event] <==> f in s.accepted || f == a.event;
    }
  }

  lemma StepKeepsInv(s: State, a: Action)
    requires Inv(s)
    ensures Step(s, a).Some? ==> Inv(Step(s, a).value)
  {
    StepConserves(s, a);
    StepKeepsStamps(s, a);
  }

  /** On every run, delivered, in flight and queued make up the accepted pushes, in order. */
  lemma {:induction false} RunKeepsInv(s: State, actions: seq<Action>)
    requires Inv(s)
    ensures Run(s, actions).Some? ==> Inv(Run(s, actions).value)
    decreases |actions|
  {
    if actions != [] && Step(s, actions[0]).Some? {
      StepKeepsInv(s, actions[0]);
      RunKeepsInv(Step(s, actions[0]).value, actions[1..]);
    }
  }

  lemma EveryRunConserves(actions: seq<Action>)
    requires Run(INIT, actions).Some?
    ensures var s := Run(INIT, actions).value;
            && s.delivered + InFlight(s.pump) + s.queue.items == s.accepted
            && (s.pump.Exited? ==> s.delivered == s.accepted && s.queue.closed)
  {
    RunKeepsInv(INIT, actions);
  }

  // ----- Stamps -----

  /** On every run the stamps in use are exactly 0..sequence-1, each on exactly one event. */
  lemma StampsAreExactlyTheIssued(actions: seq<Action>)
    requires Run(INIT, actions).Some?
    ensures var s := Run(INIT, actions).value;
            && (forall e :: Somewhere(s, e) ==> e.sequence < s.sequence)
            && (forall e, f :: Somewhere(s, e) && Somewhere(s, f) && e.sequence == f.sequence ==> e == f)
            && (forall n: nat :: n < s.sequence ==> Carried(s, n))
  {
    RunKeepsInv(INIT, actions);
    var s := Run(INIT, actions).value;
    forall n: nat | n < s.sequence
      ensures Carried(s, n)
    {
      assert s.issued[n] in s.issued;
    }
  }

  ghost predicate Carried(s: State, n: nat) {
    exists e :: Somewhere(s, e) && e.sequence == n
  }

  /** No two delivered events carry the same stamp. */
  lemma DeliveredStampsDiffer(actions: seq<Action>, i: nat, j: nat)
    requires Run(INIT, actions).Some?
    requires i < j < |Run(INIT, actions).value.delivered|
    ensures Run(INIT, actions).value.delivered[i].sequence != Run(INIT, actions).value.delivered[j].sequence
  {
    RunKeepsInv(INIT, actions);
    var s := Run(INIT, actions).value;
    assert s.accepted[i] == s.delivered[i] && s.accepted[j] == s.delivered[j];
    assert s.accepted[i] in s.issued && s.accepted[j] in s.issued;
  }

  // ----- Order -----

  /** A run in which no push starts while another is between its two lock regions. */
  function RunOfSinglePushes(s: State, actions: seq<Action>): Option<State>
    decreases |actions|
  {
    if actions == [] then Some(s)
    else if actions[0].Stamp? && s.pending != {} then None
    else
      match Step(s, actions[0])
      case None => None
      case Some(t) => RunOfSinglePushes(t, actions[1..])
  }

  ghost predicate InOrder(s: State) {
    && (forall i :: 0 <= i < |s.accepted| ==> s.accepted[i].sequence == i)
    && (!s.queue.closed && s.pending == {} ==> s.sequence == |s.accepted|)
    && (!s.queue.closed && s.pending != {} ==>
          exists e :: s.pending == {e} && e.sequence == |s.accepted| == s.sequence - 1)
  }

  lemma SinglePushKeepsOrder(s: State, a: Action)
    requires InOrder(s)
    requires a.Stamp? ==> s.pending == {}
    ensures Step(s, a).Some? ==> InOrder(Step(s, a).value)
  {
  }

  lemma {:induction false} SinglePushesStayInOrder(s: State, actions: seq<Action>)
    requires Inv(s) && InOrder(s)
    ensures RunOfSinglePushes(s, actions).Some? ==>
              Inv(RunOfSinglePushes(s, actions).value) && InOrder(RunOfSinglePushes(s, actions).value)
    decreases |actions|
  {
    if actions != [] && !(actions[0].Stamp? && s.pending != {}) && Step(s, actions[0]).Some? {
      StepKeepsInv(s, actions[0]);
      SinglePushKeepsOrder(s, actions[0]);
      SinglePushesStayInOrder(Step(s, actions[0]).value, actions[1..]);
    }
  }

  /** When no two pushes overlap, the i-th delivered event has sequence number i. */
  lemma DeliveredByNumber(actions: seq<Action>, i: nat)
    requires RunOfSinglePushes(INIT, actions).Some?
    requires i < |RunOfSinglePushes(INIT, actions).value.delivered|
    ensures RunOfSinglePushes(INIT, actions).value.delivered[i].sequence == i
  {
    SinglePushesStayInOrder(INIT, actions);
    var s := RunOfSinglePushes(INIT, actions).value;
    assert s.delivered[i] == s.accepted[i];
  }

  /** Without that assumption the order can differ: two overlapping pushes arrive swapped. */
  lemma OverlapCanSwap()
    ensures exists actions ::
              && Run(INIT, actions).Some?
              && |Run(INIT, actions).value.delivered| == 1
              && Run(INIT, actions).value.delivered[0].sequence == 1
  {
    var e0 := Event(0, Engine, Other("a"));
    var e1 := Event(1, Host, Other("b"));
    var a0, a1, a2, a3, a4 :=
      Stamp(Engine, Other("a")), Stamp(Host, Other("b")), Enqueue(e1), Take, Deliver;
    var s0 := Step(INIT, a0).value;
    var s1 := Step(s0, a1).value;
    var s2 := Step(s1, a2).value;
    var s3 := Step(s2, a3).value;
    var s4 := Step(s3, a4).value;
    assert s4.delivered == [e1];
    var acts := [a0, a1, a2, a3, a4];
    assert acts[1..] == [a1, a2, a3, a4] && acts[1..][1..] == [a2, a3, a4];
    assert acts[1..][1..][1..] == [a3, a4] && acts[1..][1..][1..][1..] == [a4];
    assert Run(s4, []) == Some(s4);
    assert Run(s3, [a4]) == Some(s4);
    assert Run(s2, [a3, a4]) == Some(s4);
    assert Run(s1, [a2, a3, a4]) == Some(s4);
    assert Run(s0, [a1, a2, a3, a4]) == Some(s4);
    assert Run(INIT, acts) == Some(s4);
  }

  // ----- Refinement to a FIFO -----

  /** The FIFO a producer and the consumer see: accepted and not yet delivered. */
  function Fifo(s: State): seq<Event> {
    InFlight(s.pump) + s.queue.items
  }

  /**
   Seen from outside, an open queue is a FIFO: enqueuing appends at the back, delivering removes the
   front, and no other action changes what is waiting.
   */
  lemma StepRefinesFifo(s: State, a: Action)
    requires Inv(s) && Step(s, a).Some?
    ensures var t := Step(s, a).value;
            match a
            case Enqueue(e) => Fifo(t) == if s.queue.closed then Fifo(s) else Fifo(s) + [e]
            case Deliver => |t.delivered| == |s.delivered| + 1
                            && Fifo(s) == [t.delivered[|s.delivered|]] + Fifo(t)
                            && s.delivered <= t.delivered
            case _ => Fifo(t) == Fifo(s) && t.delivered == s.delivered
  {
    if a.Take? && s.queue.items != [] {
      assert s.queue.items == [s.queue.items[0]] + s.queue.items[1..];
    }
  }

  /** After `close` no push is accepted any more, on any continuation. */
  lemma {:induction false} ClosedFreezesAccepted(s: State, actions: seq<Action>)
    requires s.queue.closed && Run(s, actions).Some?
    ensures Run(s, actions).value.accepted == s.accepted && Run(s, actions).value.queue.closed
    decreases |actions|
  {
    if actions != [] {
      ClosedFreezesAccepted(Step(s, actions[0]).value, actions[1..]);
    }
  }

  /** Once the channel is closed everything accepted was delivered, and stays so on every continuation. */
  lemma ChannelClosesAfterTheLastEvent(actions: seq<Action>, more: seq<Action>)
    requires Run(INIT, actions).Some? && Run(INIT, actions).value.pump.Exited?
    requires Run(Run(INIT, actions).value, more).Some?
    ensures var s, t := Run(INIT, actions).value, Run(Run(INIT, actions).value, more).value;
            t.delivered == t.accepted == s.accepted
  {
    var s := Run(INIT, actions).value;
    RunKeepsInv(INIT, actions);
    ClosedFreezesAccepted(s, more);
    ExitedStays(s, more);
    RunKeepsInv(s, more);
  }

  lemma {:induction false} ExitedStays(s: State, actions: seq<Action>)
    requires s.pump.Exited? && Run(s, actions).Some?
    ensures Run(s, actions).value.pump.Exited?
    decreases |actions|
  {
    if actions != [] {
      ExitedStays(Step(s, actions[0]).value, actions[1..]);
    }
  }

  lemma RunOn(s: State, a: Action, actions: seq<Action>)
    requires Step(s, a).Some?
    ensures Run(s, [a] + actions) == Run(Step(s, a).value, actions)
  {
    ConsTail(a, actions);
  }

  /** A closed queue can always be drained: the pump alone hands over everything accepted and closes the channel. */
  lemma {:induction false} ClosedQueueDrains(s: State) returns (more: seq<Action>, t: State)
    requires Inv(s) && s.queue.closed
    ensures forall i :: 0 <= i < |more| ==> more[i] == Take || more[i] == Deliver
    ensures Run(s, more) == Some(t) && t.pump.Exited? && t.delivered == s.accepted
    decreases |s.queue.items|, if s.pump.Sending? then 1 else 0, if s.pump.Exited? then 0 else 1
  {
    if s.pump.Exited? {
      more, t := [], s;
      assert s.delivered + [] + [] == s.delivered;
    } else {
      var a := if s.pump.Sending? then Deliver else Take;
      var u := Step(s, a).value;
      StepKeepsInv(s, a);
      var rest;
      rest, t := ClosedQueueDrains(u);
      more := [a] + rest;
      RunOn(s, a, rest);
    }
  }
}
