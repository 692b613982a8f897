/**
 What becomes of the events the sources hand to `handleEvent`: every one that is not a cancel gets into
 the stream, once, as it was handed over, and those of one goroutine in their order.
 */
module Delivery {
  import opened Wrappers
  import opened Seqs
  import opened Events
  import opened OperationLifecycle
  import P = EventPipeline
  import J = Joins

  /** What a source hands over. */
  type Item = (Origin, Payload)

  const TERMINATOR: Item := (Finish, Cancel)

  // ----- What the sources did -----

  /** The events handed over in a run, cancels excepted. Read off the actions alone. */
  function Offered(actions: seq<Action>): multiset<Item> {
    if actions == [] then multiset{} else OfferedBy(actions[0]) + Offered(actions[1..])
  }

  function OfferedBy(a: Action): multiset<Item> {
    if a.Enter? && a.payload != Cancel then multiset{(a.origin, a.payload)} else multiset{}
  }

  // ----- Where the events are -----

  function OfCall(c: Call): Item {
    (c.origin, c.payload)
  }

  function OfEvent(e: Event): Item {
    (e.origin, e.payload)
  }

  function Items(events: seq<Event>): multiset<Item> {
    if events == [] then multiset{} else Items(events[..|events| - 1]) + multiset{OfEvent(events[|events| - 1])}
  }

  lemma ItemsSnoc(events: seq<Event>, e: Event)
    ensures Items(events + [e]) == Items(events) + multiset{OfEvent(e)}
  {
    assert (events + [e])[..|events|] == events;
  }

  /** The image of a set, with multiplicities. */
  ghost function Image<T(!new)>(s: set<T>, f: T -> Item): multiset<Item> {
    if s == {} then multiset{} else var x :| x in s; Image(s - {x}, f) + multiset{f(x)}
  }

  lemma {:induction false} ImageRemoves<T(!new)>(s: set<T>, f: T -> Item, x: T)
    requires x in s
    ensures Image(s, f) == Image(s - {x}, f) + multiset{f(x)}
    decreases s
  {
    var y :| y in s && Image(s, f) == Image(s - {y}, f) + multiset{f(y)};
    if x != y {
      ImageRemoves(s - {y}, f, x);
      ImageRemoves(s - {x}, f, y);
      assert s - {x} - {y} == s - {y} - {x};
    }
  }

  lemma ImageAdds<T(!new)>(s: set<T>, f: T -> Item, x: T)
    requires x !in s
    ensures Image(s + {x}, f) == Image(s, f) + multiset{f(x)}
  {
    ImageRemoves(s + {x}, f, x);
    assert s + {x} - {x} == s;
  }

  ghost function Entered(s: State): multiset<Item> {
    Image(s.entered, OfCall)
  }

  /** Everything stamped: on its way to the queue, in the stream, or too late for it. */
  ghost function InPipe(p: P.State): multiset<Item> {
    Image(p.pending, OfEvent) + Items(p.accepted) + Image(p.dropped, OfEvent)
  }

  function Terminated(m: Main): multiset<Item> {
    if Terminator(m).Some? then multiset{TERMINATOR} else multiset{}
  }

  // ----- Conservation -----

  ghost predicate FreshIds(s: State) {
    forall c :: c in s.entered ==> c.id < s.calls
  }

  lemma StepKeepsFresh(s: State, a: Action)
    requires FreshIds(s) && Step(s, a).Some?
    ensures FreshIds(Step(s, a).value)
  {
  }

  lemma AddFirst(a: multiset<Item>, b: multiset<Item>, c: multiset<Item>, x: multiset<Item>)
    ensures (a + x) + b + c == (a + b + c) + x
  {
  }

  lemma MoveSecond(a: multiset<Item>, b: multiset<Item>, c: multiset<Item>, x: multiset<Item>)
    ensures (a + x) + b + c == a + (b + x) + c
  {
  }

  lemma MoveThird(a: multiset<Item>, b: multiset<Item>, c: multiset<Item>, x: multiset<Item>)
    ensures (a + x) + b + c == a + b + (c + x)
  {
  }

  lemma StampAdds(p: P.State, e: Event)
    requires P.Inv(p) && e.sequence == p.sequence
    ensures InPipe(P.Step(p, P.Stamp(e.origin, e.payload)).value) == InPipe(p) + multiset{OfEvent(e)}
  {
    assert e !in p.issued;
    assert !P.Somewhere(p, e);
    ImageAdds(p.pending, OfEvent, e);
    AddFirst(Image(p.pending, OfEvent), Items(p.accepted), Image(p.dropped, OfEvent), multiset{OfEvent(e)});
  }

  lemma EnqueueMoves(p: P.State, e: Event)
    requires P.Inv(p) && e in p.pending
    ensures InPipe(P.Step(p, P.Enqueue(e)).value) == InPipe(p)
  {
    var pending := p.pending - {e};
    ImageRemoves(p.pending, OfEvent, e);
    if p.queue.closed {
      assert e !in p.dropped;
      ImageAdds(p.dropped, OfEvent, e);
      MoveThird(Image(pending, OfEvent), Items(p.accepted), Image(p.dropped, OfEvent), multiset{OfEvent(e)});
    } else {
      ItemsSnoc(p.accepted, e);
      MoveSecond(Image(pending, OfEvent), Items(p.accepted), Image(p.dropped, OfEvent), multiset{OfEvent(e)});
    }
  }

  /** What a step of the lifecycle stamps. */
  function StampedBy(a: Action): multiset<Item> {
    match a
    case StampTerminator => multiset{TERMINATOR}
    case StampCall(c) => multiset{OfCall(c)}
    case _ => multiset{}
  }

  /** The pipeline of the next state, as far as it matters here. */
  lemma PipeAfter(s: State, a: Action, t: State)
    requires Step(s, a) == Some(t)
    ensures match a
            case StampTerminator => t.pipe == P.Step(s.pipe, P.Stamp(Finish, Cancel)).value
            case EnqueueTerminator =>
              && s.main.TerminatorStamped? && s.main.terminator in s.pipe.pending
              && t.pipe == P.Step(s.pipe, P.Enqueue(s.main.terminator)).value
            case StampCall(c) => t.pipe == P.Step(s.pipe, P.Stamp(c.origin, c.payload)).value
            case EnqueueCall(e) => e in s.pipe.pending && t.pipe == P.Step(s.pipe, P.Enqueue(e)).value
            case _ => SameParts(s.pipe, t.pipe)
  {
  }

  ghost predicate SameParts(p: P.State, q: P.State) {
    q.pending == p.pending && q.accepted == p.accepted && q.dropped == p.dropped
  }

  lemma SamePartsSameItems(p: P.State, q: P.State)
    requires SameParts(p, q)
    ensures InPipe(q) == InPipe(p) + multiset{}
  {
  }

  lemma PipePart(s: State, a: Action, t: State)
    requires P.Inv(s.pipe) && Step(s, a) == Some(t)
    ensures InPipe(t.pipe) == InPipe(s.pipe) + StampedBy(a)
  {
    PipeAfter(s, a, t);
    match a
    case StampTerminator => StampAdds(s.pipe, Event(s.pipe.sequence, Finish, Cancel));
    case EnqueueTerminator => EnqueueMoves(s.pipe, s.main.terminator);
    case StampCall(c) => StampAdds(s.pipe, Event(s.pipe.sequence, c.origin, c.payload));
    case EnqueueCall(e) => EnqueueMoves(s.pipe, e);
    case _ => SamePartsSameItems(s.pipe, t.pipe);
  }

  lemma CallAfter(s: State, a: Action, t: State)
    requires Step(s, a) == Some(t)
    ensures match a
            case Enter(origin, payload) =>
              t.entered == if payload == Cancel then s.entered else s.entered + {Call(s.calls, origin, payload)}
            case StampCall(c) => c in s.entered && t.entered == s.entered - {c}
            case _ => t.entered == s.entered
  {
  }

  /** What a step takes out of the calls that have not been stamped. */
  function TakenBy(a: Action): multiset<Item> {
    if a.StampCall? then multiset{OfCall(a.call)} else multiset{}
  }

  lemma CallPart(s: State, a: Action, t: State)
    requires FreshIds(s) && Step(s, a) == Some(t)
    ensures Entered(t) + TakenBy(a) == Entered(s) + OfferedBy(a)
  {
    CallAfter(s, a, t);
    match a
    case Enter(origin, payload) =>
      if payload != Cancel {
        ImageAdds(s.entered, OfCall, Call(s.calls, origin, payload));
      }
    case StampCall(c) => ImageRemoves(s.entered, OfCall, c);
    case _ =>
  }

  ghost predicate Conserved(s: State, offered: multiset<Item>) {
    Entered(s) + InPipe(s.pipe) == offered + Terminated(s.main)
  }

  lemma TerminatedAfter(s: State, a: Action, t: State)
    requires Step(s, a) == Some(t)
    ensures Terminated(t.main) + TakenBy(a) == Terminated(s.main) + StampedBy(a)
  {
    TerminatorAfter(s, a, t);
    match a
    case StampCall(_) =>
    case StampTerminator =>
    case _ =>
  }

  lemma TerminatorAfter(s: State, a: Action, t: State)
    requires Step(s, a) == Some(t)
    ensures a.StampTerminator? ==> Terminator(s.main) == None && Terminator(t.main).Some?
    ensures !a.StampTerminator? ==> Terminator(t.main) == Terminator(s.main)
  {
  }

  lemma Balance(
    e: multiset<Item>, f: multiset<Item>, p: multiset<Item>, q: multiset<Item>, o: multiset<Item>,
    more: multiset<Item>, taken: multiset<Item>, stamped: multiset<Item>, m: multiset<Item>, n: multiset<Item>)
    requires e + p == o + m && f + taken == e + more && q == p + stamped && n + taken == m + stamped
    ensures f + q == (o + more) + n
  {
    forall x: Item
      ensures (f + q)[x] == ((o + more) + n)[x]
    {
      assert (e + p)[x] == (o + m)[x] && (f + taken)[x] == (e + more)[x];
      assert q[x] == (p + stamped)[x] && (n + taken)[x] == (m + stamped)[x];
    }
  }

  lemma StepConserves(s: State, a: Action, t: State, offered: multiset<Item>)
    requires P.Inv(s.pipe) && FreshIds(s) && Conserved(s, offered) && Step(s, a) == Some(t)
    ensures Conserved(t, offered + OfferedBy(a))
  {
    PipePart(s, a, t);
    CallPart(s, a, t);
    TerminatedAfter(s, a, t);
    Balance(Entered(s), Entered(t), InPipe(s.pipe), InPipe(t.pipe), offered, OfferedBy(a), TakenBy(a),
            StampedBy(a), Terminated(s.main), Terminated(t.main));
  }

  ghost predicate Inv(s: State) {
    P.Inv(s.pipe) && FreshIds(s)
  }

  lemma {:induction false} RunConserves(s: State, actions: seq<Action>, offered: multiset<Item>)
    requires Inv(s) && Conserved(s, offered) && Run(s, actions).Some?
    ensures Inv(Run(s, actions).value) && Conserved(Run(s, actions).value, offered + Offered(actions))
    decreases |actions|
  {
    if actions == [] {
      assert offered + multiset{} == offered;
    } else {
      var a := actions[0];
      var t := Step(s, a).value;
      StepKeepsPipe(s, a);
      StepKeepsFresh(s, a);
      StepConserves(s, a, t, offered);
      RunConserves(t, actions[1..], offered + OfferedBy(a));
      assert offered + OfferedBy(a) + Offered(actions[1..]) == offered + Offered(actions);
    }
  }

  /**
   On every run: what was handed over, and the terminator once it is stamped, is all there is, in calls
   not stamped yet, on its way to the queue, in the stream, or dropped after `close`.
   */
  lemma EventsAreConserved(actions: seq<Action>)
    requires Run(INIT, actions).Some?
    ensures var s := Run(INIT, actions).value;
            Entered(s) + InPipe(s.pipe) == Offered(actions) + Terminated(s.main)
  {
    var s := Reached(actions);
  }

  lemma Reached(actions: seq<Action>) returns (s: State)
    requires Run(INIT, actions).Some?
    ensures Run(INIT, actions) == Some(s) && Inv(s) && Conserved(s, Offered(actions))
  {
    RunConserves(INIT, actions, multiset{});
    assert multiset{} + Offered(actions) == Offered(actions);
    s := Run(INIT, actions).value;
  }

  /** Nobody is inside `handleEvent` any more, and nothing came after `close`. */
  predicate Settled(s: State) {
    s.entered == {} && s.pipe.pending == {} && s.pipe.dropped == {}
  }

  /**
   Once the operation is done and no call is under way or came too late, the stream holds exactly what
   the sources handed over, cancels excepted, and the terminator: nothing is lost, added, doubled or
   altered. When the channel is closed that is also what the consumer has got.
   */
  lemma EveryEventIsInTheStream(actions: seq<Action>)
    requires Run(INIT, actions).Some? && Run(INIT, actions).value.main.Done? && Settled(Run(INIT, actions).value)
    ensures var s := Run(INIT, actions).value;
            && Items(s.pipe.accepted) == Offered(actions) + multiset{TERMINATOR}
            && (s.pipe.pump.Exited? ==> Items(s.pipe.delivered) == Offered(actions) + multiset{TERMINATOR})
  {
    var s := Reached(actions);
    SettledHoldsAll(s, Offered(actions));
  }

  lemma SettledHoldsAll(s: State, offered: multiset<Item>)
    requires Inv(s) && Conserved(s, offered) && s.main.Done? && Settled(s)
    ensures Items(s.pipe.accepted) == offered + multiset{TERMINATOR}
    ensures s.pipe.pump.Exited? ==> s.pipe.delivered == s.pipe.accepted
  {
    NothingElse(s.pipe);
    assert Entered(s) == multiset{};
    if s.pipe.pump.Exited? {
      assert s.pipe.delivered + [] + [] == s.pipe.delivered;
    }
  }

  lemma NothingElse(p: P.State)
    requires p.pending == {} && p.dropped == {}
    ensures InPipe(p) == Items(p.accepted)
  {
  }

  // ----- Nobody is held up -----

  /**
   A source that is open is never held up by the consumer: from every state a run reaches its call goes
   through in three steps of its own and appends its event, with the next number, to the stream.
   */
  lemma CallsNeverWait(actions: seq<Action>, origin: Origin, payload: Payload) returns (more: seq<Action>, t: State)
    requires Run(INIT, actions).Some? && origin in Open(Run(INIT, actions).value.main) && payload != Cancel
    ensures var s := Run(INIT, actions).value;
            && Run(s, more) == Some(t) && |more| == 3 && more[0] == Enter(origin, payload)
            && t.main == s.main && t.entered == s.entered && t.pipe.pending == s.pipe.pending
            && t.pipe.accepted == s.pipe.accepted + [Event(s.pipe.sequence, origin, payload)]
  {
    OperationLifecycle.RunKeepsInv(INIT, actions);
    var s := Reached(actions);
    NotFinish(s, origin);
    more, t := CallGoesThrough(s, origin, payload);
  }

  lemma CallGoesThrough(s: State, origin: Origin, payload: Payload) returns (more: seq<Action>, t: State)
    requires Inv(s) && origin in Open(s.main) && origin != Finish && payload != Cancel && !s.pipe.queue.closed
    ensures Run(s, more) == Some(t) && |more| == 3 && more[0] == Enter(origin, payload)
    ensures t.main == s.main && t.entered == s.entered && t.pipe.pending == s.pipe.pending
    ensures t.pipe.accepted == s.pipe.accepted + [Event(s.pipe.sequence, origin, payload)]
  {
    var c, e := Call(s.calls, origin, payload), Event(s.pipe.sequence, origin, payload);
    var t1 := EnterStep(s, c);
    NewStamp(t1.pipe, e);
    var t2 := StampStep(t1, c, e);
    t := EnqueueStep(t2, e);
    assert t1.entered - {c} == s.entered && t2.pipe.pending - {e} == s.pipe.pending;
    more := [Enter(origin, payload), StampCall(c), EnqueueCall(e)];
    RunThree(s, more[0], more[1], more[2]);
  }

  lemma EnterStep(s: State, c: Call) returns (t: State)
    requires c.origin in Open(s.main) && c.payload != Cancel && c.id == s.calls && FreshIds(s)
    ensures Step(s, Enter(c.origin, c.payload)) == Some(t)
    ensures t.main == s.main && t.pipe == s.pipe && c !in s.entered && t.entered == s.entered + {c}
  {
    t := Step(s, Enter(c.origin, c.payload)).value;
  }

  lemma StampStep(s: State, c: Call, e: Event) returns (t: State)
    requires c in s.entered && e == Event(s.pipe.sequence, c.origin, c.payload)
    ensures Step(s, StampCall(c)) == Some(t)
    ensures t.main == s.main && t.entered == s.entered - {c} && t.pipe.pending == s.pipe.pending + {e}
    ensures t.pipe.queue == s.pipe.queue && t.pipe.accepted == s.pipe.accepted
  {
    t := Step(s, StampCall(c)).value;
  }

  lemma EnqueueStep(s: State, e: Event) returns (t: State)
    requires e in s.pipe.pending && e.origin != Finish && !s.pipe.queue.closed
    ensures Step(s, EnqueueCall(e)) == Some(t)
    ensures t.main == s.main && t.entered == s.entered && t.pipe.pending == s.pipe.pending - {e}
    ensures t.pipe.accepted == s.pipe.accepted + [e]
  {
    t := Step(s, EnqueueCall(e)).value;
  }

  lemma NewStamp(p: P.State, e: Event)
    requires P.Inv(p) && e.sequence == p.sequence
    ensures e !in p.pending
  {
    assert e !in p.issued;
    assert !P.Somewhere(p, e);
  }

  lemma NotFinish(s: State, origin: Origin)
    requires Joined(s) && Placed(s) && origin in Open(s.main)
    ensures origin != Finish && !s.pipe.queue.closed
  {
    var i :| 0 <= i < |Open(s.main)| && Open(s.main)[i] == origin;
    assert SOURCES[i] == origin;
  }

  lemma RunThree(s: State, a: Action, b: Action, c: Action)
    requires Step(s, a).Some? && Step(Step(s, a).value, b).Some?
    ensures Run(s, [a, b, c]) == Step(Step(Step(s, a).value, b).value, c)
  {
    var t := Step(s, a).value;
    ConsTail(a, [b, c]);
    ConsTail(b, [c]);
    assert [a] + [b, c] == [a, b, c] && [b] + [c] == [b, c];
    RunOne(Step(t, b).value, c);
    assert Run(t, [b, c]) == Run(Step(t, b).value, [c]);
  }

  // ----- The order of one goroutine -----

  /** What a single-goroutine source handed over, in order. */
  function Begun(actions: seq<J.Action>, origin: Origin): seq<Payload> {
    if actions == [] then [] else BegunBy(actions[0], origin) + Begun(actions[1..], origin)
  }

  function BegunBy(a: J.Action, origin: Origin): seq<Payload> {
    if a.Begin? && a.origin == origin && a.payload != Cancel then [a.payload] else []
  }

  function OfOrigin(events: seq<Event>, origin: Origin): seq<Payload> {
    if events == [] then []
    else
      var n := |events| - 1;
      OfOrigin(events[..n], origin) + if events[n].origin == origin then [events[n].payload] else []
  }

  lemma OfOriginSnoc(events: seq<Event>, e: Event, origin: Origin)
    ensures OfOrigin(events + [e], origin) ==
            OfOrigin(events, origin) + if e.origin == origin then [e.payload] else []
  {
    assert (events + [e])[..|events|] == events;
  }

  /** The call the goroutine is in. */
  function InHand(w: J.Worker): seq<Payload> {
    match w
    case Idle => []
    case Handling(c) => [c.payload]
    case Pushing(e) => [e.payload]
  }

  /** Nothing was dropped, and the source's events so far are those it began, but for the one in hand. */
  ghost predicate Ordered(s: J.State, origin: Origin, begun: seq<Payload>) {
    s.life.pipe.dropped == {} ==> OfOrigin(s.life.pipe.accepted, origin) + InHand(J.WorkerOf(s, origin)) == begun
  }

  /** What a step of the lifecycle appends to the stream. */
  function AppendedBy(s: State, a: Action): seq<Event> {
    match a
    case EnqueueTerminator => if s.main.TerminatorStamped? then [s.main.terminator] else []
    case EnqueueCall(e) => [e]
    case _ => []
  }

  lemma StreamAfter(s: State, a: Action, t: State)
    requires Step(s, a) == Some(t) && t.pipe.dropped == {}
    ensures s.pipe.dropped == {} && t.pipe.accepted == s.pipe.accepted + AppendedBy(s, a)
  {
  }

  /** The part of what is appended that comes from a source. */
  lemma AppendedOf(s: J.State, a: J.Action, t: J.State, origin: Origin)
    requires J.Inv(s) && Placed(s.life) && J.Single(origin) && J.Step(s, a) == Some(t)
    ensures var more := AppendedBy(s.life, J.Abstract(s, a));
            && |more| <= 1
            && (if a.Push? && a.origin == origin then
                  J.WorkerOf(s, origin).Pushing? && more == [J.WorkerOf(s, origin).event] && more[0].origin == origin
                else more != [] ==> more[0].origin != origin)
  {
  }

  /** What a step does to the call in hand. */
  lemma HandAfter(s: J.State, a: J.Action, t: J.State, origin: Origin)
    requires J.Single(origin) && J.Step(s, a) == Some(t)
    ensures var hand, next := InHand(J.WorkerOf(s, origin)), InHand(J.WorkerOf(t, origin));
            if a.Push? && a.origin == origin then
              J.WorkerOf(s, origin).Pushing? && next == [] && hand == [J.WorkerOf(s, origin).event.payload]
            else next == hand + BegunBy(a, origin)
  {
  }

  lemma {:induction false} OfOriginSum(events: seq<Event>, more: seq<Event>, origin: Origin)
    requires |more| <= 1
    ensures OfOrigin(events + more, origin) ==
            OfOrigin(events, origin) + if more != [] && more[0].origin == origin then [more[0].payload] else []
  {
    if more == [] {
      assert events + more == events;
    } else {
      assert more == [more[0]];
      OfOriginSnoc(events, more[0], origin);
    }
  }

  lemma OrderKept(s: J.State, a: J.Action, t: J.State, origin: Origin, begun: seq<Payload>)
    requires J.Inv(s) && Placed(s.life) && J.Single(origin) && J.Step(s, a) == Some(t)
    requires Ordered(s, origin, begun)
    ensures Ordered(t, origin, begun + BegunBy(a, origin))
  {
    if t.life.pipe.dropped == {} {
      J.StepRefines(s, a);
      StreamAfter(s.life, J.Abstract(s, a), t.life);
      OrderStep(s, a, t, origin, s.life.pipe.accepted, AppendedBy(s.life, J.Abstract(s, a)));
    }
  }

  lemma OrderStep(s: J.State, a: J.Action, t: J.State, origin: Origin, stream: seq<Event>, more: seq<Event>)
    requires J.Inv(s) && Placed(s.life) && J.Single(origin) && J.Step(s, a) == Some(t)
    requires more == AppendedBy(s.life, J.Abstract(s, a))
    ensures OfOrigin(stream + more, origin) + InHand(J.WorkerOf(t, origin)) ==
            OfOrigin(stream, origin) + InHand(J.WorkerOf(s, origin)) + BegunBy(a, origin)
  {
    AppendedOf(s, a, t, origin);
    HandAfter(s, a, t, origin);
    OfOriginSum(stream, more, origin);
    Regroup(OfOrigin(stream, origin), InHand(J.WorkerOf(s, origin)), BegunBy(a, origin));
  }

  ghost predicate InOrder(s: J.State, origin: Origin, begun: seq<Payload>) {
    J.Inv(s) && OperationLifecycle.Inv(s.life) && Ordered(s, origin, begun)
  }

  lemma {:induction false} RunKeepsOrder(s: J.State, actions: seq<J.Action>, origin: Origin, begun: seq<Payload>)
    requires InOrder(s, origin, begun) && J.Single(origin) && J.Run(s, actions).Some?
    ensures InOrder(J.Run(s, actions).value, origin, begun + Begun(actions, origin))
    decreases |actions|
  {
    if actions == [] {
      assert begun + [] == begun;
    } else {
      var a := actions[0];
      var t := J.Step(s, a).value;
      OrderKept(s, a, t, origin, begun);
      J.StepRefines(s, a);
      J.StepKeepsInv(s, a);
      StepKeepsInv(s.life, J.Abstract(s, a));
      RunKeepsOrder(t, actions[1..], origin, begun + BegunBy(a, origin));
      Regroup(begun, BegunBy(a, origin), Begun(actions[1..], origin));
    }
  }

  /**
   The events of the stdout pump, and those of the engine's channel, are in the stream in the order in
   which their goroutine handled them, and all of them but the one in hand, as long as none was dropped.
   */
  lemma SourceKeepsItsOrder(actions: seq<J.Action>, origin: Origin)
    requires J.Run(J.INIT, actions).Some? && J.Single(origin)
    ensures var s := J.Run(J.INIT, actions).value;
            s.life.pipe.dropped == {} ==>
              OfOrigin(s.life.pipe.accepted, origin) + InHand(J.WorkerOf(s, origin)) == Begun(actions, origin)
  {
    var s := ReachedInOrder(actions, origin);
  }

  lemma ReachedInOrder(actions: seq<J.Action>, origin: Origin) returns (s: J.State)
    requires J.Run(J.INIT, actions).Some? && J.Single(origin)
    ensures J.Run(J.INIT, actions) == Some(s) && Ordered(s, origin, Begun(actions, origin))
  {
    StartsInOrder(J.INIT, origin);
    RunKeepsOrder(J.INIT, actions, origin, []);
    assert [] + Begun(actions, origin) == Begun(actions, origin);
    s := J.Run(J.INIT, actions).value;
  }

  lemma StartsInOrder(s: J.State, origin: Origin)
    requires s == J.INIT && J.Single(origin)
    ensures InOrder(s, origin, [])
  {
  }
}
