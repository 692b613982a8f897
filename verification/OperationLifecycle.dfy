/**
 The whole life of one operation's event stream: the sources `execute` starts and joins, the
 `handleEvent` calls they make, and the terminator `finish` writes.

 A source is registered while its cleanup is still on `execute`'s defer stack. Returning, which may
 happen after any number of registrations (also before the first), unwinds that stack from the top:
 the engine's channel or sink, the plugin host, and the stdout listener, which is flushed and then
 removed in two separate steps.
 */
module OperationLifecycle {
  import opened Wrappers
  import opened Seqs
  import opened Events
  import P = EventPipeline

  /** The order in which `execute` registers its sources. */
  const SOURCES: seq<Origin> := [Stdout, Host, Engine]

  datatype Main =
    | Executing(open: seq<Origin>)
    | Unwinding(open: seq<Origin>, flushed: bool)
    | Finishing
    | TerminatorStamped(terminator: Event)
    | TerminatorQueued(terminator: Event)
    | QueueClosed(terminator: Event)
    | Done(terminator: Event)

  /** A `handleEvent` call that has passed the cancel check and has not stamped its event yet. */
  datatype Call = Call(id: nat, origin: Origin, payload: Payload)

  /**
   `calls` numbers the `handleEvent` calls; `late` records that stdout was routed to the operation
   after the flush had returned, or was being routed when it returned because its write had failed.
   */
  datatype State = State(main: Main, pipe: P.State, calls: nat, entered: set<Call>, late: bool)

  const INIT := State(Executing([]), P.INIT, 0, {}, false)

  datatype Action =
    | Register
    | Return
    | Join
    | Flush
    | FlushFails
    | Unlisten
    | StartFinish
    | StampTerminator
    | EnqueueTerminator
    | CloseQueue
    | CloseDone
    | Enter(origin: Origin, payload: Payload)
    | StampCall(call: Call)
    | EnqueueCall(event: Event)
    | Take
    | Deliver

  function Open(m: Main): seq<Origin> {
    match m
    case Executing(open) => open
    case Unwinding(open, _) => open
    case _ => []
  }

  /** No `handleEvent` call of this source is under way: what a join waits for. */
  predicate Quiet(s: State, origin: Origin) {
    && (forall c :: c in s.entered ==> c.origin != origin)
    && (forall e :: e in s.pipe.pending ==> e.origin != origin)
  }

  /** The pipeline action an operation action performs, if any. */
  function Pipe(s: State, a: P.Action, t: State): Option<State> {
    match P.Step(s.pipe, a)
    case None => None
    case Some(pipe) => Some(t.(pipe := pipe))
  }

  function Step(s: State, a: Action): Option<State> {
    match a
    case Register =>
      if !s.main.Executing? || |s.main.open| >= |SOURCES| then None
      else Some(s.(main := Executing(s.main.open + [SOURCES[|s.main.open|]])))
    case Return =>
      if !s.main.Executing? then None else Some(s.(main := Unwinding(s.main.open, false)))
    case Join =>
      if !s.main.Unwinding? || s.main.open == [] then None
      else
        var top := s.main.open[|s.main.open| - 1];
        if top == Stdout || !Quiet(s, top) then None
        else Some(s.(main := Unwinding(s.main.open[..|s.main.open| - 1], false)))
    case Flush =>
      if s.main != Unwinding([Stdout], false) || !Quiet(s, Stdout) then None
      else Some(s.(main := Unwinding([Stdout], true)))
    case FlushFails =>
      if s.main != Unwinding([Stdout], false) then None
      else Some(s.(main := Unwinding([Stdout], true), late := s.late || !Quiet(s, Stdout)))
    case Unlisten =>
      if s.main != Unwinding([Stdout], true) then None else Some(s.(main := Unwinding([], false)))
    case StartFinish =>
      if s.main != Unwinding([], false) then None else Some(s.(main := Finishing))
    case StampTerminator =>
      if !s.main.Finishing? then None
      else Pipe(s, P.Stamp(Finish, Cancel), s.(main := TerminatorStamped(Event(s.pipe.sequence, Finish, Cancel))))
    case EnqueueTerminator =>
      if !s.main.TerminatorStamped? then None
      else Pipe(s, P.Enqueue(s.main.terminator), s.(main := TerminatorQueued(s.main.terminator)))
    case CloseQueue =>
      if !s.main.TerminatorQueued? then None
      else Pipe(s, P.Close, s.(main := QueueClosed(s.main.terminator)))
    case CloseDone =>
      if !s.main.QueueClosed? then None else Some(s.(main := Done(s.main.terminator)))
    case Enter(origin, payload) =>
      if origin !in Open(s.main) then None
      else if payload == Cancel then Some(s)
      else
        Some(s.(calls := s.calls + 1,
                entered := s.entered + {Call(s.calls, origin, payload)},
                late := s.late || (origin == Stdout && s.main.Unwinding? && s.main.flushed)))
    case StampCall(c) =>
      if c !in s.entered then None
      else Pipe(s, P.Stamp(c.origin, c.payload), s.(entered := s.entered - {c}))
    case EnqueueCall(e) =>
      if e.origin == Finish then None else Pipe(s, P.Enqueue(e), s)
    case Take => Pipe(s, P.Take, s)
    case Deliver => Pipe(s, P.Deliver, s)
  }

  function Run(s: State, actions: seq<Action>): Option<State>
    decreases |actions|
  {
    if actions == [] then Some(s)
    else
      match Step(s, actions[0])
      case None => None
      case Some(t) => Run(t, actions[1..])
  }

  // ----- The invariant -----

  function Terminator(m: Main): Option<Event> {
    match m
    case TerminatorStamped(t) => Some(t)
    case TerminatorQueued(t) => Some(t)
    case QueueClosed(t) => Some(t)
    case Done(t) => Some(t)
    case _ => None
  }

  /** The only cancel event anywhere is the terminator. */
  ghost predicate OneTerminator(s: State) {
    && (forall c :: c in s.entered ==> c.payload != Cancel && c.origin != Finish)
    && (forall e :: P.Somewhere(s.pipe, e) ==> (e.payload == Cancel <==> e.origin == Finish))
    && (forall e :: P.Somewhere(s.pipe, e) && e.origin == Finish ==> Terminator(s.main) == Some(e))
  }

  /** Where the terminator is, and whether the queue still accepts. */
  ghost predicate Placed(s: State) {
    && (s.pipe.queue.closed <==> s.main.QueueClosed? || s.main.Done?)
    && (forall t :: Terminator(s.main) == Some(t) ==> t.origin == Finish && t.payload == Cancel)
    && (s.main.TerminatorStamped? ==> s.main.terminator in s.pipe.pending)
    && (s.main.TerminatorQueued? || s.main.QueueClosed? || s.main.Done? ==> s.main.terminator in s.pipe.accepted)
  }

  /** Calls under way belong to a source that is still registered, except for late stdout lines. */
  ghost predicate Joined(s: State) {
    && Open(s.main) <= SOURCES
    && (s.main.Unwinding? && s.main.flushed ==> s.main.open == [Stdout])
    && (forall o :: !Quiet(s, o) && o != Finish ==>
          || (o == Stdout && s.late)
          || (o in Open(s.main) && !(o == Stdout && s.main.Unwinding? && s.main.flushed)))
  }

  ghost predicate Inv(s: State) {
    P.Inv(s.pipe) && OneTerminator(s) && Placed(s) && Joined(s)
  }

  lemma StepKeepsPipe(s: State, a: Action)
    requires P.Inv(s.pipe)
    ensures Step(s, a).Some? ==> P.Inv(Step(s, a).value.pipe)
  {
    match a
    case StampTerminator => P.StepKeepsInv(s.pipe, P.Stamp(Finish, Cancel));
    case EnqueueTerminator =>
      if s.main.TerminatorStamped? {
        P.StepKeepsInv(s.pipe, P.Enqueue(s.main.terminator));
      }
    case CloseQueue => P.StepKeepsInv(s.pipe, P.Close);
    case StampCall(c) => P.StepKeepsInv(s.pipe, P.Stamp(c.origin, c.payload));
    case EnqueueCall(e) => P.StepKeepsInv(s.pipe, P.Enqueue(e));
    case Take => P.StepKeepsInv(s.pipe, P.Take);
    case Deliver => P.StepKeepsInv(s.pipe, P.Deliver);
    case _ =>
  }

  /** The event a step stamps. */
  function Stamped(s: State, a: Action): Option<Event> {
    match a
    case StampTerminator => Some(Event(s.pipe.sequence, Finish, Cancel))
    case StampCall(c) => Some(Event(s.pipe.sequence, c.origin, c.payload))
    case _ => None
  }

  lemma StepAdds(s: State, a: Action, e: Event)
    requires Step(s, a).Some?
    ensures P.Somewhere(Step(s, a).value.pipe, e) ==> P.Somewhere(s.pipe, e) || Stamped(s, a) == Some(e)
  {
    match a
    case StampTerminator => P.StepMoves(s.pipe, P.Stamp(Finish, Cancel), e);
    case EnqueueTerminator => P.StepMoves(s.pipe, P.Enqueue(s.main.terminator), e);
    case CloseQueue => P.StepMoves(s.pipe, P.Close, e);
    case StampCall(c) => P.StepMoves(s.pipe, P.Stamp(c.origin, c.payload), e);
    case EnqueueCall(f) => P.StepMoves(s.pipe, P.Enqueue(f), e);
    case Take => P.StepMoves(s.pipe, P.Take, e);
    case Deliver => P.StepMoves(s.pipe, P.Deliver, e);
    case _ =>
  }

  lemma StepKeepsCalls(s: State, a: Action)
    requires OneTerminator(s) && Joined(s) && Step(s, a).Some?
    ensures forall c :: c in Step(s, a).value.entered ==> c.payload != Cancel && c.origin != Finish
  {
    assert forall o :: o in Open(s.main) ==> o in SOURCES;
  }

  lemma StepKeepsTerminator(s: State, a: Action)
    requires Step(s, a).Some?
    ensures Terminator(s.main).Some? ==> Terminator(Step(s, a).value.main) == Terminator(s.main)
    ensures a.StampTerminator? ==> Terminator(s.main) == None && Terminator(Step(s, a).value.main) == Stamped(s, a)
  {
  }

  lemma StepKeepsOneTerminator(s: State, a: Action)
    requires OneTerminator(s) && Joined(s) && Step(s, a).Some?
    ensures OneTerminator(Step(s, a).value)
  {
    var t := Step(s, a).value;
    StepKeepsCalls(s, a);
    StepKeepsTerminator(s, a);
    forall e | P.Somewhere(t.pipe, e)
      ensures e.payload == Cancel <==> e.origin == Finish
      ensures e.origin == Finish ==> Terminator(t.main) == Some(e)
    {
      StepAdds(s, a, e);
    }
  }

  lemma StepKeepsPlaced(s: State, a: Action)
    requires Placed(s) && Step(s, a).Some?
    ensures Placed(Step(s, a).value)
  {
  }

  lemma StepKeepsJoined(s: State, a: Action)
    requires Joined(s) && Step(s, a).Some?
    ensures Joined(Step(s, a).value)
  {
    var t := Step(s, a).value;
    StepKeepsOpen(s, a);
    forall o | !Quiet(t, o) && o != Finish
      ensures || (o == Stdout && t.late)
              || (o in Open(t.main) && !(o == Stdout && t.main.Unwinding? && t.main.flushed))
    {
      StepKeepsQuiet(s, a, o);
    }
  }

  lemma StepKeepsOpen(s: State, a: Action)
    requires Joined(s) && Step(s, a).Some?
    ensures var t := Step(s, a).value;
            Open(t.main) <= SOURCES && (t.main.Unwinding? && t.main.flushed ==> t.main.open == [Stdout])
  {
  }

  /** Only entering a call ends the quiet of its source. */
  lemma StepKeepsQuiet(s: State, a: Action, o: Origin)
    requires Step(s, a).Some? && o != Finish
    ensures Quiet(s, o) && !(a.Enter? && a.origin == o) ==> Quiet(Step(s, a).value, o)
  {
  }

  lemma StepKeepsInv(s: State, a: Action)
    requires Inv(s)
    ensures Step(s, a).Some? ==> Inv(Step(s, a).value)
  {
    if Step(s, a).Some? {
      StepKeepsPipe(s, a);
      StepKeepsOneTerminator(s, a);
      StepKeepsPlaced(s, a);
      StepKeepsJoined(s, a);
    }
  }

  lemma {:induction false} RunKeepsInv(s: State, actions: seq<Action>)
    requires Inv(s)
    ensures Run(s, actions).Some? ==> Inv(Run(s, actions).value)
    decreases |actions|
  {
    if actions != [] && Step(s, actions[0]).Some? {
      StepKeepsInv(s, actions[0]);
      RunKeepsInv(Step(s, actions[0]).value, actions[1..]);
    }
  }

  // ----- One terminator on every run -----

  lemma AcceptedCancels(s: State)
    requires Inv(s)
    ensures forall i :: 0 <= i < |s.pipe.accepted| && s.pipe.accepted[i].payload == Cancel ==>
                          Terminator(s.main) == Some(s.pipe.accepted[i])
  {
    forall i | 0 <= i < |s.pipe.accepted| && s.pipe.accepted[i].payload == Cancel
      ensures Terminator(s.main) == Some(s.pipe.accepted[i])
    {
      assert P.Somewhere(s.pipe, s.pipe.accepted[i]);
    }
  }

  /**
   On every run, however early it fails, no engine-originated cancel event is accepted, and once
   `finish` has queued its terminator the stream holds exactly that one.
   */
  lemma ExactlyOneCancelEvent(actions: seq<Action>)
    requires Run(INIT, actions).Some?
    ensures var s := Run(INIT, actions).value;
            && (forall i :: 0 <= i < |s.pipe.accepted| && s.pipe.accepted[i].payload == Cancel ==>
                  Terminator(s.main) == Some(s.pipe.accepted[i]))
            && (s.main.Done? ==>
                  && s.main.terminator in s.pipe.accepted
                  && s.main.terminator.payload == Cancel
                  && P.NoDuplicates(s.pipe.accepted)
                  && s.pipe.queue.closed)
  {
    RunKeepsInv(INIT, actions);
    AcceptedCancels(Run(INIT, actions).value);
  }

  /**
   On every run the open sources are the first of stdout, plugin host and engine: the engine is joined
   before the host and the host before stdout, and no call of a source that has been joined is under way,
   late stdout lines excepted.
   */
  lemma SourcesNest(actions: seq<Action>, o: Origin)
    requires Run(INIT, actions).Some?
    ensures var s := Run(INIT, actions).value;
            && Open(s.main) <= [Stdout, Host, Engine]
            && (Engine in Open(s.main) ==> Host in Open(s.main))
            && (Host in Open(s.main) ==> Stdout in Open(s.main))
            && (o != Finish && o !in Open(s.main) && !(o == Stdout && s.late) ==> Quiet(s, o))
            && (s.main.Executing? && o !in Open(s.main) && o != Finish ==> Step(s, Register).Some?)
            && (s.main.Executing? && Step(s, Register).Some? ==>
                  Open(Step(s, Register).value.main) == [Stdout, Host, Engine][..|Open(s.main)| + 1])
  {
    RunKeepsInv(INIT, actions);
    NextSource(Run(INIT, actions).value, [Stdout, Host, Engine], o);
    NestedSources(Open(Run(INIT, actions).value.main), [Stdout, Host, Engine]);
  }

  lemma NextSource(s: State, all: seq<Origin>, o: Origin)
    requires s.main.Executing? ==> s.main.open <= all
    requires all == SOURCES == [Stdout, Host, Engine]
    ensures s.main.Executing? && o !in s.main.open && o != Finish ==> Step(s, Register).Some?
    ensures s.main.Executing? && Step(s, Register).Some? ==>
              |s.main.open| < 3 && Open(Step(s, Register).value.main) == all[..|s.main.open| + 1]
  {
    if s.main.Executing? {
      var n := |s.main.open|;
      assert s.main.open == all[..n];
      assert o != Finish ==> o == all[0] || o == all[1] || o == all[2];
      if n < 3 {
        assert all[..n + 1] == all[..n] + [all[n]];
      }
    }
  }

  lemma NestedSources(open: seq<Origin>, all: seq<Origin>)
    requires open <= all && all == [Stdout, Host, Engine]
    ensures (Engine in open ==> Host in open) && (Host in open ==> Stdout in open)
  {
    assert forall i :: 0 <= i < |open| ==> open[i] == all[i];
    assert |open| >= 1 ==> open[0] == Stdout;
    assert |open| >= 2 ==> open[1] == Host;
    assert |open| >= 3 ==> open[2] == Engine;
  }

  // ----- Composing runs -----

  lemma RunTwo(s: State, a: seq<Action>, b: seq<Action>)
    requires Run(s, a).Some?
    ensures Run(s, a + b) == Run(Run(s, a).value, b)
    decreases |a|
  {
    if a == [] {
      assert a + b == b;
    } else {
      TailOfSum(a, b);
      RunTwo(Step(s, a[0]).value, a[1..], b);
    }
  }

  lemma RunOne(s: State, a: Action)
    ensures Run(s, [a]) == Step(s, a)
  {
    if Step(s, a).Some? {
      assert [a][1..] == [];
      assert Run(Step(s, a).value, []) == Step(s, a);
    }
  }

  lemma Extend(s: State, run: seq<Action>, t: State, a: Action) returns (longer: seq<Action>, u: State)
    requires Run(s, run) == Some(t) && Step(t, a).Some?
    ensures Step(t, a) == Some(u) && longer == run + [a] && Run(s, longer) == Some(u)
  {
    longer, u := run + [a], Step(t, a).value;
    RunTwo(s, run, [a]);
    RunOne(t, a);
  }
}
