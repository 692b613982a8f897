/**
 What `Wait` and `finish` wait for: not for a consumer of the events, and not for the channel to close.
 */
module OperationWait {
  import opened Wrappers
  import opened Seqs
  import opened Events
  import opened OperationLifecycle

  /** `finish` never waits for a consumer: its own four steps always go through. */
  lemma FinishNeedsNoConsumer(s: State)
    requires s.main.Finishing?
    ensures var r := Run(s, [StampTerminator, EnqueueTerminator, CloseQueue, CloseDone]);
            r.Some? && r.value.main.Done? && r.value.pipe.delivered == s.pipe.delivered
  {
    var more, t := Extend(s, [], s, StampTerminator);
    more, t := Extend(s, more, t, EnqueueTerminator);
    more, t := Extend(s, more, t, CloseQueue);
    more, t := Extend(s, more, t, CloseDone);
    assert more == [StampTerminator, EnqueueTerminator, CloseQueue, CloseDone];
  }

  lemma FinishAlone(s: State) returns (more: seq<Action>, t: State)
    requires s.main.Finishing? && !s.pipe.queue.closed
    ensures Run(s, more) == Some(t) && t.main.Done?
    ensures t.pipe.pump == s.pipe.pump && t.pipe.delivered == s.pipe.delivered
    ensures |t.pipe.accepted| == |s.pipe.accepted| + 1
  {
    more, t := Extend(s, [], s, StampTerminator);
    more, t := Extend(s, more, t, EnqueueTerminator);
    more, t := Extend(s, more, t, CloseQueue);
    more, t := Extend(s, more, t, CloseDone);
  }

  /** `Wait` can return while the channel is still open. */
  ghost predicate MayReturnEarly(s: State) {
    exists more :: Run(s, more).Some? && Run(s, more).value.main.Done? && !Run(s, more).value.pipe.pump.Exited?
  }

  function StepsLeft(m: Main): nat {
    match m
    case Finishing => 4
    case TerminatorStamped(_) => 3
    case TerminatorQueued(_) => 2
    case QueueClosed(_) => 1
    case _ => 0
  }

  function NextOfFinish(m: Main): Action {
    match m
    case Finishing => StampTerminator
    case TerminatorStamped(_) => EnqueueTerminator
    case TerminatorQueued(_) => CloseQueue
    case _ => CloseDone
  }

  /** The steps of `finish` that are left go through without the pump. */
  lemma FinishGoesOn(s: State) returns (more: seq<Action>, t: State)
    requires Placed(s) && !s.main.Executing? && !s.main.Unwinding?
    ensures Run(s, more) == Some(t) && t.main.Done? && t.pipe.pump == s.pipe.pump
    decreases StepsLeft(s.main)
  {
    if s.main.Done? {
      more, t := [], s;
    } else {
      var a := NextOfFinish(s.main);
      var u := Step(s, a).value;
      StepKeepsPlaced(s, a);
      var rest;
      rest, t := FinishGoesOn(u);
      more := [a] + rest;
      assert more[1..] == rest;
    }
  }

  lemma {:induction false} PumpStaysExited(s: State, actions: seq<Action>)
    requires s.pipe.pump.Exited? && Run(s, actions).Some?
    ensures Run(s, actions).value.pipe.pump.Exited?
    decreases |actions|
  {
    if actions != [] {
      PumpStaysExited(Step(s, actions[0]).value, actions[1..]);
    }
  }

  /**
   The documented "the channel closes before Wait returns": from the start of `finish` on, there is a
   continuation on which `Wait` returns with the channel open if and only if it is open now.
   */
  lemma WaitMayReturnEarlyIff(s: State)
    requires Inv(s) && !s.main.Executing? && !s.main.Unwinding?
    ensures MayReturnEarly(s) <==> !s.pipe.pump.Exited?
  {
    if s.pipe.pump.Exited? {
      forall more | Run(s, more).Some?
        ensures Run(s, more).value.pipe.pump.Exited?
      {
        PumpStaysExited(s, more);
      }
    } else {
      var more, t := FinishGoesOn(s);
      assert Run(s, more) == Some(t);
    }
  }

  lemma PumpIsNotDone(s: State)
    requires Inv(s) && !s.pipe.queue.closed
    ensures !s.pipe.pump.Exited?
  {
  }

  /** So no operation is guaranteed it, whatever ran before: when `finish` starts, the channel is open. */
  lemma NoOperationClosesBeforeWait(actions: seq<Action>)
    requires Run(INIT, actions).Some? && Run(INIT, actions).value.main.Finishing?
    ensures MayReturnEarly(Run(INIT, actions).value)
  {
    RunKeepsInv(INIT, actions);
    PumpIsNotDone(Run(INIT, actions).value);
    WaitMayReturnEarlyIff(Run(INIT, actions).value);
  }

  /** Such operations exist: one that fails at once is done with its terminator undelivered. */
  lemma WaitCanReturnBeforeTheChannelCloses()
    ensures exists actions :: Run(INIT, actions).Some?
                              && Run(INIT, actions).value.main.Done?
                              && !Run(INIT, actions).value.pipe.pump.Exited?
                              && Run(INIT, actions).value.pipe.delivered == []
                              && |Run(INIT, actions).value.pipe.accepted| == 1
  {
    var run, t := Extend(INIT, [], INIT, Return);
    run, t := Extend(INIT, run, t, StartFinish);
    var more, u := FinishAlone(t);
    RunTwo(INIT, run, more);
    assert Run(INIT, run + more) == Some(u);
  }

  // ----- Every operation can finish -----

  /** Steps that need neither the pump nor a consumer. */
  predicate OwnStep(a: Action) {
    a != Take && a != Deliver
  }

  ghost predicate OwnRun(actions: seq<Action>) {
    forall i :: 0 <= i < |actions| ==> OwnStep(actions[i])
  }

  /** From here `execute` and `finish` can come to their end. */
  ghost predicate CanFinish(s: State) {
    exists more :: OwnRun(more) && Run(s, more).Some? && Run(s, more).value.main.Done?
  }

  lemma FinishesLater(s: State, a: Action)
    requires OwnStep(a) && Step(s, a).Some? && CanFinish(Step(s, a).value)
    ensures CanFinish(s)
  {
    var t := Step(s, a).value;
    var more :| OwnRun(more) && Run(t, more).Some? && Run(t, more).value.main.Done?;
    ConsTail(a, more);
    assert OwnRun([a] + more) && Run(s, [a] + more) == Run(t, more);
  }

  lemma FinishIsOwn(s: State)
    requires Placed(s) && !s.main.Executing? && !s.main.Unwinding?
    ensures CanFinish(s)
    decreases StepsLeft(s.main)
  {
    if s.main.Done? {
      assert OwnRun([]) && Run(s, []) == Some(s);
    } else {
      var a := NextOfFinish(s.main);
      StepKeepsPlaced(s, a);
      FinishIsOwn(Step(s, a).value);
      FinishesLater(s, a);
    }
  }

  /** Steps of `execute` until it has unwound. */
  function Unwound(m: Main): nat {
    match m
    case Executing(open) => 2 * |open| + 3
    case Unwinding(open, flushed) => 2 * |open| + (if flushed then 1 else 2)
    case _ => 0
  }

  function NextOfExecute(m: Main): Action {
    match m
    case Executing(_) => Return
    case Unwinding(open, flushed) =>
      if open == [] then StartFinish else if flushed then Unlisten else if open == [Stdout] then Flush else Join
    case _ => StartFinish
  }

  /** With every source quiet each join goes through. */
  lemma UnwindsWhenQuiet(s: State)
    requires Inv(s) && (forall o :: o != Finish ==> Quiet(s, o))
    requires s.main.Executing? || s.main.Unwinding?
    ensures CanFinish(s)
    decreases Unwound(s.main)
  {
    var a := NextOfExecute(s.main);
    var t := ExecuteStep(s);
    StepKeepsInv(s, a);
    if t.main.Finishing? {
      FinishIsOwn(t);
    } else {
      UnwindsWhenQuiet(t);
    }
    FinishesLater(s, a);
  }

  lemma ExecuteStep(s: State) returns (t: State)
    requires Joined(s) && (s.main.Executing? || s.main.Unwinding?) && (forall o :: o != Finish ==> Quiet(s, o))
    ensures Step(s, NextOfExecute(s.main)) == Some(t) && t.pipe == s.pipe && t.entered == s.entered
    ensures t.main.Finishing? || (t.main.Unwinding? && Unwound(t.main) < Unwound(s.main))
    ensures forall o :: o != Finish ==> Quiet(t, o)
  {
    OpenIsPrefix(s);
    t := Step(s, NextOfExecute(s.main)).value;
    forall o | o != Finish
      ensures Quiet(t, o)
    {
      assert Quiet(s, o);
    }
  }

  /** On top of the open sources lies stdout alone, or a source that is joined. */
  lemma OpenIsPrefix(s: State)
    requires Joined(s)
    ensures var open := Open(s.main);
            open != [] && open != [Stdout] ==> open[|open| - 1] == Host || open[|open| - 1] == Engine
  {
    var open := Open(s.main);
    assert forall i :: 0 <= i < |open| ==> open[i] == SOURCES[i];
    assert |open| == 1 ==> open == [SOURCES[0]];
  }

  /** The calls that are under way, each counted by the steps it has left. */
  ghost function UnderWay(s: State): nat {
    2 * |s.entered| + |Calls(s)|
  }

  ghost function Calls(s: State): set<Event> {
    set e | e in s.pipe.pending && e.origin != Finish
  }

  lemma CallsShrink(s: State, e: Event, t: State)
    requires e in Calls(s) && t.pipe.pending == s.pipe.pending - {e}
    ensures |Calls(t)| < |Calls(s)|
  {
    assert Calls(t) == Calls(s) - {e};
  }

  lemma CallsGrow(s: State, e: Event, t: State)
    requires t.pipe.pending == s.pipe.pending + {e}
    ensures |Calls(t)| <= |Calls(s)| + 1
  {
    if e.origin == Finish {
      assert Calls(t) == Calls(s);
    } else {
      assert Calls(t) == Calls(s) + {e};
    }
  }

  /** Calls under way can complete, and then the operation can. */
  lemma CallsComplete(s: State)
    requires Inv(s)
    ensures CanFinish(s)
    decreases UnderWay(s)
  {
    if c :| c in s.entered {
      var t := Step(s, StampCall(c)).value;
      StepKeepsInv(s, StampCall(c));
      CallsGrow(s, Event(s.pipe.sequence, c.origin, c.payload), t);
      assert t.entered == s.entered - {c};
      CallsComplete(t);
      FinishesLater(s, StampCall(c));
    } else if e :| e in Calls(s) {
      var t := Step(s, EnqueueCall(e)).value;
      StepKeepsInv(s, EnqueueCall(e));
      CallsShrink(s, e, t);
      CallsComplete(t);
      FinishesLater(s, EnqueueCall(e));
    } else if s.main.Executing? || s.main.Unwinding? {
      forall o | o != Finish
        ensures Quiet(s, o)
      {
        assert forall e :: e in s.pipe.pending ==> e in Calls(s) || e.origin == Finish;
      }
      UnwindsWhenQuiet(s);
    } else {
      FinishIsOwn(s);
    }
  }

  /**
   No operation is ever stuck: from every state a run reaches, whatever it has registered and whatever
   calls are under way, it can come to its end without the pump taking and without anybody reading a
   single event.
   */
  lemma EveryOperationCanFinish(actions: seq<Action>)
    requires Run(INIT, actions).Some?
    ensures CanFinish(Run(INIT, actions).value)
  {
    RunKeepsInv(INIT, actions);
    CallsComplete(Run(INIT, actions).value);
  }
}
