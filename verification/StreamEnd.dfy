/**
 How the event stream of an operation ends: when the terminator of `finish` is the last event.
 */
module StreamEnd {
  import opened Wrappers
  import opened Events
  import opened OperationLifecycle
  import P = EventPipeline

  /** The terminator is the last event of the stream and carries the largest sequence number. */
  ghost predicate TerminatorLast(s: State) {
    && Terminator(s.main).Some?
    && s.pipe.accepted != []
    && s.pipe.accepted[|s.pipe.accepted| - 1] == Terminator(s.main).value
    && forall e :: P.Somewhere(s.pipe, e) ==> e.sequence <= Terminator(s.main).value.sequence
  }

  ghost predicate AllQuiet(s: State) {
    s.entered == {} && forall e :: e in s.pipe.pending ==> e.origin == Finish
  }

  ghost predicate Alone(s: State) {
    && AllQuiet(s)
    && !s.main.Executing? && !s.main.Unwinding?
    && (Terminator(s.main).Some? ==> s.pipe.sequence == Terminator(s.main).value.sequence + 1)
    && (s.main.TerminatorQueued? || s.main.QueueClosed? || s.main.Done? ==>
          s.pipe.accepted != [] && s.pipe.accepted[|s.pipe.accepted| - 1] == s.main.terminator)
  }

  /** Kept from `Finishing` on when no call is under way there. */
  ghost predicate Settled(s: State) {
    Inv(s) && Alone(s)
  }

  lemma StepKeepsAlone(s: State, a: Action)
    requires Alone(s) && Placed(s) && OneTerminator(s) && Step(s, a).Some?
    ensures Alone(Step(s, a).value)
  {
  }

  lemma SettledEndsWithTerminator(s: State)
    requires Settled(s) && s.main.Done?
    ensures TerminatorLast(s)
  {
    assert forall e :: P.Somewhere(s.pipe, e) ==> e in s.pipe.issued;
  }

  lemma {:induction false} RunKeepsSettled(s: State, actions: seq<Action>)
    requires Settled(s) && Run(s, actions).Some?
    ensures Settled(Run(s, actions).value)
    decreases |actions|
  {
    if actions != [] {
      StepKeepsInv(s, actions[0]);
      StepKeepsAlone(s, actions[0]);
      RunKeepsSettled(Step(s, actions[0]).value, actions[1..]);
    }
  }

  /** The joins leave every source quiet unless stdout was routed between flush and unlisten. */
  lemma JoinsLeaveSourcesQuiet(actions: seq<Action>)
    requires Run(INIT, actions).Some? && Run(INIT, actions).value.main.Finishing?
    ensures var s := Run(INIT, actions).value; !s.late ==> AllQuiet(s)
  {
    RunKeepsInv(INIT, actions);
    var s := Run(INIT, actions).value;
    if !s.late {
      assert forall c :: c in s.entered ==> Quiet(s, c.origin);
      assert forall e :: e in s.pipe.pending && e.origin != Finish ==> Quiet(s, e.origin);
    }
  }

  /**
   When `finish` starts with no banner routed after the flush, the terminator it writes is, on every
   continuation that completes, the last event of the stream with the largest sequence number.
   */
  lemma TerminatorEndsTheStream(actions: seq<Action>, more: seq<Action>)
    requires Run(INIT, actions).Some?
    requires var s := Run(INIT, actions).value; s.main.Finishing? && !s.late
    requires Run(Run(INIT, actions).value, more).Some?
    requires Run(Run(INIT, actions).value, more).value.main.Done?
    ensures TerminatorLast(Run(Run(INIT, actions).value, more).value)
  {
    RunKeepsInv(INIT, actions);
    JoinsLeaveSourcesQuiet(actions);
    RunKeepsSettled(Run(INIT, actions).value, more);
    SettledEndsWithTerminator(Run(Run(INIT, actions).value, more).value);
  }

  ghost predicate AlwaysEndsWithTerminator(s: State) {
    forall more :: Run(s, more).Some? && Run(s, more).value.main.Done? ==> TerminatorLast(Run(s, more).value)
  }

  /** Exactly when no `handleEvent` call is under way does the stream always end with the terminator. */
  lemma EndsWithTerminatorIffQuiet(s: State)
    requires Inv(s) && s.main.Finishing?
    ensures AlwaysEndsWithTerminator(s) <==> AllQuiet(s)
  {
    if AllQuiet(s) {
      forall more | Run(s, more).Some? && Run(s, more).value.main.Done?
        ensures TerminatorLast(Run(s, more).value)
      {
        RunKeepsSettled(s, more);
        SettledEndsWithTerminator(Run(s, more).value);
      }
    } else {
      var more := Overtaken(s);
      assert !TerminatorLast(Run(s, more).value);
    }
  }

  /** A call still under way can be accepted after the terminator and before the queue closes. */
  lemma Overtaken(s: State) returns (more: seq<Action>)
    requires Inv(s) && s.main.Finishing? && !AllQuiet(s)
    ensures Run(s, more).Some? && Run(s, more).value.main.Done?
    ensures !TerminatorLast(Run(s, more).value)
  {
    if s.entered != {} {
      var c :| c in s.entered;
      var t := Step(s, StampCall(c)).value;
      RunOne(s, StampCall(c));
      var rest := OvertakenBy(t, Event(s.pipe.sequence, c.origin, c.payload));
      RunTwo(s, [StampCall(c)], rest);
      more := [StampCall(c)] + rest;
    } else {
      var e :| e in s.pipe.pending && e.origin != Finish;
      more := OvertakenBy(s, e);
    }
  }

  lemma OvertakenBy(s: State, e: Event) returns (more: seq<Action>)
    requires s.main.Finishing? && !s.pipe.queue.closed && e in s.pipe.pending && e.origin != Finish
    ensures Run(s, more).Some? && Run(s, more).value.main.Done?
    ensures !TerminatorLast(Run(s, more).value)
  {
    var t;
    more, t := Extend(s, [], s, StampTerminator);
    more, t := Extend(s, more, t, EnqueueTerminator);
    more, t := Extend(s, more, t, EnqueueCall(e));
    assert t.pipe.accepted[|t.pipe.accepted| - 1] == e;
    var rest, u := FinishQueued(t);
    RunTwo(s, more, rest);
    NotTheLast(u, e);
    more := more + rest;
  }

  lemma FinishQueued(s: State) returns (more: seq<Action>, t: State)
    requires s.main.TerminatorQueued?
    ensures Run(s, more) == Some(t) && t.main == Done(s.main.terminator) && t.pipe.accepted == s.pipe.accepted
  {
    more, t := Extend(s, [], s, CloseQueue);
    more, t := Extend(s, more, t, CloseDone);
  }

  lemma NotTheLast(s: State, e: Event)
    requires s.main.Done? && s.main.terminator.origin == Finish && e.origin != Finish
    requires s.pipe.accepted != [] && s.pipe.accepted[|s.pipe.accepted| - 1] == e
    ensures !TerminatorLast(s)
  {
  }

  /**
   The promise "every stream ends with the cancel event" has this gap on reachable runs: a banner
   routed between the flush and the unlisten can be accepted after the terminator.
   */
  lemma LateBannerCanFollowTheTerminator()
    ensures exists actions :: Run(INIT, actions).Some?
                              && Run(INIT, actions).value.main.Done?
                              && !TerminatorLast(Run(INIT, actions).value)
  {
    var run, t := LateBanner();
    var rest := OvertakenBy(t, LATE);
    RunTwo(INIT, run, rest);
    assert Run(INIT, run + rest) == Run(t, rest);
  }

  const LATE := Event(0, Stdout, StdoutLine("Updating (dev):"))

  lemma FlushAtOnce() returns (run: seq<Action>, t: State)
    ensures Run(INIT, run) == Some(t) && t == INIT.(main := Unwinding([Stdout], true))
  {
    run, t := Extend(INIT, [], INIT, Register);
    assert t.main.open == [Stdout];
    run, t := Extend(INIT, run, t, Return);
    run, t := Extend(INIT, run, t, Flush);
  }

  lemma LateBanner() returns (run: seq<Action>, t: State)
    ensures Run(INIT, run) == Some(t)
    ensures t.main.Finishing? && !t.pipe.queue.closed && LATE in t.pipe.pending
  {
    run, t := FlushAtOnce();
    var call := Call(0, Stdout, LATE.payload);
    run, t := Extend(INIT, run, t, Enter(Stdout, LATE.payload));
    assert t == State(Unwinding([Stdout], true), P.INIT, 1, {call}, true);
    run, t := Extend(INIT, run, t, Unlisten);
    run, t := Extend(INIT, run, t, StartFinish);
    run, t := Extend(INIT, run, t, StampCall(call));
  }
}
