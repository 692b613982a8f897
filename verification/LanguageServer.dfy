/**
 The in-process language runtime server: a four-state monitor that `Run` and `Close` share.
 */
module LanguageServer {
  import opened Wrappers

  datatype Monitor = AwaitingRun | Running | Canceled | Finished

  /** What `Close` does once it holds the lock and has looked at the state. */
  datatype Verdict = AlreadyClosed | MustWait | Proceed

  function CloseVerdict(m: Monitor): Verdict {
    match m
    case Canceled => AlreadyClosed
    case Running => MustWait
    case _ => Proceed
  }

  /** The server, one method per lock region. */
  class LanguageRuntimeServer {
    var state: Monitor

    constructor ()
      ensures state == AwaitingRun
    {
      state := AwaitingRun;
    }

    /** The first look of `Close`; when it may proceed it has claimed the cancellation. */
    method EnterClose() returns (verdict: Verdict)
      modifies this
      ensures match old(state)
              case AwaitingRun => verdict == Proceed
              case Running => verdict == MustWait
              case Canceled => verdict == AlreadyClosed
              case Finished => verdict == Proceed
      ensures state == if verdict == Proceed then Canceled else old(state)
      ensures forall s: State, id :: s.monitor == old(state) && id !in s.closers ==>
                                       Leaves(s, Action.EnterClose(id), state)
    {
      if state == Canceled {
        return AlreadyClosed;
      }
      if state == AwaitingRun {
        // nobody to wait for
      } else if state != Finished {
        return MustWait;
      }
      state := Canceled;
      verdict := Proceed;
    }

    /** A waiting `Close` looks again: it leaves its loop only in the finished state. */
    method RetryClose() returns (verdict: Verdict)
      modifies this
      ensures verdict == if old(state) == Finished then Proceed else MustWait
      ensures state == if verdict == Proceed then Canceled else old(state)
      ensures forall s: State, id :: s.monitor == old(state) && id in s.closers && s.closers[id] == Blocked ==>
                                       Leaves(s, Action.RetryClose(id), state)
    {
      if state != Finished {
        return MustWait;
      }
      state := Canceled;
      verdict := Proceed;
    }

    method BeginRun() returns (admitted: bool)
      modifies this
      ensures admitted <==> old(state) != Canceled
      ensures state == if admitted then Running else Canceled
      ensures forall s: State, id :: s.monitor == old(state) && id !in s.active ==>
                                       Leaves(s, Action.BeginRun(id), state)
    {
      if state == Canceled {
        return false;
      }
      state := Running;
      admitted := true;
    }

    method EndRun()
      modifies this
      ensures state == Finished
      ensures forall s: State, id :: s.monitor == old(state) && id in s.active ==> Leaves(s, Action.EndRun(id), state)
    {
      state := Finished;
    }
  }

  // ----- The machine -----

  /** A `Close` call: waiting on the condition variable, past it, or done with the channel. */
  datatype Closer = Blocked | Signalling | Sent | ChannelClosed | Returned

  /** `active` are the admitted `Run` calls whose program has not ended. */
  datatype State = State(monitor: Monitor, closers: map<nat, Closer>, active: set<nat>, sends: nat, closes: nat)

  const INIT := State(AwaitingRun, map[], {}, 0, 0)

  datatype Action =
    | EnterClose(id: nat)
    | RetryClose(id: nat)
    | Send(id: nat)
    | CloseChannel(id: nat)
    | BeginRun(id: nat)
    | EndRun(id: nat)

  function Step(s: State, a: Action): Option<State> {
    match a
    case EnterClose(id) =>
      if id in s.closers then None
      else
        (match CloseVerdict(s.monitor)
         case AlreadyClosed => Some(s.(closers := s.closers[id := Returned]))
         case MustWait => Some(s.(closers := s.closers[id := Blocked]))
         case Proceed => Some(s.(closers := s.closers[id := Signalling], monitor := Canceled)))
    case RetryClose(id) =>
      if id !in s.closers || s.closers[id] != Blocked then None
      else if s.monitor != Finished then Some(s)
      else Some(s.(closers := s.closers[id := Signalling], monitor := Canceled))
    case Send(id) =>
      if id !in s.closers || s.closers[id] != Signalling then None
      else Some(s.(closers := s.closers[id := Sent], sends := s.sends + 1))
    case CloseChannel(id) =>
      if id !in s.closers || s.closers[id] != Sent then None
      else Some(s.(closers := s.closers[id := ChannelClosed], closes := s.closes + 1))
    case BeginRun(id) =>
      if id in s.active then None
      else if s.monitor == Canceled then Some(s)
      else Some(s.(monitor := Running, active := s.active + {id}))
    case EndRun(id) =>
      if id !in s.active then None else Some(s.(monitor := Finished, active := s.active - {id}))
  }

  /** The step is possible and leaves the monitor like this. */
  predicate Leaves(s: State, a: Action, monitor: Monitor) {
    Step(s, a).Some? && Step(s, a).value.monitor == monitor
  }

  function Run(s: State, actions: seq<Action>): Option<State>
    decreases |actions|
  {
    if actions == [] then Some(s)
    else
      match Step(s, actions[0])
      case None => None
      case Some(t) => Run(t, actions[1..])
  }

  /** A run in which the engine sends no `Run` request while another program is running. */
  function SerialRun(s: State, actions: seq<Action>): Option<State>
    decreases |actions|
  {
    if actions == [] then Some(s)
    else if actions[0].BeginRun? && s.active != {} then None
    else
      match Step(s, actions[0])
      case None => None
      case Some(t) => SerialRun(t, actions[1..])
  }

  predicate PastTheLock(c: Closer) {
    c == Signalling || c == Sent || c == ChannelClosed
  }

  ghost predicate Claims(s: State, id: nat) {
    id in s.closers && PastTheLock(s.closers[id])
  }

  ghost predicate Inv(s: State) {
    && (s.monitor == Running <==> s.active != {})
    && (forall x, y :: x in s.active && y in s.active ==> x == y)
    && (s.monitor == Canceled <==> exists id :: Claims(s, id))
    && (forall x, y :: Claims(s, x) && Claims(s, y) ==> x == y)
    && s.sends <= 1 && s.closes <= s.sends
    && (s.sends == 1 <==> exists id :: Claims(s, id) && s.closers[id] != Signalling)
    && (s.closes == 1 <==> exists id :: Claims(s, id) && s.closers[id] == ChannelClosed)
  }

  lemma CloseKeepsInv(s: State, a: Action)
    requires Inv(s) && Step(s, a).Some?
    requires a.EnterClose? || a.RetryClose?
    ensures Inv(Step(s, a).value)
  {
    var t := Step(s, a).value;
    assert forall id :: id != a.id ==> (Claims(t, id) <==> Claims(s, id));
    if t.monitor == Canceled && s.monitor != Canceled {
      assert Claims(t, a.id);
    }
  }

  lemma ChannelKeepsInv(s: State, a: Action)
    requires Inv(s) && Step(s, a).Some?
    requires a.Send? || a.CloseChannel?
    ensures Inv(Step(s, a).value)
  {
    var t := Step(s, a).value;
    assert Claims(s, a.id) && Claims(t, a.id);
    assert forall id :: Claims(t, id) <==> Claims(s, id);
  }

  lemma RunsKeepInv(s: State, a: Action)
    requires Inv(s) && Step(s, a).Some?
    requires a.EndRun? || (a.BeginRun? && s.active == {})
    ensures Inv(Step(s, a).value)
  {
    var t := Step(s, a).value;
    assert forall id :: Claims(t, id) <==> Claims(s, id);
  }

  lemma {:induction false} SerialRunKeepsInv(s: State, actions: seq<Action>)
    requires Inv(s) && SerialRun(s, actions).Some?
    ensures Inv(SerialRun(s, actions).value)
    decreases |actions|
  {
    if actions != [] {
      match actions[0] {
        case EnterClose(_) => CloseKeepsInv(s, actions[0]);
        case RetryClose(_) => CloseKeepsInv(s, actions[0]);
        case Send(_) => ChannelKeepsInv(s, actions[0]);
        case CloseChannel(_) => ChannelKeepsInv(s, actions[0]);
        case _ => RunsKeepInv(s, actions[0]);
      }
      SerialRunKeepsInv(Step(s, actions[0]).value, actions[1..]);
    }
  }

  lemma Reachable(actions: seq<Action>) returns (s: State)
    requires SerialRun(INIT, actions).Some?
    ensures SerialRun(INIT, actions) == Some(s) && Inv(s)
  {
    SerialRunKeepsInv(INIT, actions);
    s := SerialRun(INIT, actions).value;
  }

  /**
   With any number of `Close` callers and one `Run` at a time: the cancel channel is sent to and closed
   at most once, by one caller, and no caller is past the lock while a program runs.
   */
  lemma CancelSignalOnce(actions: seq<Action>)
    requires SerialRun(INIT, actions).Some?
    ensures var s := SerialRun(INIT, actions).value;
            && s.sends <= 1 && s.closes <= s.sends
            && (forall x, y :: Claims(s, x) && Claims(s, y) ==> x == y)
            && ((exists id :: Claims(s, id)) ==> s.monitor == Canceled && s.active == {})
  {
    var s := Reachable(actions);
  }

  /** Once cancelled the server stays cancelled, and no `Run` starts the program. */
  lemma {:induction false} NoProgramAfterCancel(s: State, actions: seq<Action>)
    requires Inv(s) && s.monitor == Canceled && SerialRun(s, actions).Some?
    ensures SerialRun(s, actions).value.monitor == Canceled && SerialRun(s, actions).value.active == {}
    decreases |actions|
  {
    assert s.active == {};
    if actions != [] {
      SerialRunKeepsInv(s, actions[..1]);
      var t := Step(s, actions[0]).value;
      assert actions[..1][1..] == [] && SerialRun(t, []) == Some(t);
      NoProgramAfterCancel(t, actions[1..]);
    }
  }

  /** Only a cancelled server lets a `Close` call go on or return. */
  ghost predicate ClosedMeansCanceled(s: State) {
    forall id :: id in s.closers && s.closers[id] != Blocked ==> s.monitor == Canceled
  }

  lemma {:induction false} SerialRunKeepsClosed(s: State, actions: seq<Action>)
    requires Inv(s) && ClosedMeansCanceled(s) && SerialRun(s, actions).Some?
    ensures ClosedMeansCanceled(SerialRun(s, actions).value)
    decreases |actions|
  {
    if actions != [] {
      var t := Step(s, actions[0]).value;
      SerialRunKeepsInv(s, actions[..1]);
      assert actions[..1][1..] == [] && SerialRun(t, []) == Some(t);
      assert s.monitor == Canceled ==> s.active == {};
      SerialRunKeepsClosed(t, actions[1..]);
    }
  }

  /**
   After any `Close` call that is not waiting, whether it has claimed the cancellation or found it
   claimed, and whether or not a program has run before: no continuation runs a program.
   */
  lemma NoProgramAfterClose(actions: seq<Action>, id: nat, more: seq<Action>)
    requires SerialRun(INIT, actions).Some?
    requires var s := SerialRun(INIT, actions).value;
             id in s.closers && s.closers[id] != Blocked && SerialRun(s, more).Some?
    ensures var t := SerialRun(SerialRun(INIT, actions).value, more).value; t.monitor == Canceled && t.active == {}
  {
    var s := Reachable(actions);
    SerialRunKeepsClosed(INIT, actions);
    NoProgramAfterCancel(s, more);
  }

  /** And a `Close` call waits only for a program that runs: unless one does, it goes on or returns at once. */
  lemma CloseWaitsOnlyForAProgram(actions: seq<Action>, id: nat)
    requires SerialRun(INIT, actions).Some? && id !in SerialRun(INIT, actions).value.closers
    ensures var s := SerialRun(INIT, actions).value;
            && Step(s, EnterClose(id)).Some?
            && (Step(s, EnterClose(id)).value.closers[id] == Blocked <==> s.active != {})
  {
    var s := Reachable(actions);
  }

  /** A `Close` that was still waiting when another one claimed the cancellation waits for ever. */
  lemma {:induction false} OvertakenCloserStaysBlocked(s: State, actions: seq<Action>, id: nat)
    requires Inv(s) && s.monitor == Canceled && id in s.closers && s.closers[id] == Blocked
    requires SerialRun(s, actions).Some?
    ensures var t := SerialRun(s, actions).value; id in t.closers && t.closers[id] == Blocked
    decreases |actions|
  {
    if actions != [] {
      NoProgramAfterCancel(s, actions[..1]);
      SerialRunKeepsInv(s, actions[..1]);
      var t := Step(s, actions[0]).value;
      assert actions[..1][1..] == [] && SerialRun(t, []) == Some(t);
      OvertakenCloserStaysBlocked(t, actions[1..], id);
    }
  }

  /** The call that has claimed the cancellation can send and close, whatever else happens in between. */
  lemma ClaimantSignals(s: State, id: nat, more: seq<Action>)
    requires id in s.closers && s.closers[id] == Signalling
    ensures Step(s, Send(id)).Some? && Step(s, Send(id)).value.sends == s.sends + 1
    ensures var t := Step(s, Send(id)).value;
            (Run(t, more).Some? && forall i :: 0 <= i < |more| ==> more[i] != CloseChannel(id)) ==>
              && Step(Run(t, more).value, CloseChannel(id)).Some?
              && Step(Run(t, more).value, CloseChannel(id)).value.closes == Run(t, more).value.closes + 1
  {
    var t := Step(s, Send(id)).value;
    if Run(t, more).Some? && forall i :: 0 <= i < |more| ==> more[i] != CloseChannel(id) {
      SentStays(t, more, id);
    }
  }

  lemma {:induction false} SentStays(s: State, actions: seq<Action>, id: nat)
    requires id in s.closers && s.closers[id] == Sent && Run(s, actions).Some?
    requires forall i :: 0 <= i < |actions| ==> actions[i] != CloseChannel(id)
    ensures var t := Run(s, actions).value; id in t.closers && t.closers[id] == Sent
    decreases |actions|
  {
    if actions != [] {
      assert actions[0] != CloseChannel(id);
      SentStays(Step(s, actions[0]).value, actions[1..], id);
    }
  }

  // ----- Which waiting Close gets through -----

  /** A `Close` waits only once a `Run` has been admitted. */
  ghost predicate WaitsForARun(s: State) {
    forall id :: id in s.closers && s.closers[id] == Blocked ==> s.monitor != AwaitingRun
  }

  lemma {:induction false} SerialRunKeepsWaiting(s: State, actions: seq<Action>)
    requires WaitsForARun(s) && SerialRun(s, actions).Some?
    ensures WaitsForARun(SerialRun(s, actions).value)
    decreases |actions|
  {
    if actions != [] {
      SerialRunKeepsWaiting(Step(s, actions[0]).value, actions[1..]);
    }
  }

  /** The call can leave its wait loop. */
  ghost predicate GetsThrough(s: State, id: nat) {
    exists more :: SerialRun(s, more).Some? && Claims(SerialRun(s, more).value, id)
  }

  lemma OneStep(s: State, a: Action)
    requires Step(s, a).Some? && !a.BeginRun?
    ensures SerialRun(s, [a]) == Step(s, a)
  {
    assert [a][1..] == [];
    assert SerialRun(Step(s, a).value, []) == Step(s, a);
  }

  lemma TwoSteps(s: State, a: Action, b: Action)
    requires Step(s, a).Some? && !a.BeginRun? && Step(Step(s, a).value, b).Some? && !b.BeginRun?
    ensures SerialRun(s, [a, b]) == Step(Step(s, a).value, b)
  {
    assert [a, b][1..] == [b];
    OneStep(Step(s, a).value, b);
  }

  lemma UnclaimedGetsThrough(s: State, id: nat)
    requires Inv(s) && WaitsForARun(s) && id in s.closers && s.closers[id] == Blocked && s.monitor != Canceled
    ensures GetsThrough(s, id)
  {
    if s.monitor == Finished {
      OneStep(s, RetryClose(id));
      assert Claims(SerialRun(s, [RetryClose(id)]).value, id);
    } else {
      var r :| r in s.active;
      TwoSteps(s, EndRun(r), RetryClose(id));
      assert Claims(SerialRun(s, [EndRun(r), RetryClose(id)]).value, id);
    }
  }

  /**
   A `Close` that waits can get through if and only if no other call has claimed the cancellation yet.
   Of several that wait for one program, therefore, at most one does.
   */
  lemma WaitingCloseGetsThroughIff(actions: seq<Action>, id: nat)
    requires SerialRun(INIT, actions).Some?
    requires var s := SerialRun(INIT, actions).value; id in s.closers && s.closers[id] == Blocked
    ensures GetsThrough(SerialRun(INIT, actions).value, id) <==> SerialRun(INIT, actions).value.monitor != Canceled
  {
    var s := Reachable(actions);
    SerialRunKeepsWaiting(INIT, actions);
    if s.monitor != Canceled {
      UnclaimedGetsThrough(s, id);
    } else if GetsThrough(s, id) {
      var more :| SerialRun(s, more).Some? && Claims(SerialRun(s, more).value, id);
      OvertakenCloserStaysBlocked(s, more, id);
    }
  }

  /** That situation arises: two callers wait for one program. */
  lemma TwoClosersOneStaysBlocked()
    ensures exists actions :: var r := SerialRun(INIT, actions);
                              r.Some? && r.value.monitor == Canceled
                              && 1 in r.value.closers && r.value.closers[1] == Blocked
  {
    var a0, a1, a2, a3, a4 := BeginRun(0), EnterClose(0), EnterClose(1), EndRun(0), RetryClose(0);
    var s1 := Step(INIT, a0).value;
    var s2 := Step(s1, a1).value;
    var s3 := Step(s2, a2).value;
    var s4 := Step(s3, a3).value;
    var s5 := Step(s4, a4).value;
    assert SerialRun(s5, []) == Some(s5);
    assert [a4][1..] == [] && SerialRun(s4, [a4]) == Some(s5);
    assert [a3, a4][1..] == [a4] && SerialRun(s3, [a3, a4]) == Some(s5);
    assert [a2, a3, a4][1..] == [a3, a4] && SerialRun(s2, [a2, a3, a4]) == Some(s5);
    assert [a1, a2, a3, a4][1..] == [a2, a3, a4] && SerialRun(s1, [a1, a2, a3, a4]) == Some(s5);
    assert [a0, a1, a2, a3, a4][1..] == [a1, a2, a3, a4] && SerialRun(INIT, [a0, a1, a2, a3, a4]) == Some(s5);
  }

  // ----- Overlapping runs -----

  ghost predicate Claimed(s: State) {
    exists id :: Claims(s, id)
  }

  /** A `Close` is past the lock while a program runs. */
  ghost predicate Exposed(s: State) {
    s.active != {} && Claimed(s)
  }

  ghost predicate ClaimedTwice(s: State) {
    exists x, y :: x != y && Claims(s, x) && Claims(s, y)
  }

  ghost predicate Overlaps(s: State) {
    exists x, y :: x != y && x in s.active && y in s.active
  }

  /** What every run keeps, whether or not its `Run` requests overlap. */
  ghost predicate AnyInv(s: State) {
    && (s.monitor == Running ==> s.active != {})
    && (s.monitor == Canceled ==> Claimed(s))
    && (s.monitor == AwaitingRun ==> s.active == {} && !Claimed(s))
  }

  lemma StepKeepsAnyInv(s: State, a: Action)
    requires AnyInv(s) && Step(s, a).Some?
    ensures AnyInv(Step(s, a).value)
  {
    var t := Step(s, a).value;
    if Claimed(s) {
      var id :| Claims(s, id);
      assert Claims(t, id);
    }
    if t.monitor == Canceled && s.monitor != Canceled {
      assert Claims(t, a.id);
    }
    if t.monitor == AwaitingRun && Claimed(t) {
      var id :| Claims(t, id);
      assert Claims(s, id);
    }
  }

  lemma {:induction false} RunKeepsAnyInv(s: State, actions: seq<Action>)
    requires AnyInv(s) && Run(s, actions).Some?
    ensures AnyInv(Run(s, actions).value)
    decreases |actions|
  {
    if actions != [] {
      StepKeepsAnyInv(s, actions[0]);
      RunKeepsAnyInv(Step(s, actions[0]).value, actions[1..]);
    }
  }

  predicate NoNewRun(actions: seq<Action>) {
    forall i :: 0 <= i < |actions| ==> !actions[i].BeginRun?
  }

  ghost predicate CanExpose(s: State) {
    exists more :: NoNewRun(more) && Run(s, more).Some? && Exposed(Run(s, more).value)
  }

  ghost predicate CanClaimTwice(s: State) {
    exists more :: NoNewRun(more) && Run(s, more).Some? && ClaimedTwice(Run(s, more).value)
  }

  /** A program runs that the monitor does not know of, or will not know of when the first one ends. */
  ghost predicate Exposable(s: State) {
    s.active != {} && (s.monitor != Running || Overlaps(s) || Claimed(s))
  }

  /** A second claim is possible: a program can still end, or has ended, after the first. */
  ghost predicate Reclaimable(s: State) {
    ClaimedTwice(s) || (Claimed(s) && s.monitor == Finished) || Exposable(s)
  }

  lemma FreshId(ids: set<nat>) returns (free: nat)
    ensures forall id :: id in ids ==> id < free
    decreases ids
  {
    free := 0;
    if ids != {} {
      var id :| id in ids;
      var rest := ids - {id};
      free := FreshId(rest);
      assert forall x :: x in ids ==> x == id || x in rest;
      free := if id < free then free else id + 1;
    }
  }

  lemma StepStaysUnexposable(s: State, a: Action)
    requires AnyInv(s) && Step(s, a).Some? && !a.BeginRun? && !Exposable(s)
    ensures !Exposable(Step(s, a).value)
  {
    var t := Step(s, a).value;
    if s.active != {} {
      forall id
        ensures !Claims(t, id)
      {
        assert !Claims(s, id) && !Claims(s, a.id);
      }
      var x :| x in s.active;
      assert forall y :: y in s.active ==> y == x;
      assert t.active != {} ==> t.active == s.active;
    }
  }

  lemma {:induction false} RunStaysUnexposable(s: State, actions: seq<Action>)
    requires AnyInv(s) && NoNewRun(actions) && Run(s, actions).Some? && !Exposable(s)
    ensures !Exposable(Run(s, actions).value)
    decreases |actions|
  {
    if actions != [] {
      StepKeepsAnyInv(s, actions[0]);
      StepStaysUnexposable(s, actions[0]);
      RunStaysUnexposable(Step(s, actions[0]).value, actions[1..]);
    }
  }

  lemma RunOfTwo(s: State, a: Action, b: Action)
    requires Step(s, a).Some? && Step(Step(s, a).value, b).Some?
    ensures Run(s, [a]) == Step(s, a) && Run(s, [a, b]) == Step(Step(s, a).value, b)
  {
    var t := Step(s, a).value;
    var u := Step(t, b).value;
    assert [a][1..] == [] && [b][1..] == [] && [a, b][1..] == [b];
    assert Run(u, []) == Some(u) && Run(t, []) == Some(t);
    assert Run(t, [b]) == Some(u);
  }

  lemma RunOfOne(s: State, a: Action)
    requires Step(s, a).Some?
    ensures Run(s, [a]) == Step(s, a)
  {
    assert [a][1..] == [] && Run(Step(s, a).value, []) == Step(s, a);
  }

  /** With a program running and the monitor in the finished state, any `Close` gets past it. */
  lemma FinishedIsClaimed(s: State) returns (id: nat, t: State)
    requires s.monitor == Finished
    ensures Step(s, EnterClose(id)) == Some(t) && id !in s.closers && Claims(t, id) && t.active == s.active
    ensures forall x :: Claims(s, x) ==> Claims(t, x) && x != id
  {
    id := FreshId(s.closers.Keys);
    t := Step(s, EnterClose(id)).value;
  }

  lemma ExposableIsExposed(s: State)
    requires AnyInv(s) && Exposable(s)
    ensures CanExpose(s)
  {
    if Claimed(s) {
      assert NoNewRun([]) && Run(s, []) == Some(s);
    } else if s.monitor == Finished {
      var id, t := FinishedIsClaimed(s);
      RunOfOne(s, EnterClose(id));
      assert NoNewRun([EnterClose(id)]) && Exposed(t);
    } else {
      var x, y :| x != y && x in s.active && y in s.active;
      var u := Step(s, EndRun(x)).value;
      assert y in u.active;
      var id, t := FinishedIsClaimed(u);
      RunOfTwo(s, EndRun(x), EnterClose(id));
      assert NoNewRun([EndRun(x), EnterClose(id)]) && Exposed(t);
    }
  }

  /**
   With any runs, overlapping or not: without a further `Run` request some continuation has a `Close`
   past the lock while a program runs, if and only if a program runs now and the monitor does not say
   so, or another one runs as well, or some `Close` has claimed the cancellation.
   */
  lemma ExposedIff(actions: seq<Action>)
    requires Run(INIT, actions).Some?
    ensures CanExpose(Run(INIT, actions).value) <==> Exposable(Run(INIT, actions).value)
  {
    RunKeepsAnyInv(INIT, actions);
    var s := Run(INIT, actions).value;
    if Exposable(s) {
      ExposableIsExposed(s);
    } else if CanExpose(s) {
      var more :| NoNewRun(more) && Run(s, more).Some? && Exposed(Run(s, more).value);
      RunStaysUnexposable(s, more);
    }
  }

  lemma StepStaysUnreclaimable(s: State, a: Action)
    requires AnyInv(s) && Step(s, a).Some? && !a.BeginRun? && !Reclaimable(s)
    ensures !Reclaimable(Step(s, a).value)
  {
    var t := Step(s, a).value;
    StepStaysUnexposable(s, a);
    assert forall id :: Claims(t, id) ==> Claims(s, id) || ((a.EnterClose? || a.RetryClose?) && id == a.id);
    if Claimed(s) {
      assert forall id :: Claims(t, id) ==> Claims(s, id);
      assert t.monitor == s.monitor;
    }
  }

  lemma {:induction false} RunStaysUnreclaimable(s: State, actions: seq<Action>)
    requires AnyInv(s) && NoNewRun(actions) && Run(s, actions).Some? && !Reclaimable(s)
    ensures !Reclaimable(Run(s, actions).value)
    decreases |actions|
  {
    if actions != [] {
      StepKeepsAnyInv(s, actions[0]);
      StepStaysUnreclaimable(s, actions[0]);
      RunStaysUnreclaimable(Step(s, actions[0]).value, actions[1..]);
    }
  }

  lemma ClaimTwiceNow(s: State)
    requires Claimed(s) && s.monitor == Finished
    ensures CanClaimTwice(s)
  {
    var x :| Claims(s, x);
    var id, t := FinishedIsClaimed(s);
    RunOfOne(s, EnterClose(id));
    assert NoNewRun([EnterClose(id)]) && ClaimedTwice(t);
  }

  lemma ClaimTwiceLater(s: State, a: Action)
    requires Step(s, a).Some? && !a.BeginRun? && CanClaimTwice(Step(s, a).value)
    ensures CanClaimTwice(s)
  {
    var t := Step(s, a).value;
    var more :| NoNewRun(more) && Run(t, more).Some? && ClaimedTwice(Run(t, more).value);
    assert ([a] + more)[1..] == more;
    assert NoNewRun([a] + more) && Run(s, [a] + more) == Run(t, more);
  }

  lemma ExposedIsClaimedTwice(s: State)
    requires Exposed(s)
    ensures CanClaimTwice(s)
  {
    var r :| r in s.active;
    var t := Step(s, EndRun(r)).value;
    var x :| Claims(s, x);
    assert Claims(t, x);
    ClaimTwiceNow(t);
    ClaimTwiceLater(s, EndRun(r));
  }

  lemma {:induction false} ClaimTwiceAfter(s: State, actions: seq<Action>)
    requires NoNewRun(actions) && Run(s, actions).Some? && CanClaimTwice(Run(s, actions).value)
    ensures CanClaimTwice(s)
    decreases |actions|
  {
    if actions != [] {
      assert NoNewRun(actions[1..]);
      ClaimTwiceAfter(Step(s, actions[0]).value, actions[1..]);
      ClaimTwiceLater(s, actions[0]);
    }
  }

  /**
   And some continuation has two `Close` calls past the lock, so that the cancel channel is closed
   twice, if and only if that is so already, or one is past it and the finished state open to a second,
   or a program can be exposed.
   */
  lemma ClaimedTwiceIff(actions: seq<Action>)
    requires Run(INIT, actions).Some?
    ensures CanClaimTwice(Run(INIT, actions).value) <==> Reclaimable(Run(INIT, actions).value)
  {
    RunKeepsAnyInv(INIT, actions);
    var s := Run(INIT, actions).value;
    if ClaimedTwice(s) {
      assert NoNewRun([]) && Run(s, []) == Some(s);
    } else if Claimed(s) && s.monitor == Finished {
      ClaimTwiceNow(s);
    } else if Exposable(s) {
      ExposableIsExposed(s);
      var more :| NoNewRun(more) && Run(s, more).Some? && Exposed(Run(s, more).value);
      ExposedIsClaimedTwice(Run(s, more).value);
      ClaimTwiceAfter(s, more);
    } else if CanClaimTwice(s) {
      var more :| NoNewRun(more) && Run(s, more).Some? && ClaimedTwice(Run(s, more).value);
      RunStaysUnreclaimable(s, more);
    }
  }

  /** Overlapping runs do lead there: a `Close` proceeds while a program runs. */
  lemma OverlappingRunsBreakIt()
    ensures exists actions :: var r := Run(INIT, actions);
                              r.Some? && r.value.active != {} && Claims(r.value, 0)
  {
    var a0, a1, a2, a3 := BeginRun(0), BeginRun(1), EndRun(0), EnterClose(0);
    var s1 := Step(INIT, a0).value;
    var s2 := Step(s1, a1).value;
    var s3 := Step(s2, a2).value;
    var s4 := Step(s3, a3).value;
    assert 1 in s4.active && Claims(s4, 0);
    assert Run(s4, []) == Some(s4);
    assert [a3][1..] == [] && Run(s3, [a3]) == Some(s4);
    assert [a2, a3][1..] == [a3] && Run(s2, [a2, a3]) == Some(s4);
    assert [a1, a2, a3][1..] == [a2, a3] && Run(s1, [a1, a2, a3]) == Some(s4);
    assert [a0, a1, a2, a3][1..] == [a1, a2, a3] && Run(INIT, [a0, a1, a2, a3]) == Some(s4);
  }
}
