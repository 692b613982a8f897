/**
 The two-phase cancel of one operation: any number of `Cancel` callers racing on a compare-and-swap,
 two `sync.Once` guards around the two channel closes, and any number of scopes watching them.
 */
module CancelProtocol {
  import opened Wrappers

  // ----- Operation.Cancel without interference -----

  /** The fields `Cancel` touches; the closes are counted because a second close would panic. */
  datatype Signals = Signals(
    requested: bool,
    cancelOnce: bool,
    terminateOnce: bool,
    cancelCloses: nat,
    terminateCloses: nat)

  const QUIET := Signals(false, false, false, 0, 0)

  function CancelDo(g: Signals): Signals {
    if g.cancelOnce then g else g.(cancelOnce := true, cancelCloses := g.cancelCloses + 1)
  }

  function TerminateDo(g: Signals): Signals {
    if g.terminateOnce then g else g.(terminateOnce := true, terminateCloses := g.terminateCloses + 1)
  }

  class Switch {
    var requested: bool
    var cancelOnce: bool
    var terminateOnce: bool
    var cancelCloses: nat
    var terminateCloses: nat

    ghost function View(): Signals
      reads this
    {
      Signals(requested, cancelOnce, terminateOnce, cancelCloses, terminateCloses)
    }

    constructor ()
      ensures View() == QUIET
    {
      requested, cancelOnce, terminateOnce, cancelCloses, terminateCloses := false, false, false, 0, 0;
    }

    /** One uninterrupted call: the first closes the cancel channel, every later one asks to terminate. */
    method Cancel()
      modifies this
      ensures View() == if old(requested) then TerminateDo(old(View())) else CancelDo(old(View())).(requested := true)
    {
      if !requested {
        requested := true;
        if !cancelOnce {
          cancelOnce := true;
          cancelCloses := cancelCloses + 1;
        }
        return;
      }
      if !terminateOnce {
        terminateOnce := true;
        terminateCloses := terminateCloses + 1;
      }
    }
  }

  /** `n` calls one after the other close the cancel channel iff n >= 1 and the other iff n >= 2. */
  method CancelTimes(n: nat) returns (closes: (nat, nat))
    ensures closes == (if n >= 1 then 1 else 0, if n >= 2 then 1 else 0)
  {
    var w := new Switch();
    for i := 0 to n
      invariant w.requested <==> i >= 1
      invariant w.cancelOnce <==> i >= 1
      invariant w.terminateOnce <==> i >= 2
      invariant w.cancelCloses == if i >= 1 then 1 else 0
      invariant w.terminateCloses == if i >= 2 then 1 else 0
    {
      w.Cancel();
    }
    closes := (w.cancelCloses, w.terminateCloses);
  }

  // ----- Interleaved callers and scopes -----

  datatype Signal = CancelCalled | TerminateCalled

  /** The goroutine of `NewScope`: two selects, each followed by a call when its channel was the reason. */
  datatype Watcher = AwaitCancel | CallCancel | AwaitTerminate | CallTerminate | Gone

  datatype Scope = Scope(watcher: Watcher, closed: bool, log: seq<Signal>)

  /** `won` and `lost` count the callers between the compare-and-swap and their `Once`. */
  datatype State = State(signals: Signals, calls: nat, won: nat, lost: nat, scopes: map<nat, Scope>)

  const INIT := State(QUIET, 0, 0, 0, map[])

  datatype Action =
    | CompareAndSwap
    | CancelOnceDo
    | TerminateOnceDo
    | NewScope(id: nat)
    | CloseScope(id: nat)
    | ReceiveCancel(id: nat)
    | SrcCancel(id: nat)
    | ReceiveTerminate(id: nat)
    | SrcTerminate(id: nat)
    | ReceiveDone(id: nat)

  function Step(s: State, a: Action): Option<State> {
    match a
    case CompareAndSwap =>
      if s.signals.requested then Some(s.(calls := s.calls + 1, lost := s.lost + 1))
      else Some(s.(calls := s.calls + 1, won := s.won + 1, signals := s.signals.(requested := true)))
    case CancelOnceDo =>
      if s.won == 0 then None else Some(s.(won := s.won - 1, signals := CancelDo(s.signals)))
    case TerminateOnceDo =>
      if s.lost == 0 then None else Some(s.(lost := s.lost - 1, signals := TerminateDo(s.signals)))
    case NewScope(id) =>
      if id in s.scopes then None else Some(s.(scopes := s.scopes[id := Scope(AwaitCancel, false, [])]))
    case _ =>
      if a.id !in s.scopes then None
      else
        match ScopeStep(s.signals, s.scopes[a.id], a)
        case None => None
        case Some(c) => Some(s.(scopes := s.scopes[a.id := c]))
  }

  function ScopeStep(g: Signals, c: Scope, a: Action): Option<Scope> {
    match a
    case CloseScope(_) => Some(c.(closed := true))
    case ReceiveCancel(_) =>
      if c.watcher == AwaitCancel && g.cancelCloses > 0 then Some(c.(watcher := CallCancel)) else None
    case SrcCancel(_) =>
      if c.watcher == CallCancel then Some(c.(watcher := AwaitTerminate, log := c.log + [CancelCalled])) else None
    case ReceiveTerminate(_) =>
      if c.watcher == AwaitTerminate && g.terminateCloses > 0 then Some(c.(watcher := CallTerminate)) else None
    case SrcTerminate(_) =>
      if c.watcher == CallTerminate then Some(c.(watcher := Gone, log := c.log + [TerminateCalled])) else None
    case ReceiveDone(_) =>
      if (c.watcher == AwaitCancel || c.watcher == AwaitTerminate) && c.closed then Some(c.(watcher := Gone)) else None
    case _ => None
  }

  function Run(s: State, actions: seq<Action>): Option<State>
    decreases |actions|
  {
    if actions == [] then Some(s)
    else
      match Step(s, actions[0])
      case None => None
      case Some(t) => Run(t, actions[1..])
  }

  // ----- Invariants -----

  ghost predicate CallersInv(s: State) {
    var g := s.signals;
    && (g.requested <==> s.calls >= 1)
    && s.won + g.cancelCloses == (if s.calls >= 1 then 1 else 0)
    && (g.cancelOnce <==> g.cancelCloses == 1)
    && g.terminateCloses <= 1
    && (g.terminateOnce <==> g.terminateCloses == 1)
    && (s.lost >= 1 || g.terminateCloses == 1 <==> s.calls >= 2)
  }

  ghost predicate ScopeInv(g: Signals, c: Scope) {
    && (c.watcher == AwaitCancel ==> c.log == [])
    && (c.watcher == CallCancel ==> c.log == [] && g.cancelCloses > 0)
    && (c.watcher == AwaitTerminate ==> c.log == [CancelCalled] && g.cancelCloses > 0)
    && (c.watcher == CallTerminate ==> c.log == [CancelCalled] && g.cancelCloses > 0 && g.terminateCloses > 0)
    && (c.watcher == Gone ==>
          || (c.log == [] && c.closed)
          || (c.log == [CancelCalled] && c.closed && g.cancelCloses > 0)
          || (c.log == [CancelCalled, TerminateCalled] && g.cancelCloses > 0 && g.terminateCloses > 0))
  }

  ghost predicate Inv(s: State) {
    CallersInv(s) && forall id :: id in s.scopes ==> ScopeInv(s.signals, s.scopes[id])
  }

  lemma StepKeepsInv(s: State, a: Action)
    requires Inv(s) && Step(s, a).Some?
    ensures Inv(Step(s, a).value)
  {
    var t := Step(s, a).value;
    forall id | id in t.scopes
      ensures ScopeInv(t.signals, t.scopes[id])
    {
      if id in s.scopes {
        assert ScopeInv(s.signals, s.scopes[id]);
      }
    }
  }

  lemma {:induction false} RunKeepsInv(s: State, actions: seq<Action>)
    requires Inv(s) && Run(s, actions).Some?
    ensures Inv(Run(s, actions).value)
    decreases |actions|
  {
    if actions != [] {
      StepKeepsInv(s, actions[0]);
      RunKeepsInv(Step(s, actions[0]).value, actions[1..]);
    }
  }

  /**
   Whatever the callers' interleaving, each channel is closed at most once, the terminate channel only
   after a second call; and when no caller is between its two steps, the closes are exactly decided by
   the number of calls.
   */
  lemma ClosesAtMostOnce(actions: seq<Action>)
    requires Run(INIT, actions).Some?
    ensures var s := Run(INIT, actions).value;
            && s.signals.cancelCloses <= 1
            && s.signals.terminateCloses <= 1
            && (s.signals.cancelCloses == 1 ==> s.calls >= 1)
            && (s.signals.terminateCloses == 1 ==> s.calls >= 2)
            && (s.won == 0 && s.lost == 0 ==>
                  && (s.signals.cancelCloses == 1 <==> s.calls >= 1)
                  && (s.signals.terminateCloses == 1 <==> s.calls >= 2))
  {
    Reachable(actions);
    ClosesByCalls(Run(INIT, actions).value);
  }

  lemma Reachable(actions: seq<Action>)
    requires Run(INIT, actions).Some?
    ensures Inv(Run(INIT, actions).value)
  {
    RunKeepsInv(INIT, actions);
  }

  lemma ClosesByCalls(s: State)
    requires Inv(s)
    ensures s.signals.cancelCloses <= 1 && s.signals.terminateCloses <= 1
    ensures s.signals.cancelCloses == 1 ==> s.calls >= 1
    ensures s.signals.terminateCloses == 1 ==> s.calls >= 2
    ensures s.won == 0 && s.lost == 0 ==>
              && (s.signals.cancelCloses == 1 <==> s.calls >= 1)
              && (s.signals.terminateCloses == 1 <==> s.calls >= 2)
  {
  }

  /** How far a scope has come is written in its log. */
  lemma LogOfScope(s: State, id: nat)
    requires Inv(s) && id in s.scopes
    ensures var log := s.scopes[id].log;
            && log <= [CancelCalled, TerminateCalled]
            && (CancelCalled in log ==> s.signals.cancelCloses == 1)
            && (TerminateCalled in log ==> s.signals.terminateCloses == 1 && log[0] == CancelCalled && s.calls >= 2)
    ensures s.scopes[id].watcher == Gone && !s.scopes[id].closed ==>
              s.scopes[id].log == [CancelCalled, TerminateCalled]
  {
    assert ScopeInv(s.signals, s.scopes[id]);
  }

  /**
   Every scope calls Cancel at most once and Terminate at most once, Terminate only after its own
   Cancel, and each only after the channel it waited for was closed.
   */
  lemma TerminateOnlyAfterOwnCancel(actions: seq<Action>, id: nat)
    requires Run(INIT, actions).Some? && id in Run(INIT, actions).value.scopes
    ensures var s := Run(INIT, actions).value;
            var log := s.scopes[id].log;
            && log <= [CancelCalled, TerminateCalled]
            && (CancelCalled in log ==> s.signals.cancelCloses == 1)
            && (TerminateCalled in log ==> s.signals.terminateCloses == 1 && log[0] == CancelCalled && s.calls >= 2)
  {
    Reachable(actions);
    LogOfScope(Run(INIT, actions).value, id);
  }

  /** A watcher that leaves before its scope closes has passed both signals on. */
  lemma OpenScopesGetBothSignals(actions: seq<Action>, id: nat)
    requires Run(INIT, actions).Some? && id in Run(INIT, actions).value.scopes
    requires var c := Run(INIT, actions).value.scopes[id]; c.watcher == Gone && !c.closed
    ensures Run(INIT, actions).value.scopes[id].log == [CancelCalled, TerminateCalled]
  {
    Reachable(actions);
    LogOfScope(Run(INIT, actions).value, id);
  }

  /** The signals that were given, as a scope passes them on: no Terminate before a Cancel. */
  function Given(g: Signals): seq<Signal> {
    if g.cancelCloses == 0 then []
    else if g.terminateCloses == 0 then [CancelCalled]
    else [CancelCalled, TerminateCalled]
  }

  /** The next step of a watcher that still has a signal to pass on. */
  function NextOf(id: nat, w: Watcher): Action {
    match w
    case AwaitCancel => ReceiveCancel(id)
    case CallCancel => SrcCancel(id)
    case AwaitTerminate => ReceiveTerminate(id)
    case _ => SrcTerminate(id)
  }

  function Distance(w: Watcher): nat {
    match w
    case AwaitCancel => 4
    case CallCancel => 3
    case AwaitTerminate => 2
    case CallTerminate => 1
    case Gone => 0
  }

  lemma NextIsPossible(s: State, id: nat)
    requires Inv(s) && id in s.scopes && !s.scopes[id].closed && s.scopes[id].log != Given(s.signals)
    ensures var r := Step(s, NextOf(id, s.scopes[id].watcher));
            && r.Some? && r.value.signals == s.signals && id in r.value.scopes && !r.value.scopes[id].closed
            && Distance(r.value.scopes[id].watcher) < Distance(s.scopes[id].watcher)
  {
    assert ScopeInv(s.signals, s.scopes[id]);
  }

  /** From any reachable state the watcher of an open scope can pass on every signal that was given. */
  lemma OpenScopeTakesTheSignals(s: State, id: nat) returns (more: seq<Action>)
    requires Inv(s) && id in s.scopes && !s.scopes[id].closed
    ensures var r := Run(s, more);
            && r.Some? && r.value.signals == s.signals && id in r.value.scopes
            && r.value.scopes[id].log == Given(s.signals)
    decreases Distance(s.scopes[id].watcher)
  {
    more := [];
    if s.scopes[id].log != Given(s.signals) {
      var a := NextOf(id, s.scopes[id].watcher);
      NextIsPossible(s, id);
      StepKeepsInv(s, a);
      var rest := OpenScopeTakesTheSignals(Step(s, a).value, id);
      more := [a] + rest;
      assert more[1..] == rest;
    }
  }

  /** Nor does a scope come too late: one that is opened after the signals were given gets them all the same. */
  lemma LateScopeTakesTheSignals(s: State, id: nat) returns (more: seq<Action>)
    requires Inv(s) && id !in s.scopes
    ensures more != [] && more[0] == NewScope(id)
    ensures var r := Run(s, more);
            && r.Some? && r.value.signals == s.signals && id in r.value.scopes
            && r.value.scopes[id].log == Given(s.signals)
  {
    var t := Step(s, NewScope(id)).value;
    StepKeepsInv(s, NewScope(id));
    var rest := OpenScopeTakesTheSignals(t, id);
    more := [NewScope(id)] + rest;
    assert more[1..] == rest;
  }

  /** The next step of a watcher whose scope is closed: it finishes its call, or leaves. */
  function LeavingStep(id: nat, w: Watcher): Action {
    match w
    case CallCancel => SrcCancel(id)
    case CallTerminate => SrcTerminate(id)
    case _ => ReceiveDone(id)
  }

  /** No watcher is left behind: once its scope is closed it can leave by steps of its own. */
  lemma ClosedScopeIsLeft(s: State, id: nat) returns (more: seq<Action>)
    requires id in s.scopes && s.scopes[id].closed
    ensures Run(s, more).Some? && |more| <= 2 && forall i :: 0 <= i < |more| ==> !more[i].ReceiveCancel?
    ensures id in Run(s, more).value.scopes && Run(s, more).value.scopes[id].watcher == Gone
    decreases Distance(s.scopes[id].watcher)
  {
    more := [];
    if s.scopes[id].watcher != Gone {
      var a := LeavingStep(id, s.scopes[id].watcher);
      var t := Step(s, a).value;
      if t.scopes[id].watcher == Gone {
        more := [a];
        assert more[1..] == [] && Run(t, []) == Some(t);
      } else {
        var b := LeavingStep(id, t.scopes[id].watcher);
        var u := Step(t, b).value;
        more := [a, b];
        assert more[1..] == [b] && [b][1..] == [] && Run(u, []) == Some(u);
        assert Run(t, [b]) == Some(u);
      }
    }
  }

  /** The case the ordering has to survive is reachable: the terminate channel closed first. */
  lemma TerminateCanCloseFirst()
    ensures exists actions :: Run(INIT, actions).Some?
                              && Run(INIT, actions).value.signals.terminateCloses == 1
                              && Run(INIT, actions).value.signals.cancelCloses == 0
  {
    var s1 := Step(INIT, CompareAndSwap).value;
    var s2 := Step(s1, CompareAndSwap).value;
    var s3 := Step(s2, TerminateOnceDo).value;
    var actions := [CompareAndSwap, CompareAndSwap, TerminateOnceDo];
    assert actions[1..] == [CompareAndSwap, TerminateOnceDo] && actions[1..][1..] == [TerminateOnceDo];
    assert Run(s3, []) == Some(s3);
    assert Run(s2, [TerminateOnceDo]) == Some(s3);
    assert Run(s1, [CompareAndSwap, TerminateOnceDo]) == Some(s3);
    assert Run(INIT, actions) == Some(s3);
  }
}
