/**
 One stack handle with any number of operations: `start` registers, `TryLock` admits one at a time,
 `finish` publishes, and `Stack.Cancel` works from a snapshot of the running set.
 */
module StackHandle {
  import opened Wrappers
  import opened Seqs

  datatype Failure = Cancelled | ConcurrentUpdate | OtherFailure(text: string)

  datatype Outcome = Outcome(outputs: Option<string>, cancelled: bool)

  /** Where `run` is. Every phase up to `Classified` counts as running. */
  datatype Phase = Started | Locked | Returned | Recorded | Classified | Deregistered | StreamClosed | Finished

  /**
   `admitted` is whether it got the lock, `raw` the error `execute` returned, `err` what `Wait` reports;
   `doneCloses` counts close(done).
   */
  datatype Op = Op(
    phase: Phase,
    admitted: bool,
    raw: Option<Failure>,
    outcome: Outcome,
    err: Option<Failure>,
    cancelCalls: nat,
    doneCloses: nat)

  const NEW := Op(Started, false, None, Outcome(None, false), None, 0, 0)

  /** One `Stack.Cancel` call: the snapshot it took and the part of it not yet cancelled. */
  datatype Canceller = Canceller(snapshot: set<nat>, remaining: set<nat>)

  datatype State = State(ops: map<nat, Op>, running: set<nat>, holder: Option<nat>, cancellers: map<nat, Canceller>)

  const INIT := State(map[], {}, None, map[])

  datatype Action =
    | Start(id: nat)
    | FailEarly(id: nat, failure: Failure)
    | TryLock(id: nat)
    | SetOutputs(id: nat, outputs: string)
    | Unlock(id: nat, raw: Option<Failure>)
    | Record(id: nat)
    | Classify(id: nat, failure: Failure)
    | Deregister(id: nat)
    | CloseStream(id: nat)
    | CloseDone(id: nat)
    | UserCancel(id: nat)
    | Snapshot(who: nat)
    | CancelNext(who: nat, id: nat)

  function With(s: State, id: nat, op: Op): State {
    s.(ops := s.ops[id := op])
  }

  /**
   What classification makes of a raw error: nothing, or the cancel if one was requested. An operation
   that was not admitted has seen no event, so its own typed error stays what it is; for the others it
   may be any kind.
   */
  function Classification(op: Op, failure: Failure): Option<Failure> {
    if op.raw.None? then None
    else if op.cancelCalls > 0 then Some(Cancelled)
    else if !op.admitted then op.raw
    else Some(failure)
  }

  function Step(s: State, a: Action): Option<State> {
    match a
    case Start(id) =>
      if id in s.ops then None else Some(With(s, id, NEW).(running := s.running + {id}))
    case Snapshot(who) =>
      if who in s.cancellers then None
      else Some(s.(cancellers := s.cancellers[who := Canceller(s.running, s.running)]))
    case CancelNext(who, id) =>
      if who !in s.cancellers || id !in s.cancellers[who].remaining || id !in s.ops then None
      else
        var c := s.cancellers[who];
        Some(With(s, id, s.ops[id].(cancelCalls := s.ops[id].cancelCalls + 1))
             .(cancellers := s.cancellers[who := c.(remaining := c.remaining - {id})]))
    case _ =>
      if a.id !in s.ops then None else OpStep(s, a.id, s.ops[a.id], a)
  }

  /** The steps of one operation's own goroutine, and a user's `Operation.Cancel`. */
  function OpStep(s: State, id: nat, op: Op, a: Action): Option<State> {
    match a
    case FailEarly(_, failure) =>
      if op.phase != Started then None else Some(With(s, id, op.(phase := Returned, raw := Some(failure))))
    case TryLock(_) =>
      if op.phase != Started then None
      else if s.holder.Some? then Some(With(s, id, op.(phase := Returned, raw := Some(ConcurrentUpdate))))
      else Some(With(s, id, op.(phase := Locked, admitted := true)).(holder := Some(id)))
    case SetOutputs(_, outputs) =>
      if op.phase != Locked then None
      else Some(With(s, id, op.(outcome := op.outcome.(outputs := Some(outputs)))))
    case Unlock(_, raw) =>
      if op.phase != Locked then None
      else Some(With(s, id, op.(phase := Returned, raw := raw)).(holder := None))
    case Record(_) =>
      if op.phase != Returned then None else Some(With(s, id, op.(phase := Recorded)))
    case Classify(_, failure) =>
      if op.phase != Recorded then None
      else
        var err := Classification(op, failure);
        Some(With(s, id, op.(phase := Classified, err := err,
                             outcome := op.outcome.(cancelled := err == Some(Cancelled)))))
    case Deregister(_) =>
      if op.phase != Classified then None
      else Some(With(s, id, op.(phase := Deregistered)).(running := s.running - {id}))
    case CloseStream(_) =>
      if op.phase != Deregistered then None else Some(With(s, id, op.(phase := StreamClosed)))
    case CloseDone(_) =>
      if op.phase != StreamClosed then None
      else Some(With(s, id, op.(phase := Finished, doneCloses := op.doneCloses + 1)))
    case UserCancel(_) =>
      Some(With(s, id, op.(cancelCalls := op.cancelCalls + 1)))
    case _ => None
  }

  function Run(s: State, actions: seq<Action>): Option<State>
    decreases |actions|
  {
    if actions == [] then Some(s)
    else
      match Step(s, actions[0])
      case None => None
      case Some(t) => Run(t, actions[1..])
  }

  // ----- Invariants -----

  predicate Running(p: Phase) {
    p.Started? || p.Locked? || p.Returned? || p.Recorded? || p.Classified?
  }

  predicate Decided(p: Phase) {
    p.Classified? || p.Deregistered? || p.StreamClosed? || p.Finished?
  }

  /** Where an operation is, seen from the running set and the lock. */
  ghost predicate OpInv(s: State, id: nat) {
    && (id in s.running <==> id in s.ops && Running(s.ops[id].phase))
    && (s.holder == Some(id) <==> id in s.ops && s.ops[id].phase == Locked)
  }

  /** What its own fields say. */
  predicate Sound(op: Op) {
    && op.doneCloses == (if op.phase == Finished then 1 else 0)
    && (op.phase.Started? ==> !op.admitted)
    && (Decided(op.phase) ==> (op.outcome.cancelled <==> op.err == Some(Cancelled)) && (op.err.None? <==> op.raw.None?))
  }

  ghost predicate OpsInv(s: State) {
    forall id :: OpInv(s, id)
  }

  ghost predicate OpsSound(s: State) {
    forall id :: id in s.ops ==> Sound(s.ops[id])
  }

  ghost predicate CancellersInv(s: State) {
    forall who :: who in s.cancellers ==> CancellerInv(s, s.cancellers[who])
  }

  ghost predicate Inv(s: State) {
    OpsInv(s) && OpsSound(s) && CancellersInv(s)
  }

  ghost predicate CancellerInv(s: State, c: Canceller) {
    && c.remaining <= c.snapshot
    && (forall id :: id in c.snapshot ==> id in s.ops)
    && (forall id :: id in c.snapshot && id !in c.remaining ==> s.ops[id].cancelCalls >= 1)
  }

  lemma StepKeepsOps(s: State, a: Action)
    requires OpsInv(s) && Step(s, a).Some?
    ensures OpsInv(Step(s, a).value)
  {
    var t := Step(s, a).value;
    forall id: nat
      ensures OpInv(t, id)
    {
      assert OpInv(s, id);
      if !a.Start? && !a.Snapshot? {
        assert OpInv(s, a.id);
      }
    }
  }

  lemma StepKeepsSound(s: State, a: Action)
    requires OpsSound(s) && Step(s, a).Some?
    ensures OpsSound(Step(s, a).value)
  {
  }

  lemma StepKeepsCancellers(s: State, a: Action)
    requires OpsInv(s) && CancellersInv(s) && Step(s, a).Some?
    ensures CancellersInv(Step(s, a).value)
  {
    var t := Step(s, a).value;
    assert forall id :: id in s.running ==> OpInv(s, id);
    forall who | who in t.cancellers
      ensures CancellerInv(t, t.cancellers[who])
    {
      if who in s.cancellers {
        assert CancellerInv(s, s.cancellers[who]);
      }
    }
  }

  lemma StepKeepsInv(s: State, a: Action)
    requires Inv(s) && Step(s, a).Some?
    ensures Inv(Step(s, a).value)
  {
    StepKeepsOps(s, a);
    StepKeepsSound(s, a);
    StepKeepsCancellers(s, a);
  }

  lemma {:induction false} RunKeepsInv(s: State, actions: seq<Action>)
    requires Inv(s) && Run(s, actions).Some?
    ensures Inv(Run(s, actions).value)
    decreases |actions|
  {
    if actions != [] {
      StepKeepsInv(s, actions[0]);
      RunKeepsInv(Step(s, actions[0]).value, actions[1..]);
    }
  }

  /** On every run at most one operation of the handle is past `TryLock`. */
  lemma MutualExclusion(actions: seq<Action>, x: nat, y: nat)
    requires Run(INIT, actions).Some?
    requires var s := Run(INIT, actions).value; x in s.ops && y in s.ops
    requires var s := Run(INIT, actions).value; s.ops[x].phase == Locked && s.ops[y].phase == Locked
    ensures x == y
  {
    RunKeepsInv(INIT, actions);
    var s := Run(INIT, actions).value;
    assert OpInv(s, x) && OpInv(s, y);
  }

  /** An operation is in the running set exactly from its start until `finish` takes it out. */
  lemma RunningExactlyUntilFinish(actions: seq<Action>, id: nat)
    requires Run(INIT, actions).Some?
    ensures var s := Run(INIT, actions).value;
            && (id in s.running <==> id in s.ops && Running(s.ops[id].phase))
            && (id in s.ops ==> s.ops[id].doneCloses <= 1
                                && (s.ops[id].doneCloses == 1 <==> s.ops[id].phase == Finished)
                                && (s.ops[id].phase == Finished ==> id !in s.running))
  {
    RunKeepsInv(INIT, actions);
    assert OpInv(Run(INIT, actions).value, id);
  }

  /** Once classified, no step of any goroutine changes an operation's result or error. */
  lemma {:induction false} PublishedOutcomeIsFixed(s: State, actions: seq<Action>, id: nat)
    requires id in s.ops && Decided(s.ops[id].phase)
    requires Run(s, actions).Some?
    ensures var t := Run(s, actions).value;
            && id in t.ops && Decided(t.ops[id].phase)
            && t.ops[id].outcome == s.ops[id].outcome
            && t.ops[id].err == s.ops[id].err
            && t.ops[id].doneCloses >= s.ops[id].doneCloses
    decreases |actions|
  {
    if actions != [] {
      PublishedOutcomeIsFixed(Step(s, actions[0]).value, actions[1..], id);
    }
  }

  lemma RunTwo(s: State, a: seq<Action>, b: seq<Action>)
    requires Run(s, a).Some?
    ensures Run(s, a + b) == Run(Run(s, a).value, b)
    decreases |a|
  {
    if a == [] {
      assert a + b == b;
    } else {
      TailOfSum(a, b);
      RunTwo(Step(s, a[0]).value, a[1..], b);
    }
  }

  lemma {:induction false} SnapshotStays(s: State, actions: seq<Action>, who: nat)
    requires who in s.cancellers && Run(s, actions).Some?
    ensures who in Run(s, actions).value.cancellers
    ensures Run(s, actions).value.cancellers[who].snapshot == s.cancellers[who].snapshot
    decreases |actions|
  {
    if actions != [] {
      SnapshotStays(Step(s, actions[0]).value, actions[1..], who);
    }
  }

  /**
   `Stack.Cancel`: when the call has worked through its snapshot, every operation that was running
   when the snapshot was taken has been asked to cancel.
   */
  lemma CancelReachesEveryRunningOperation(before: seq<Action>, who: nat, after: seq<Action>, id: nat)
    requires Run(INIT, before).Some? && who !in Run(INIT, before).value.cancellers
    requires Run(INIT, before + [Snapshot(who)] + after).Some?
    requires var t := Run(INIT, before + [Snapshot(who)] + after).value;
             who in t.cancellers && t.cancellers[who].remaining == {}
    requires id in Run(INIT, before).value.running
    ensures var t := Run(INIT, before + [Snapshot(who)] + after).value;
            id in t.ops && t.ops[id].cancelCalls >= 1
  {
    var s := Run(INIT, before).value;
    assert before + [Snapshot(who)] + after == before + ([Snapshot(who)] + after);
    RunTwo(INIT, before, [Snapshot(who)] + after);
    assert ([Snapshot(who)] + after)[1..] == after;
    var s1 := Step(s, Snapshot(who)).value;
    SnapshotStays(s1, after, who);
    RunKeepsInv(INIT, before + [Snapshot(who)] + after);
    var t := Run(INIT, before + [Snapshot(who)] + after).value;
    assert CancellerInv(t, t.cancellers[who]);
  }

  /**
   And the call never gets stuck: as long as operations of its snapshot are left it can ask the next one,
   and each is asked once.
   */
  lemma CancelGoesOn(actions: seq<Action>, who: nat, id: nat)
    requires Run(INIT, actions).Some?
    requires var s := Run(INIT, actions).value; who in s.cancellers && id in s.cancellers[who].remaining
    ensures var s := Run(INIT, actions).value;
            && Step(s, CancelNext(who, id)).Some?
            && var t := Step(s, CancelNext(who, id)).value;
               && t.ops[id].cancelCalls == s.ops[id].cancelCalls + 1
               && t.cancellers[who].remaining == s.cancellers[who].remaining - {id}
  {
    RunKeepsInv(INIT, actions);
    var s := Run(INIT, actions).value;
    assert CancellerInv(s, s.cancellers[who]);
  }

  // ----- Asking for a cancel -----

  /** How often an operation was asked to cancel, by its user or by `Stack.Cancel`. */
  function Requests(actions: seq<Action>, id: nat): nat {
    if actions == [] then 0
    else (if Asks(actions[0], id) then 1 else 0) + Requests(actions[1..], id)
  }

  predicate Asks(a: Action, id: nat) {
    (a.UserCancel? || a.CancelNext?) && a.id == id
  }

  function Asked(s: State, id: nat): nat {
    if id in s.ops then s.ops[id].cancelCalls else 0
  }

  /** Every request is counted, from the start of the operation to its end, and nothing else is. */
  lemma {:induction false} RequestsAreCounted(s: State, actions: seq<Action>, id: nat)
    requires Run(s, actions).Some?
    ensures Asked(Run(s, actions).value, id) == Asked(s, id) + Requests(actions, id)
    decreases |actions|
  {
    if actions != [] {
      RequestsAreCounted(Step(s, actions[0]).value, actions[1..], id);
    }
  }

  /**
   On every run, the step that classifies a failing operation reports Cancelled, in the error and in the
   result, if it was asked to cancel at any time before; and an operation that did not fail reports
   neither.
   */
  lemma RequestedCancelIsReported(actions: seq<Action>, id: nat, failure: Failure)
    requires Run(INIT, actions).Some? && Step(Run(INIT, actions).value, Classify(id, failure)).Some?
    requires Requests(actions, id) >= 1
    ensures var op := Step(Run(INIT, actions).value, Classify(id, failure)).value.ops[id];
            if op.raw.Some? then op.err == Some(Cancelled) && op.outcome.cancelled
            else op.err == None && !op.outcome.cancelled
  {
    RequestsAreCounted(INIT, actions, id);
  }

  // ----- Being refused -----

  /** On every run an operation that tries the lock gets it exactly when no other one has it. */
  lemma AdmittedIffFree(actions: seq<Action>, id: nat)
    requires Run(INIT, actions).Some? && Step(Run(INIT, actions).value, TryLock(id)).Some?
    ensures var s := Run(INIT, actions).value;
            Step(s, TryLock(id)).value.ops[id].phase == Locked <==>
            forall other :: other in s.ops ==> s.ops[other].phase != Locked
  {
    RunKeepsInv(INIT, actions);
    var s := Run(INIT, actions).value;
    assert forall other :: other in s.ops ==> OpInv(s, other);
    if s.holder.Some? {
      assert OpInv(s, s.holder.value);
    }
  }

  predicate Refused(op: Op) {
    !op.admitted && op.raw == Some(ConcurrentUpdate) && !op.phase.Started? && !op.phase.Locked?
  }

  lemma {:induction false} RefusedStays(s: State, actions: seq<Action>, id: nat)
    requires id in s.ops && Refused(s.ops[id]) && Run(s, actions).Some?
    ensures id in Run(s, actions).value.ops && Refused(Run(s, actions).value.ops[id])
    decreases |actions|
  {
    if actions != [] {
      RefusedStays(Step(s, actions[0]).value, actions[1..], id);
    }
  }

  /**
   An operation that tries the lock while another one has it reports that another update is in
   progress, whatever happens until it is classified, unless it is asked to cancel by then.
   */
  lemma RefusedReportsConcurrentUpdate(before: seq<Action>, id: nat, after: seq<Action>, failure: Failure)
    requires Run(INIT, before).Some? && Run(INIT, before).value.holder.Some?
    requires Step(Run(INIT, before).value, TryLock(id)).Some?
    requires var t := Step(Run(INIT, before).value, TryLock(id)).value;
             Run(t, after).Some? && Step(Run(t, after).value, Classify(id, failure)).Some?
    ensures var t := Step(Run(INIT, before).value, TryLock(id)).value;
            var op := Step(Run(t, after).value, Classify(id, failure)).value.ops[id];
            op.err == Some(if Requests(before + after, id) > 0 then Cancelled else ConcurrentUpdate)
  {
    RunKeepsInv(INIT, before);
    var s := Run(INIT, before).value;
    assert OpInv(s, id);
    var t := Step(s, TryLock(id)).value;
    RefusedStays(t, after, id);
    RequestsAreCounted(INIT, before, id);
    RequestsAreCounted(t, after, id);
    RequestsOfSum(before, after, id);
  }

  lemma {:induction false} RequestsOfSum(a: seq<Action>, b: seq<Action>, id: nat)
    ensures Requests(a + b, id) == Requests(a, id) + Requests(b, id)
  {
    if a == [] {
      assert a + b == b;
    } else {
      TailOfSum(a, b);
      RequestsOfSum(a[1..], b, id);
    }
  }

  // ----- Coming to an end -----

  function Left(p: Phase): nat {
    match p
    case Started => 6
    case Locked => 6
    case Returned => 5
    case Recorded => 4
    case Classified => 3
    case Deregistered => 2
    case StreamClosed => 1
    case Finished => 0
  }

  /** A step an operation can make without anybody else; `raw` is what its run returns. */
  function OwnStep(id: nat, p: Phase, raw: Option<Failure>): Action {
    match p
    case Started => TryLock(id)
    case Locked => Unlock(id, raw)
    case Returned => Record(id)
    case Recorded => Classify(id, OtherFailure(""))
    case Classified => Deregister(id)
    case Deregistered => CloseStream(id)
    case _ => CloseDone(id)
  }

  /**
   No operation waits for another one: from every state it can come to its end by steps of its own, with
   the lock it tries for, or refused it.
   */
  lemma {:induction false} OperationCanFinish(s: State, id: nat, raw: Option<Failure>) returns (more: seq<Action>)
    requires id in s.ops
    ensures Run(s, more).Some? && forall i :: 0 <= i < |more| ==> Own(more[i], id)
    ensures id in Run(s, more).value.ops && Run(s, more).value.ops[id].phase == Finished
    decreases Left(s.ops[id].phase), if s.ops[id].phase == Started then 1 else 0
  {
    more := [];
    var p := s.ops[id].phase;
    if p != Finished {
      var a := OwnStep(id, p, raw);
      var t := Step(s, a).value;
      var rest := OperationCanFinish(t, id, raw);
      more := [a] + rest;
      assert more[1..] == rest;
    }
  }

  predicate Own(a: Action, id: nat) {
    !a.Snapshot? && !a.CancelNext? && !a.UserCancel? && !a.Start? && a.id == id
  }

  // ----- What is published -----

  /** The outputs an operation set last. */
  function LastOutputs(actions: seq<Action>, id: nat, earlier: Option<string>): Option<string> {
    if actions == [] then earlier
    else LastOutputs(actions[1..], id, if actions[0].SetOutputs? && actions[0].id == id then Some(actions[0].outputs)
                                       else earlier)
  }

  function OutputsOf(s: State, id: nat): Option<string> {
    if id in s.ops then s.ops[id].outcome.outputs else None
  }

  lemma {:induction false} OutputsAreKept(s: State, actions: seq<Action>, id: nat)
    requires Run(s, actions).Some?
    ensures OutputsOf(Run(s, actions).value, id) == LastOutputs(actions, id, OutputsOf(s, id))
    decreases |actions|
  {
    if actions != [] {
      OutputsAreKept(Step(s, actions[0]).value, actions[1..], id);
    }
  }

  /** What a classified operation publishes: the outputs it set last, and an error exactly if it failed. */
  lemma PublishedIsWhatHappened(actions: seq<Action>, id: nat)
    requires Run(INIT, actions).Some?
    requires var s := Run(INIT, actions).value; id in s.ops && Decided(s.ops[id].phase)
    ensures var op := Run(INIT, actions).value.ops[id];
            && op.outcome.outputs == LastOutputs(actions, id, None)
            && (op.err.None? <==> op.raw.None?)
            && (op.outcome.cancelled <==> op.err == Some(Cancelled))
  {
    RunKeepsInv(INIT, actions);
    assert OpInv(Run(INIT, actions).value, id);
    OutputsAreKept(INIT, actions, id);
  }

  predicate Over(p: Phase) {
    !p.Started? && !p.Locked?
  }

  lemma {:induction false} RawStays(s: State, actions: seq<Action>, id: nat)
    requires id in s.ops && Over(s.ops[id].phase) && Run(s, actions).Some?
    ensures id in Run(s, actions).value.ops && Run(s, actions).value.ops[id].raw == s.ops[id].raw
    decreases |actions|
  {
    if actions != [] {
      RawStays(Step(s, actions[0]).value, actions[1..], id);
    }
  }

  /** What the run of an operation returns is the raw error it is classified by, whatever happens meanwhile. */
  lemma RawIsWhatWasReturned(s: State, a: Action, after: seq<Action>, id: nat)
    requires Step(s, a).Some? && Run(Step(s, a).value, after).Some?
    ensures var t := Run(Step(s, a).value, after).value;
            && (a.Unlock? && a.id == id ==> id in t.ops && t.ops[id].raw == a.raw)
            && (a.FailEarly? && a.id == id ==> id in t.ops && t.ops[id].raw == Some(a.failure))
  {
    if (a.Unlock? || a.FailEarly?) && a.id == id {
      RawStays(Step(s, a).value, after, id);
    }
  }
}
