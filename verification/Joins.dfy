/**
 Why the joins of `execute` leave stdout and the engine's channel quiet. Each of the two has one
 goroutine that makes all its `handleEvent` calls, one after the other: the stdout pump, which also
 reads the flush sentinel, and the forwarder of the engine's events, which closes `forwarded` when it
 leaves its loop. Neither join looks at calls under way; that there are none follows.
 */
module Joins {
  import opened Wrappers
  import opened Events
  import L = OperationLifecycle
  import E = StreamEnd

  /** What a goroutine is doing: between two calls, or in one before or after its stamping. */
  datatype Worker = Idle | Handling(call: L.Call) | Pushing(event: Event)

  datatype State = State(life: L.State, pump: Worker, forwarder: Worker)

  const INIT := State(L.INIT, Idle, Idle)

  datatype Action =
    | Begin(origin: Origin, payload: Payload)
    | Stamp(origin: Origin)
    | Push(origin: Origin)
    | ReadSentinel
    | LeaveLoop
    | Other(action: L.Action)

  /** The origins whose calls one goroutine makes. */
  predicate Single(origin: Origin) {
    origin == Stdout || origin == Engine
  }

  function WorkerOf(s: State, origin: Origin): Worker {
    if origin == Stdout then s.pump else s.forwarder
  }

  function Moved(s: State, life: L.State, origin: Origin, w: Worker): State {
    if origin == Stdout then State(life, w, s.forwarder) else State(life, s.pump, w)
  }

  function Top(m: L.Main): Option<Origin> {
    if m.Unwinding? && m.open != [] then Some(m.open[|m.open| - 1]) else None
  }

  /** Steps of everybody else: the main goroutine, the plugin host, the event pump and the consumer. */
  predicate Elsewhere(m: L.Main, a: L.Action) {
    match a
    case Flush => false
    case Join => Top(m) == Some(Host)
    case Enter(origin, _) => !Single(origin)
    case StampCall(c) => !Single(c.origin)
    case EnqueueCall(e) => !Single(e.origin)
    case _ => true
  }

  /**
   The flush and the join of the engine's channel ask only where their goroutine is: the pump handles
   the sentinel itself, and `forwarded` is closed by the forwarder on its way out.
   */
  function Step(s: State, a: Action): Option<State> {
    var m := s.life.main;
    match a
    case Begin(origin, payload) =>
      if !Single(origin) || WorkerOf(s, origin) != Idle then None
      else
        (match L.Step(s.life, L.Enter(origin, payload))
         case None => None
         case Some(life) =>
           var w := if payload == Cancel then Idle else Handling(L.Call(s.life.calls, origin, payload));
           Some(Moved(s, life, origin, w)))
    case Stamp(origin) =>
      if !Single(origin) || !WorkerOf(s, origin).Handling? then None
      else
        var c := WorkerOf(s, origin).call;
        (match L.Step(s.life, L.StampCall(c))
         case None => None
         case Some(life) => Some(Moved(s, life, origin, Pushing(Event(s.life.pipe.sequence, c.origin, c.payload)))))
    case Push(origin) =>
      if !Single(origin) || !WorkerOf(s, origin).Pushing? then None
      else
        (match L.Step(s.life, L.EnqueueCall(WorkerOf(s, origin).event))
         case None => None
         case Some(life) => Some(Moved(s, life, origin, Idle)))
    case ReadSentinel =>
      if m != L.Unwinding([Stdout], false) || s.pump != Idle then None
      else Some(s.(life := s.life.(main := L.Unwinding([Stdout], true))))
    case LeaveLoop =>
      if Top(m) != Some(Engine) || s.forwarder != Idle then None
      else Some(s.(life := s.life.(main := L.Unwinding(m.open[..|m.open| - 1], false))))
    case Other(b) =>
      if !Elsewhere(m, b) then None
      else
        (match L.Step(s.life, b)
         case None => None
         case Some(life) => Some(s.(life := life)))
  }

  function Run(s: State, actions: seq<Action>): Option<State>
    decreases |actions|
  {
    if actions == [] then Some(s)
    else
      match Step(s, actions[0])
      case None => None
      case Some(t) => Run(t, actions[1..])
  }

  /** Every call under way of a single-goroutine source is the one its goroutine is in. */
  ghost predicate Owned(s: State, origin: Origin) {
    OwnsCalls(s, origin) && OwnsEvents(s, origin)
  }

  ghost predicate OwnsCalls(s: State, origin: Origin) {
    && (forall c :: c in s.life.entered && c.origin == origin ==> WorkerOf(s, origin) == Handling(c))
    && (WorkerOf(s, origin).Handling? ==> WorkerOf(s, origin).call.origin == origin)
  }

  ghost predicate OwnsEvents(s: State, origin: Origin) {
    && (forall e :: e in s.life.pipe.pending && e.origin == origin ==> WorkerOf(s, origin) == Pushing(e))
    && (WorkerOf(s, origin).Pushing? ==> WorkerOf(s, origin).event.origin == origin)
  }

  ghost predicate Inv(s: State) {
    Owned(s, Stdout) && Owned(s, Engine)
  }

  /** The step of the lifecycle machine that a step is. */
  function Abstract(s: State, a: Action): L.Action {
    match a
    case Begin(origin, payload) => L.Enter(origin, payload)
    case Stamp(origin) =>
      if WorkerOf(s, origin).Handling? then L.StampCall(WorkerOf(s, origin).call) else L.Flush
    case Push(origin) =>
      if WorkerOf(s, origin).Pushing? then L.EnqueueCall(WorkerOf(s, origin).event) else L.Flush
    case ReadSentinel => L.Flush
    case LeaveLoop => L.Join
    case Other(b) => b
  }

  lemma IdleIsQuiet(s: State, origin: Origin)
    requires Owned(s, origin) && WorkerOf(s, origin) == Idle
    ensures L.Quiet(s.life, origin)
  {
  }

  lemma StepRefines(s: State, a: Action)
    requires Inv(s) && Step(s, a).Some?
    ensures L.Step(s.life, Abstract(s, a)) == Some(Step(s, a).value.life)
  {
    match a
    case ReadSentinel => IdleIsQuiet(s, Stdout);
    case LeaveLoop => IdleIsQuiet(s, Engine);
    case _ =>
  }

  lemma StepKeepsCalls(s: State, a: Action, origin: Origin)
    requires Inv(s) && Single(origin) && Step(s, a).Some?
    ensures OwnsCalls(Step(s, a).value, origin)
  {
  }

  lemma StepKeepsEvents(s: State, a: Action, origin: Origin)
    requires Inv(s) && Single(origin) && Step(s, a).Some?
    ensures OwnsEvents(Step(s, a).value, origin)
  {
  }

  lemma StepKeepsInv(s: State, a: Action)
    requires Inv(s) && Step(s, a).Some?
    ensures Inv(Step(s, a).value)
  {
    StepKeepsCalls(s, a, Stdout);
    StepKeepsEvents(s, a, Stdout);
    StepKeepsCalls(s, a, Engine);
    StepKeepsEvents(s, a, Engine);
  }

  /** Every run of the goroutines is a run of the lifecycle machine, with the guards of its joins derived. */
  lemma {:induction false} RunRefines(s: State, actions: seq<Action>) returns (abstracted: seq<L.Action>)
    requires Inv(s) && Run(s, actions).Some?
    ensures Inv(Run(s, actions).value)
    ensures L.Run(s.life, abstracted) == Some(Run(s, actions).value.life)
    decreases |actions|
  {
    abstracted := [];
    if actions != [] {
      var t := Step(s, actions[0]).value;
      StepRefines(s, actions[0]);
      StepKeepsInv(s, actions[0]);
      var rest := RunRefines(t, actions[1..]);
      abstracted := [Abstract(s, actions[0])] + rest;
      assert abstracted[1..] == rest;
    }
  }

  /** So when `finish` starts nothing is under way, unless stdout was routed after the flush. */
  lemma JoinsSuffice(actions: seq<Action>)
    requires Run(INIT, actions).Some? && Run(INIT, actions).value.life.main.Finishing?
    ensures var s := Run(INIT, actions).value.life; !s.late ==> E.AllQuiet(s) && E.AlwaysEndsWithTerminator(s)
  {
    var abstracted := RunRefines(INIT, actions);
    QuietAtFinish(abstracted, Run(INIT, actions).value.life);
  }

  lemma QuietAtFinish(actions: seq<L.Action>, s: L.State)
    requires L.Run(L.INIT, actions) == Some(s) && s.main.Finishing?
    ensures !s.late ==> E.AllQuiet(s) && E.AlwaysEndsWithTerminator(s)
  {
    E.JoinsLeaveSourcesQuiet(actions);
    L.RunKeepsInv(L.INIT, actions);
    if !s.late {
      E.EndsWithTerminatorIffQuiet(s);
    }
  }

  /** The call a goroutine is in is one that is under way. */
  ghost predicate UnderWay(s: State, origin: Origin) {
    match WorkerOf(s, origin)
    case Idle => true
    case Handling(c) => c in s.life.entered
    case Pushing(e) => e in s.life.pipe.pending
  }

  /** What a step of the lifecycle takes out of the calls under way is its own. */
  lemma OthersStay(s: L.State, a: L.Action, t: L.State)
    requires L.Step(s, a) == Some(t) && L.Placed(s)
    ensures forall c :: c in s.entered && a != L.StampCall(c) ==> c in t.entered
    ensures forall e :: e in s.pipe.pending && a != L.EnqueueCall(e) && e.origin != Finish ==> e in t.pipe.pending
  {
  }

  /** The worker of a source changes only by steps of its own. */
  lemma WorkerStays(s: State, a: Action, t: State, origin: Origin)
    requires Step(s, a) == Some(t) && Single(origin)
    requires !((a.Begin? || a.Stamp? || a.Push?) && a.origin == origin)
    ensures WorkerOf(t, origin) == WorkerOf(s, origin)
  {
  }

  lemma ElsewhereIsOther(s: State, a: Action, origin: Origin)
    requires Inv(s) && Step(s, a).Some? && Single(origin)
    requires !((a.Begin? || a.Stamp? || a.Push?) && a.origin == origin)
    ensures WorkerOf(s, origin).Handling? ==> Abstract(s, a) != L.StampCall(WorkerOf(s, origin).call)
    ensures WorkerOf(s, origin).Pushing? ==> Abstract(s, a) != L.EnqueueCall(WorkerOf(s, origin).event)
  {
  }

  lemma StepKeepsUnderWay(s: State, a: Action, t: State, origin: Origin)
    requires Inv(s) && L.Placed(s.life) && UnderWay(s, origin) && Single(origin) && Step(s, a) == Some(t)
    ensures UnderWay(t, origin)
  {
    if !((a.Begin? || a.Stamp? || a.Push?) && a.origin == origin) {
      StepRefines(s, a);
      OthersStay(s.life, Abstract(s, a), t.life);
      WorkerStays(s, a, t, origin);
      ElsewhereIsOther(s, a, origin);
    }
  }

  lemma {:induction false} RunKeepsUnderWay(s: State, actions: seq<Action>, origin: Origin)
    requires Inv(s) && L.Inv(s.life) && UnderWay(s, origin) && Single(origin) && Run(s, actions).Some?
    ensures var t := Run(s, actions).value; Inv(t) && UnderWay(t, origin)
    decreases |actions|
  {
    if actions != [] {
      var t := Step(s, actions[0]).value;
      StepKeepsUnderWay(s, actions[0], t, origin);
      StepRefines(s, actions[0]);
      StepKeepsInv(s, actions[0]);
      L.StepKeepsInv(s.life, Abstract(s, actions[0]));
      RunKeepsUnderWay(t, actions[1..], origin);
    }
  }

  /** The next step of a goroutine that is in a call. */
  function NextOf(w: Worker, origin: Origin): Action {
    if w.Handling? then Stamp(origin) else Push(origin)
  }

  /**
   Neither goroutine waits for anybody: in a call its next step is possible, after two steps it is out
   of it, and out of a call it can begin another while its source is open, or let the join through.
   */
  lemma WorkersNeverWait(actions: seq<Action>, origin: Origin, payload: Payload)
    requires Run(INIT, actions).Some? && Single(origin)
    ensures var s := Run(INIT, actions).value;
            var w := WorkerOf(s, origin);
            && (w != Idle ==> Step(s, NextOf(w, origin)).Some?)
            && (w.Handling? ==> WorkerOf(Step(s, Stamp(origin)).value, origin).Pushing?)
            && (w.Pushing? ==> WorkerOf(Step(s, Push(origin)).value, origin) == Idle)
            && (w == Idle && origin in L.Open(s.life.main) ==> Step(s, Begin(origin, payload)).Some?)
            && (s.pump == Idle && s.life.main == L.Unwinding([Stdout], false) ==> Step(s, ReadSentinel).Some?)
            && (s.forwarder == Idle && Top(s.life.main) == Some(Engine) ==> Step(s, LeaveLoop).Some?)
  {
    var s := Reached(actions, origin);
    BusyGoesOn(s, origin);
    IdleGoesOn(s, origin, payload);
  }

  lemma Reached(actions: seq<Action>, origin: Origin) returns (s: State)
    requires Run(INIT, actions).Some? && Single(origin)
    ensures Run(INIT, actions) == Some(s) && Inv(s) && UnderWay(s, origin)
  {
    RunKeepsUnderWay(INIT, actions, origin);
    s := Run(INIT, actions).value;
  }

  lemma BusyGoesOn(s: State, origin: Origin)
    requires Inv(s) && UnderWay(s, origin) && Single(origin)
    ensures var w := WorkerOf(s, origin);
            && (w != Idle ==> Step(s, NextOf(w, origin)).Some?)
            && (w.Handling? ==> WorkerOf(Step(s, Stamp(origin)).value, origin).Pushing?)
            && (w.Pushing? ==> WorkerOf(Step(s, Push(origin)).value, origin) == Idle)
  {
    assert Owned(s, origin);
  }

  lemma IdleGoesOn(s: State, origin: Origin, payload: Payload)
    requires Single(origin)
    ensures WorkerOf(s, origin) == Idle && origin in L.Open(s.life.main) ==> Step(s, Begin(origin, payload)).Some?
    ensures s.pump == Idle && s.life.main == L.Unwinding([Stdout], false) ==> Step(s, ReadSentinel).Some?
    ensures s.forwarder == Idle && Top(s.life.main) == Some(Engine) ==> Step(s, LeaveLoop).Some?
  {
  }
}
