/**
 The credential hand-off: under a process-wide lock, remember the credentials file, store the spec's
 account in it, construct the backend, and put the file back.
 */
module Credentials {
  import opened Wrappers

  /** A credentials file: the accounts a reader finds in it, and its bytes as such. */
  datatype Content = Content(accounts: map<string, string>, bytes: string)

  /** The file, or None when it does not exist. */
  type File = Option<Content>

  datatype Spec = Spec(url: string, token: string)

  datatype Failure = ReadFailed | StoreFailed | OpenFailed | RestoreFailed | OpenAndRestoreFailed

  /** What the outside does in one hand-off; `garbage` is what a failed restore leaves behind. */
  datatype World = World(
    readFails: bool, storeFails: bool, opens: bool, restoreFails: bool, stored: string, garbage: File)

  /** `workspace.StoreAccount`: the account is added, the rest kept, and the file rewritten. */
  function Store(file: File, spec: Spec, bytes: string): File {
    Some(Content((if file.None? then map[] else file.value.accounts)[spec.url := spec.token], bytes))
  }

  /** The token `httpstate.New` finds for a URL. */
  function TokenIn(file: File, url: string): Option<string> {
    if file.Some? && url in file.value.accounts then Some(file.value.accounts[url]) else None
  }

  /** Storing an account sets its token and leaves the tokens of other URLs as they are. */
  lemma StoreKeepsOthers(file: File, spec: Spec, bytes: string, url: string)
    ensures TokenIn(Store(file, spec, bytes), url) == if url == spec.url then Some(spec.token) else TokenIn(file, url)
  {
  }

  // ----- One hand-off -----

  class CredentialsFile {
    var file: File

    constructor (file: File)
      ensures this.file == file
    {
      this.file := file;
    }

    /**
     `withSpecCredentials` with a token. On success the backend holds exactly the spec's token. The
     file is as before unless restoring it failed, which is always reported.
     */
    method WithSpecCredentials(spec: Spec, w: World) returns (r: Result<string, Failure>)
      modifies this
      ensures r.Ok? <==> !w.readFails && !w.storeFails && w.opens && !w.restoreFails
      ensures r.Ok? ==> r.value == spec.token
      ensures file == if r == Err(RestoreFailed) || r == Err(OpenAndRestoreFailed) then w.garbage else old(file)
      ensures r == Err(RestoreFailed) || r == Err(OpenAndRestoreFailed) <==>
              !w.readFails && !w.storeFails && w.restoreFails
      ensures r == Err(RestoreFailed) ==> w.opens
      ensures r == Err(OpenAndRestoreFailed) ==> !w.opens
      ensures r == Err(OpenFailed) <==> !w.readFails && !w.storeFails && !w.opens && !w.restoreFails
      ensures r == Err(ReadFailed) <==> w.readFails
      ensures r == Err(StoreFailed) <==> !w.readFails && w.storeFails
    {
      var before := file;
      if w.readFails {
        return Err(ReadFailed);
      }
      if w.storeFails {
        return Err(StoreFailed);
      }
      file := Store(file, spec, w.stored);
      var token := TokenIn(file, spec.url);
      if w.restoreFails {
        file := w.garbage;
        return Err(if w.opens then RestoreFailed else OpenAndRestoreFailed);
      }
      file := before;
      if !w.opens {
        return Err(OpenFailed);
      }
      r := Ok(token.value);
    }
  }

  // ----- Interleaved hand-offs -----

  /** Where one `Open` call with a token is; `before` is what it remembered of the file. */
  datatype Phase =
    | Idle
    | Locked
    | Remembered(before: File)
    | Stored(before: File)
    | Opened(before: File, found: Option<string>)
    | Released
    | Backend(token: string)

  datatype Thread = Thread(spec: Spec, phase: Phase)

  datatype State = State(file: File, holder: Option<nat>, threads: map<nat, Thread>)

  datatype Action =
    | Arrive(id: nat, spec: Spec)
    | Lock(id: nat)
    | Read(id: nat)
    | ReadFails(id: nat)
    | StoreAccount(id: nat, bytes: string)
    | StoreFails(id: nat)
    | Construct(id: nat)
    | ConstructFails(id: nat)
    | Restore(id: nat)
    | RestoreFails(id: nat, garbage: File)

  function Move(s: State, id: nat, phase: Phase): State
    requires id in s.threads
  {
    s.(threads := s.threads[id := s.threads[id].(phase := phase)])
  }

  function Step(s: State, a: Action): Option<State> {
    if a.Arrive? then
      if a.id in s.threads || a.spec.token == "" then None
      else Some(s.(threads := s.threads[a.id := Thread(a.spec, Idle)]))
    else if a.id !in s.threads then None
    else
      var t := s.threads[a.id];
      match a
      case Lock(id) =>
        if t.phase != Idle || s.holder.Some? then None else Some(Move(s, id, Locked).(holder := Some(id)))
      case Read(id) =>
        if t.phase != Locked then None else Some(Move(s, id, Remembered(s.file)))
      case ReadFails(id) =>
        if t.phase != Locked then None else Some(Move(s, id, Released).(holder := None))
      case StoreAccount(id, bytes) =>
        if !t.phase.Remembered? then None
        else Some(Move(s, id, Stored(t.phase.before)).(file := Store(s.file, t.spec, bytes)))
      case StoreFails(id) =>
        if !t.phase.Remembered? then None else Some(Move(s, id, Released).(holder := None))
      case Construct(id) =>
        if !t.phase.Stored? then None
        else Some(Move(s, id, Opened(t.phase.before, TokenIn(s.file, t.spec.url))))
      case ConstructFails(id) =>
        if !t.phase.Stored? then None else Some(Move(s, id, Opened(t.phase.before, None)))
      case Restore(id) =>
        if !t.phase.Opened? then None
        else Some(Move(s, id, if t.phase.found.Some? then Backend(t.phase.found.value) else Released)
                  .(file := t.phase.before, holder := None))
      case RestoreFails(id, garbage) =>
        if !t.phase.Opened? then None
        else Some(Move(s, id, Released).(file := garbage, holder := None))
  }

  function Run(s: State, actions: seq<Action>): Option<State>
    decreases |actions|
  {
    if actions == [] then Some(s)
    else
      match Step(s, actions[0])
      case None => None
      case Some(t) => Run(t, actions[1..])
  }

  predicate Inside(p: Phase) {
    p.Locked? || p.Remembered? || p.Stored? || p.Opened?
  }

  ghost predicate ThreadInv(s: State, settled: File, id: nat)
    requires id in s.threads
  {
    var t := s.threads[id];
    && (Inside(t.phase) <==> s.holder == Some(id))
    && (t.phase.Locked? ==> s.file == settled)
    && (t.phase.Remembered? ==> s.file == t.phase.before)
    && (t.phase.Remembered? || t.phase.Stored? || t.phase.Opened? ==> t.phase.before == settled)
    && (t.phase.Stored? ==> TokenIn(s.file, t.spec.url) == Some(t.spec.token))
    && (t.phase.Opened? ==> t.phase.found.None? || t.phase.found == Some(t.spec.token))
    && (t.phase.Backend? ==> t.phase.token == t.spec.token)
  }

  /** `settled` is the content the file has while the lock is free. */
  ghost predicate Inv(s: State, settled: File) {
    && (s.holder.Some? ==> s.holder.value in s.threads)
    && (s.holder.None? ==> s.file == settled)
    && forall id :: id in s.threads ==> ThreadInv(s, settled, id)
  }

  /** Only a failed restore changes that content, to whatever it left behind. */
  function LeftBy(settled: File, a: Action): File {
    if a.RestoreFails? then a.garbage else settled
  }

  function LastLeft(settled: File, actions: seq<Action>): File
    decreases |actions|
  {
    if actions == [] then settled else LastLeft(LeftBy(settled, actions[0]), actions[1..])
  }

  lemma StepKeepsInv(s: State, settled: File, a: Action)
    requires Inv(s, settled) && Step(s, a).Some?
    ensures Inv(Step(s, a).value, LeftBy(settled, a))
  {
    var t := Step(s, a).value;
    if a.id in s.threads {
      assert ThreadInv(s, settled, a.id);
    }
    forall id | id in t.threads
      ensures ThreadInv(t, LeftBy(settled, a), id)
    {
      if id in s.threads {
        assert ThreadInv(s, settled, id);
      }
    }
  }

  lemma {:induction false} RunKeepsInv(s: State, settled: File, actions: seq<Action>)
    requires Inv(s, settled) && Run(s, actions).Some?
    ensures Inv(Run(s, actions).value, LastLeft(settled, actions))
    decreases |actions|
  {
    if actions != [] {
      StepKeepsInv(s, settled, actions[0]);
      RunKeepsInv(Step(s, actions[0]).value, LeftBy(settled, actions[0]), actions[1..]);
    }
  }

  function Init(original: File): State {
    State(original, None, map[])
  }

  lemma Reachable(original: File, actions: seq<Action>) returns (s: State)
    requires Run(Init(original), actions).Some?
    ensures Run(Init(original), actions) == Some(s) && Inv(s, LastLeft(original, actions))
  {
    RunKeepsInv(Init(original), original, actions);
    s := Run(Init(original), actions).value;
  }

  /** However opens with tokens interleave, every constructed backend holds its own spec's token. */
  lemma BackendsHoldTheirOwnToken(original: File, actions: seq<Action>, id: nat)
    requires Run(Init(original), actions).Some?
    requires var s := Run(Init(original), actions).value; id in s.threads && s.threads[id].phase.Backend?
    ensures var t := Run(Init(original), actions).value.threads[id]; t.phase.token == t.spec.token
  {
    var s := Reachable(original, actions);
    assert ThreadInv(s, LastLeft(original, actions), id);
  }

  /**
   Whenever the lock is free the file is what the last failed restore left, and the original, byte for
   byte or absent, when no restore has failed.
   */
  lemma FreeLockMeansSettledFile(original: File, actions: seq<Action>)
    requires Run(Init(original), actions).Some? && Run(Init(original), actions).value.holder.None?
    ensures Run(Init(original), actions).value.file == LastLeft(original, actions)
    ensures (forall i :: 0 <= i < |actions| ==> !actions[i].RestoreFails?) ==>
              Run(Init(original), actions).value.file == original
  {
    var s := Reachable(original, actions);
    if forall i :: 0 <= i < |actions| ==> !actions[i].RestoreFails? {
      NothingLeft(original, actions);
    }
  }

  lemma {:induction false} NothingLeft(settled: File, actions: seq<Action>)
    requires forall i :: 0 <= i < |actions| ==> !actions[i].RestoreFails?
    ensures LastLeft(settled, actions) == settled
  {
    if actions != [] {
      NothingLeft(settled, actions[1..]);
    }
  }

  /** At most one open is between taking and releasing the lock. */
  lemma OneInside(original: File, actions: seq<Action>, x: nat, y: nat)
    requires Run(Init(original), actions).Some?
    requires var s := Run(Init(original), actions).value;
             x in s.threads && y in s.threads && Inside(s.threads[x].phase) && Inside(s.threads[y].phase)
    ensures x == y
  {
    var s := Reachable(original, actions);
    assert ThreadInv(s, LastLeft(original, actions), x) && ThreadInv(s, LastLeft(original, actions), y);
  }

  /** Five steps in a row of one open. */
  lemma FiveSteps(s: State, a: Action, b: Action, c: Action, d: Action, e: Action) returns (actions: seq<Action>)
    requires Step(s, a).Some? && Step(Step(s, a).value, b).Some?
    requires Step(Step(Step(s, a).value, b).value, c).Some?
    requires Step(Step(Step(Step(s, a).value, b).value, c).value, d).Some?
    ensures Run(s, actions) == Step(Step(Step(Step(Step(s, a).value, b).value, c).value, d).value, e)
  {
    actions := [a, b, c, d, e];
    var s1 := Step(s, a).value;
    var s2 := Step(s1, b).value;
    var s3 := Step(s2, c).value;
    var s4 := Step(s3, d).value;
    assert [a, b, c, d, e][1..] == [b, c, d, e] && [b, c, d, e][1..] == [c, d, e];
    assert [c, d, e][1..] == [d, e] && [d, e][1..] == [e] && [e][1..] == [];
    assert Run(s4, [e]) == match Step(s4, e) case None => None case Some(t) => Run(t, []);
    assert Run(s3, [d, e]) == Run(s4, [e]);
    assert Run(s2, [c, d, e]) == Run(s3, [d, e]);
    assert Run(s1, [b, c, d, e]) == Run(s2, [c, d, e]);
  }

  /**
   Nobody is shut out: whenever the lock is free, an open that waits for it can go through and get a
   backend with its token, and leaves the file as it found it.
   */
  lemma FreeLockLetsIn(s: State, id: nat, bytes: string) returns (actions: seq<Action>)
    requires s.holder.None? && id in s.threads && s.threads[id].phase.Idle?
    ensures Run(s, actions).Some?
    ensures var t := Run(s, actions).value;
            && id in t.threads && t.threads[id].phase == Backend(s.threads[id].spec.token)
            && t.file == s.file && t.holder.None?
  {
    actions := FiveSteps(s, Lock(id), Read(id), StoreAccount(id, bytes), Construct(id), Restore(id));
  }
}
