/**
 The flush barrier of the stdout capture: a waiter registers under the lock, writes its sentinel line
 into the pipe, and blocks until the pump has read that line.

 The pipe is the sequence of everything written so far, the writes being atomic, together with how
 far the pump has got. Handling a line is one step: the pump is a single goroutine and reads the next
 line only after it has routed or forwarded the previous one.
 */
module FlushBarrier {
  import opened Wrappers
  import opened Strings
  import opened Banner

  datatype Phase = Registered | Waiting(at: nat) | Returned(at: nat) | Abandoned

  /** `closes` counts close(ch). */
  datatype Flush = Flush(phase: Phase, closes: nat)

  /**
   The k-th flush call has id k+1; `flushes` is the map of the waiters not yet released, `marker` the
   sentinel text, which no step changes.
   */
  datatype State = State(marker: string, written: string, done: nat, calls: seq<Flush>, flushes: map<string, nat>)

  const INIT := State(SENTINEL, "", 0, [], map[])

  datatype Action =
    | HostWrite(text: string)
    | Register
    | WriteSentinel(k: nat)
    | WriteFails(k: nat)
    | PumpLine
    | Return(k: nat)

  function Id(k: nat): string {
    Decimal(k + 1)
  }

  function SentinelLine(marker: string, k: nat): string {
    marker + Id(k) + "\n"
  }

  /** The line that begins at `p`, with its newline, if that has been written. */
  function LineAt(written: string, p: nat): Option<string>
    requires p <= |written|
  {
    var k := Find(written[p..], '\n');
    if k == |written| - p then None else Some(written[p..p + k + 1])
  }

  /** The id in a line that starts with the sentinel. */
  function IdOf(marker: string, line: string): string
    requires marker <= line
  {
    Trim(line[|marker|..])
  }

  function Moved(s: State, k: nat, phase: Phase): State
    requires k < |s.calls|
  {
    s.(calls := s.calls[k := s.calls[k].(phase := phase)])
  }

  function Step(s: State, a: Action): Option<State> {
    match a
    case HostWrite(text) => Some(s.(written := s.written + text))
    case Register =>
      Some(s.(calls := s.calls + [Flush(Registered, 0)], flushes := s.flushes[Id(|s.calls|) := |s.calls|]))
    case WriteSentinel(k) =>
      if k >= |s.calls| || s.calls[k].phase != Registered then None
      else
        Some(Moved(s, k, Waiting(|s.written|)).(written := s.written + SentinelLine(s.marker, k)))
    case WriteFails(k) =>
      if k >= |s.calls| || s.calls[k].phase != Registered then None
      else Some(Moved(s, k, Abandoned))
    case PumpLine =>
      if s.done > |s.written| then None
      else
        (match LineAt(s.written, s.done)
         case None => None
         case Some(line) => Some(Pumped(s, line)))
    case Return(k) =>
      if k >= |s.calls| || !s.calls[k].phase.Waiting? || s.calls[k].closes == 0 then None
      else Some(Moved(s, k, Returned(s.calls[k].phase.at)))
  }

  /** The pump after a line: routed or forwarded, and behind it. */
  function Pumped(s: State, line: string): State {
    Routed(s, line).(done := s.done + |line|)
  }

  /** `routeStdoutLine` on the waiters: a sentinel line closes the channel of its id, once. */
  function Routed(s: State, line: string): State {
    if s.marker <= line then Released(s, IdOf(s.marker, line)) else s
  }

  function Released(s: State, id: string): State {
    if id !in s.flushes || s.flushes[id] >= |s.calls| then s
    else
      var k := s.flushes[id];
      s.(flushes := s.flushes - {id}, calls := s.calls[k := s.calls[k].(closes := s.calls[k].closes + 1)])
  }

  /** The waiters as the capture keeps them: a counter for ids, and a channel for each waiting id. */
  class Waiters {
    var flushN: nat
    var flushes: map<string, nat>

    constructor ()
      ensures flushN == 0 && flushes == map[]
    {
      flushN, flushes := 0, map[];
    }

    /** The first lock region of `flushStdoutCapture`: a new id with its own channel. */
    method Register() returns (id: string, channel: nat)
      modifies this
      ensures channel == old(flushN) && id == Id(channel)
      ensures flushN == old(flushN) + 1 && flushes == old(flushes)[id := channel]
      ensures forall s: State :: s.flushes == old(flushes) && |s.calls| == old(flushN) ==>
                                   Step(s, Action.Register).value.flushes == flushes
    {
      channel := flushN;
      flushN := flushN + 1;
      id := Decimal(flushN);
      flushes := flushes[id := channel];
    }

    /** The lock region of `routeStdoutLine` on a sentinel line with this id: the channel to close, if one waits. */
    method Route(id: string) returns (channel: Option<nat>)
      modifies this
      ensures flushN == old(flushN) && flushes == old(flushes) - {id}
      ensures channel == if id in old(flushes) then Some(old(flushes)[id]) else None
    {
      channel := if id in flushes then Some(flushes[id]) else None;
      flushes := flushes - {id};
    }
  }

  /** A sentinel line takes its id out of the map, whether somebody waits for it or not. */
  lemma RoutedForgetsItsId(s: State, line: string, id: string)
    requires s.marker <= line && id == IdOf(s.marker, line)
    requires forall i :: i in s.flushes ==> s.flushes[i] < |s.calls|
    ensures Routed(s, line).flushes == s.flushes - {id}
  {
    if id in s.flushes {
      assert s.flushes[id] < |s.calls|;
    } else {
      assert s.flushes - {id} == s.flushes;
    }
  }

  function Run(s: State, actions: seq<Action>): Option<State>
    decreases |actions|
  {
    if actions == [] then Some(s)
    else
      match Step(s, actions[0])
      case None => None
      case Some(t) => Run(t, actions[1..])
  }

  // ----- What holds whatever the host writes -----

  /** A flush call is either released or still in the map, under its own id. */
  ghost predicate CallInv(s: State, k: nat)
    requires k < |s.calls|
  {
    var c := s.calls[k];
    && (if c.closes == 0 then Id(k) in s.flushes && s.flushes[Id(k)] == k else c.closes == 1 && Id(k) !in s.flushes)
    && (c.phase.Returned? ==> c.closes == 1)
  }

  ghost predicate Inv(s: State) {
    && (forall id :: id in s.flushes ==> s.flushes[id] < |s.calls| && id == Id(s.flushes[id]))
    && (forall k :: 0 <= k < |s.calls| ==> CallInv(s, k))
  }

  lemma RegisterKeepsInv(s: State)
    requires Inv(s)
    ensures Inv(Step(s, Register).value)
  {
    var t := Step(s, Register).value;
    var n := |s.calls|;
    forall k | 0 <= k < n
      ensures Id(k) != Id(n)
    {
      if Id(k) == Id(n) {
        DecimalInjective(k + 1, n + 1);
      }
    }
    forall k | 0 <= k < |t.calls|
      ensures CallInv(t, k)
    {
      if k < n {
        assert CallInv(s, k);
      }
    }
  }

  lemma RoutedKeepsInv(s: State, line: string)
    requires Inv(s)
    ensures Inv(Routed(s, line))
  {
    if s.marker <= line {
      ReleasedKeepsInv(s, IdOf(s.marker, line));
    }
  }

  lemma ReleasedKeepsInv(s: State, id: string)
    requires Inv(s)
    ensures Inv(Released(s, id))
  {
    var t := Released(s, id);
    forall k | 0 <= k < |t.calls|
      ensures CallInv(t, k)
    {
      assert CallInv(s, k);
    }
  }

  lemma MovedKeepsInv(s: State, k: nat, phase: Phase)
    requires Inv(s) && k < |s.calls| && (phase.Returned? ==> s.calls[k].closes != 0)
    ensures Inv(Moved(s, k, phase))
  {
    var t := Moved(s, k, phase);
    forall j | 0 <= j < |t.calls|
      ensures CallInv(t, j)
    {
      assert CallInv(s, j);
    }
  }

  lemma SameCallsKeepInv(s: State, t: State)
    requires Inv(s) && t.calls == s.calls && t.flushes == s.flushes && t.marker == s.marker
    ensures Inv(t)
  {
    forall k | 0 <= k < |t.calls|
      ensures CallInv(t, k)
    {
      assert CallInv(s, k);
    }
  }

  lemma StepKeepsInv(s: State, a: Action)
    requires Inv(s) && Step(s, a).Some?
    ensures Inv(Step(s, a).value)
  {
    match a
    case HostWrite(_) => SameCallsKeepInv(s, Step(s, a).value);
    case Register => RegisterKeepsInv(s);
    case PumpLine =>
      var line := LineAt(s.written, s.done).value;
      RoutedKeepsInv(s, line);
      SameCallsKeepInv(Routed(s, line), Step(s, a).value);
    case WriteSentinel(k) =>
      MovedKeepsInv(s, k, Waiting(|s.written|));
      SameCallsKeepInv(Moved(s, k, Waiting(|s.written|)), Step(s, a).value);
    case WriteFails(k) => MovedKeepsInv(s, k, Abandoned);
    case Return(k) => MovedKeepsInv(s, k, Returned(s.calls[k].phase.at));
  }

  lemma {:induction false} RunKeepsInv(s: State, actions: seq<Action>)
    requires Inv(s) && Run(s, actions).Some?
    ensures Inv(Run(s, actions).value)
    decreases |actions|
  {
    if actions != [] {
      StepKeepsInv(s, actions[0]);
      RunKeepsInv(Step(s, actions[0]).value, actions[1..]);
    }
  }

  /** On every run no id is given out twice, no waiter is released twice, none returns unreleased. */
  lemma ReleasedAtMostOnce(actions: seq<Action>, k: nat)
    requires Run(INIT, actions).Some? && k < |Run(INIT, actions).value.calls|
    ensures var s := Run(INIT, actions).value;
            && s.calls[k].closes <= 1
            && (s.calls[k].phase.Returned? ==> s.calls[k].closes == 1)
            && (forall j :: 0 <= j < |s.calls| && Id(j) == Id(k) ==> j == k)
  {
    RunKeepsInv(INIT, actions);
    var s := Run(INIT, actions).value;
    assert CallInv(s, k);
    forall j | 0 <= j < |s.calls| && Id(j) == Id(k)
      ensures j == k
    {
      DecimalInjective(j + 1, k + 1);
    }
  }

  /** A waiter is released only when the pump handles a line that begins with the sentinel and carries its id. */
  lemma ReleasedOnlyByItsId(s: State, a: Action, k: nat)
    requires Inv(s) && k < |s.calls| && Step(s, a).Some?
    requires Step(s, a).value.calls[k].closes > s.calls[k].closes
    ensures a == PumpLine
    ensures var line := LineAt(s.written, s.done).value; s.marker <= line && IdOf(s.marker, line) == Id(k)
  {
    match a
    case PumpLine => RoutedReleasesOnly(s, LineAt(s.written, s.done).value, k);
    case _ =>
  }

  lemma RoutedReleasesOnly(s: State, line: string, k: nat)
    requires Inv(s) && k < |s.calls|
    ensures Routed(s, line).calls[k] == s.calls[k] || (s.marker <= line && IdOf(s.marker, line) == Id(k))
  {
    var t := Routed(s, line);
    if s.marker <= line {
      var id := IdOf(s.marker, line);
      if id in s.flushes && s.flushes[id] == k {
        assert id == Id(k);
      }
    }
  }

  // ----- What holds when the host writes no NUL character -----

  predicate NulFree(a: Action) {
    a.HostWrite? ==> '\0' !in a.text
  }

  predicate LineStart(written: string, p: nat) {
    p == 0 || (p <= |written| && written[p - 1] == '\n')
  }

  predicate Sent(phase: Phase) {
    phase.Waiting? || phase.Returned?
  }

  /**
   A sentinel that was written at `at` is in the pipe, the pump is before or behind it, and the waiter
   is released exactly when the pump is behind it and it began a line.
   */
  ghost predicate SentInv(s: State, k: nat)
    requires k < |s.calls|
  {
    var c := s.calls[k];
    if !Sent(c.phase) then c.closes == 0
    else
      var at := c.phase.at;
      var end := at + |SentinelLine(s.marker, k)|;
      && end <= |s.written| && s.written[at..end] == SentinelLine(s.marker, k)
      && (s.done <= at || end <= s.done)
      && (c.closes == 1 <==> end <= s.done && LineStart(s.written, at))
  }

  ghost predicate Owned(s: State, p: nat) {
    exists k :: 0 <= k < |s.calls| && Sent(s.calls[k].phase) && s.calls[k].phase.at == p
  }

  /** The pump is at a line start, and every NUL in the pipe begins some waiter's sentinel. */
  ghost predicate PipeInv(s: State) {
    && Marker(s.marker)
    && s.done <= |s.written| && LineStart(s.written, s.done)
    && (forall p :: 0 <= p < |s.written| && s.written[p] == '\0' ==> Owned(s, p))
  }

  ghost predicate NulFreeInv(s: State) {
    Inv(s) && PipeInv(s) && forall k :: 0 <= k < |s.calls| ==> SentInv(s, k)
  }

  /** What the proof needs of the sentinel text: one NUL, at its start, and no newline. */
  ghost predicate Marker(marker: string) {
    marker != "" && '\n' !in marker && forall i :: 0 <= i < |marker| ==> (marker[i] == '\0' <==> i == 0)
  }

  lemma SentinelIsMarker()
    ensures Marker(SENTINEL)
  {
  }

  /** Text with one NUL, at its start, and one newline, at its end. */
  ghost predicate Shaped(l: string) {
    && |l| >= 2
    && (forall i :: 0 <= i < |l| ==> (l[i] == '\0' <==> i == 0))
    && (forall i :: 0 <= i < |l| ==> (l[i] == '\n' <==> i == |l| - 1))
  }

  lemma SentinelLineShape(marker: string, k: nat)
    requires Marker(marker)
    ensures marker <= SentinelLine(marker, k) && Shaped(SentinelLine(marker, k))
  {
    var l := SentinelLine(marker, k);
    var id := Id(k);
    assert forall i :: 0 <= i < |marker| ==> l[i] == marker[i];
    assert forall i :: |marker| <= i < |l| - 1 ==> l[i] == id[i - |marker|];
  }

  lemma SentinelLineId(marker: string, k: nat)
    ensures marker <= SentinelLine(marker, k) && IdOf(marker, SentinelLine(marker, k)) == Id(k)
  {
    assert SentinelLine(marker, k)[|marker|..] == Id(k) + "\n";
    TrimLine(Id(k));
  }

  lemma LineAtIsLine(written: string, p: nat)
    requires p <= |written| && LineAt(written, p).Some?
    ensures var line := LineAt(written, p).value;
            && line != "" && p + |line| <= |written|
            && line == written[p..p + |line|]
            && (forall i :: p <= i < p + |line| ==> (written[i] == '\n' <==> i == p + |line| - 1))
  {
    var k := Find(written[p..], '\n');
    assert forall i :: 0 <= i < k ==> written[p..][i] in written[p..][..k];
    assert forall i :: p <= i < p + k ==> written[i] == written[p..][i - p];
  }

  /** Text that is in place at `p` and has its only newline at its end is the line at `p`. */
  lemma LineAtIs(written: string, p: nat, l: string)
    requires Shaped(l) && p + |l| <= |written| && written[p..p + |l|] == l
    ensures LineAt(written, p) == Some(l)
  {
    var rest := written[p..];
    assert rest[..|l|] == l;
    assert forall i :: 0 <= i < |l| ==> rest[i] == rest[..|l|][i];
    FindIs(rest, '\n', |l| - 1);
  }

  /** A line cannot end inside such a text; and one that began before it makes it not begin a line. */
  lemma NotCut(written: string, from: nat, end: nat, p: nat, l: string)
    requires from < end <= |written| && from < p < end
    requires forall i :: from <= i < end ==> (written[i] == '\n' <==> i == end - 1)
    requires Shaped(l) && p + |l| <= |written| && written[p..p + |l|] == l
    ensures end == p + |l| && !LineStart(written, p)
  {
    assert forall i :: p <= i < p + |l| ==> written[i] == written[p..p + |l|][i - p];
    assert written[p + (|l| - 1)] == '\n';
    assert end - 1 < p + |l| ==> written[p + (end - 1 - p)] == '\n';
  }

  lemma LineAtSentinel(s: State, k: nat)
    requires Marker(s.marker) && s.done <= |s.written| && k < |s.calls| && SentInv(s, k)
    requires Sent(s.calls[k].phase) && s.calls[k].phase.at == s.done
    ensures LineAt(s.written, s.done) == Some(SentinelLine(s.marker, k))
  {
    SentinelLineShape(s.marker, k);
    LineAtIs(s.written, s.done, SentinelLine(s.marker, k));
  }

  lemma WriterOf(s: State, line: string) returns (m: nat)
    requires PipeInv(s) && LineAt(s.written, s.done) == Some(line) && s.marker <= line
    ensures m < |s.calls| && Sent(s.calls[m].phase) && s.calls[m].phase.at == s.done
  {
    LineAtIsLine(s.written, s.done);
    assert line[0] == s.marker[0] == '\0' && line[0] == s.written[s.done];
    assert Owned(s, s.done);
    m :| 0 <= m < |s.calls| && Sent(s.calls[m].phase) && s.calls[m].phase.at == s.done;
  }

  lemma RoutedReleases(s: State, line: string, m: nat)
    requires Inv(s) && m < |s.calls| && s.calls[m].closes == 0
    requires s.marker <= line && IdOf(s.marker, line) == Id(m)
    ensures Routed(s, line).calls == s.calls[m := s.calls[m].(closes := 1)]
  {
    assert CallInv(s, m);
  }

  /** A line that begins with the sentinel releases the waiter that wrote it, and nobody else. */
  lemma ReleasesItsWriter(s: State, line: string) returns (m: nat)
    requires NulFreeInv(s) && LineAt(s.written, s.done) == Some(line) && s.marker <= line
    ensures m < |s.calls| && Sent(s.calls[m].phase) && s.calls[m].phase.at == s.done
    ensures line == SentinelLine(s.marker, m)
    ensures Routed(s, line).calls == s.calls[m := s.calls[m].(closes := 1)]
  {
    m := WriterOf(s, line);
    assert SentInv(s, m) && CallInv(s, m);
    LineAtSentinel(s, m);
    SentinelLineShape(s.marker, m);
    SentinelLineId(s.marker, m);
    RoutedReleases(s, line, m);
  }

  lemma OneWriter(s: State, k: nat, m: nat)
    requires SentinelLine(s.marker, k) == SentinelLine(s.marker, m)
    ensures k == m
  {
    SentinelLineId(s.marker, k);
    SentinelLineId(s.marker, m);
    DecimalInjective(k + 1, m + 1);
  }

  lemma PumpKeepsSent(s: State, k: nat, line: string)
    requires NulFreeInv(s) && LineAt(s.written, s.done) == Some(line) && k < |s.calls|
    ensures SentInv(Pumped(s, line), k)
  {
    LineAtIsLine(s.written, s.done);
    assert SentInv(s, k);
    var m := |s.calls|;
    if s.marker <= line {
      m := ReleasesItsWriter(s, line);
    }
    PumpKeepsOne(s, k, line, m, Pumped(s, line));
  }

  /** A sentinel the pump has not come to stays ahead, or is glued to the end of this line. */
  lemma PumpPasses(s: State, k: nat, line: string)
    requires Marker(s.marker) && s.done <= |s.written|
    requires k < |s.calls| && SentInv(s, k) && Sent(s.calls[k].phase) && s.done < s.calls[k].phase.at
    requires LineAt(s.written, s.done) == Some(line)
    ensures var at := s.calls[k].phase.at;
            || s.done + |line| <= at
            || (s.done + |line| == at + |SentinelLine(s.marker, k)| && !LineStart(s.written, at))
  {
    LineAtIsLine(s.written, s.done);
    SentinelLineShape(s.marker, k);
    var at := s.calls[k].phase.at;
    if at < s.done + |line| {
      NotCut(s.written, s.done, s.done + |line|, at, SentinelLine(s.marker, k));
    }
  }

  /** The pump reads the sentinel itself. */
  lemma PumpReads(s: State, k: nat, line: string)
    requires Marker(s.marker) && s.done <= |s.written|
    requires k < |s.calls| && SentInv(s, k) && Sent(s.calls[k].phase) && s.done == s.calls[k].phase.at
    requires LineAt(s.written, s.done) == Some(line)
    ensures line == SentinelLine(s.marker, k) && s.marker <= line
  {
    LineAtSentinel(s, k);
    SentinelLineShape(s.marker, k);
  }

  /** `m` is the call the line released, or out of range. */
  lemma PumpKeepsOne(s: State, k: nat, line: string, m: nat, t: State)
    requires Marker(s.marker) && s.done <= |s.written| && LineStart(s.written, s.done)
    requires k < |s.calls| && SentInv(s, k)
    requires LineAt(s.written, s.done) == Some(line)
    requires t.marker == s.marker && t.written == s.written && t.done == s.done + |line|
    requires if m < |s.calls|
             then Sent(s.calls[m].phase) && s.calls[m].phase.at == s.done && line == SentinelLine(s.marker, m)
                  && t.calls == s.calls[m := s.calls[m].(closes := 1)]
             else t.calls == s.calls && !(s.marker <= line)
    ensures SentInv(t, k)
  {
    var c := s.calls[k];
    if Sent(c.phase) {
      if s.done < c.phase.at {
        PumpPasses(s, k, line);
      } else if c.phase.at == s.done {
        PumpReads(s, k, line);
        if m < |s.calls| {
          OneWriter(s, k, m);
        }
      }
    }
  }

  /** What a line leaves alone: the text, and how far each flush call has come. */
  ghost predicate Behind(s: State, t: State, line: string) {
    && t.marker == s.marker && t.written == s.written && t.done == s.done + |line|
    && |t.calls| == |s.calls|
    && forall k :: 0 <= k < |s.calls| ==> t.calls[k].phase == s.calls[k].phase
  }

  lemma PumpedIsBehind(s: State, line: string)
    ensures Behind(s, Pumped(s, line), line)
  {
    var t := Routed(s, line);
    RoutedKeepsPhases(s, line);
    assert Pumped(s, line) == t.(done := s.done + |line|);
  }

  lemma RoutedKeepsPhases(s: State, line: string)
    ensures Behind(s, Routed(s, line), "")
  {
    if s.marker <= line {
      ReleasedKeepsPhases(s, IdOf(s.marker, line));
    }
  }

  lemma ReleasedKeepsPhases(s: State, id: string)
    ensures Behind(s, Released(s, id), "")
  {
  }

  lemma PumpKeepsPipe(s: State, t: State, line: string)
    requires PipeInv(s) && LineAt(s.written, s.done) == Some(line) && Behind(s, t, line)
    ensures PipeInv(t)
  {
    LineAtIsLine(s.written, s.done);
    forall p | 0 <= p < |t.written| && t.written[p] == '\0'
      ensures Owned(t, p)
    {
      OwnedStays(s, t, p);
    }
  }

  lemma PumpKeepsAllSent(s: State, line: string)
    requires NulFreeInv(s) && LineAt(s.written, s.done) == Some(line)
    ensures var t := Pumped(s, line);
            |t.calls| == |s.calls| && forall k :: 0 <= k < |t.calls| ==> SentInv(t, k)
  {
    var t := Pumped(s, line);
    forall k | 0 <= k < |t.calls|
      ensures SentInv(t, k)
    {
      PumpKeepsSent(s, k, line);
    }
  }

  lemma PumpKeepsNulFree(s: State)
    requires NulFreeInv(s) && Step(s, PumpLine).Some?
    ensures NulFreeInv(Step(s, PumpLine).value)
  {
    var line := LineAt(s.written, s.done).value;
    StepKeepsInv(s, PumpLine);
    PumpedIsBehind(s, line);
    PumpKeepsPipe(s, Pumped(s, line), line);
    PumpKeepsAllSent(s, line);
    assert Step(s, PumpLine).value == Pumped(s, line);
  }

  /** Text appended behind what is there leaves every sentinel already sent as it is. */
  lemma AppendKeepsSent(s: State, t: State, k: nat)
    requires k < |s.calls| && k < |t.calls| && s.calls[k] == t.calls[k]
    requires SentInv(s, k) && s.written <= t.written && s.done == t.done && s.marker == t.marker
    ensures SentInv(t, k)
  {
    var c := s.calls[k];
    if Sent(c.phase) {
      var end := c.phase.at + |SentinelLine(s.marker, k)|;
      assert t.written[c.phase.at..end] == s.written[c.phase.at..end];
    }
  }

  lemma WriteKeepsNulFree(s: State, a: Action)
    requires NulFreeInv(s) && (a.HostWrite? || a.Register?) && NulFree(a)
    ensures NulFreeInv(Step(s, a).value)
  {
    var t := Step(s, a).value;
    StepKeepsInv(s, a);
    forall k | 0 <= k < |t.calls|
      ensures SentInv(t, k)
    {
      if k < |s.calls| {
        AppendKeepsSent(s, t, k);
      }
    }
    forall p | 0 <= p < |t.written| && t.written[p] == '\0'
      ensures Owned(t, p)
    {
      assert p < |s.written|;
      OwnedStays(s, t, p);
    }
  }

  lemma OwnedStays(s: State, t: State, p: nat)
    requires Owned(s, p) && |s.calls| <= |t.calls|
    requires forall k :: 0 <= k < |s.calls| && Sent(s.calls[k].phase) ==>
                           Sent(t.calls[k].phase) && t.calls[k].phase.at == s.calls[k].phase.at
    ensures Owned(t, p)
  {
    var k :| 0 <= k < |s.calls| && Sent(s.calls[k].phase) && s.calls[k].phase.at == p;
    assert Sent(t.calls[k].phase);
  }

  lemma SentinelKeepsNulFree(s: State, n: nat)
    requires NulFreeInv(s) && Step(s, WriteSentinel(n)).Some?
    ensures NulFreeInv(Step(s, WriteSentinel(n)).value)
  {
    var t := Step(s, WriteSentinel(n)).value;
    StepKeepsInv(s, WriteSentinel(n));
    SentinelLineShape(s.marker, n);
    assert SentInv(s, n);
    forall k | 0 <= k < |t.calls|
      ensures SentInv(t, k)
    {
      if k != n {
        AppendKeepsSent(s, t, k);
      } else {
        assert t.written[|s.written|..|s.written| + |SentinelLine(s.marker, n)|] == SentinelLine(s.marker, n);
      }
    }
    forall p | 0 <= p < |t.written| && t.written[p] == '\0'
      ensures Owned(t, p)
    {
      if p < |s.written| {
        OwnedStays(s, t, p);
      } else {
        assert t.written[p] == SentinelLine(s.marker, n)[p - |s.written|];
        assert Sent(t.calls[n].phase) && t.calls[n].phase.at == p;
      }
    }
  }

  lemma MovedKeepsNulFree(s: State, a: Action)
    requires NulFreeInv(s) && (a.WriteFails? || a.Return?) && Step(s, a).Some?
    ensures NulFreeInv(Step(s, a).value)
  {
    var t := Step(s, a).value;
    StepKeepsInv(s, a);
    forall k | 0 <= k < |t.calls|
      ensures SentInv(t, k)
    {
      assert SentInv(s, k);
    }
    forall p | 0 <= p < |t.written| && t.written[p] == '\0'
      ensures Owned(t, p)
    {
      OwnedStays(s, t, p);
    }
  }

  lemma {:induction false} RunKeepsNulFree(s: State, actions: seq<Action>)
    requires NulFreeInv(s) && Run(s, actions).Some?
    requires forall i :: 0 <= i < |actions| ==> NulFree(actions[i])
    ensures NulFreeInv(Run(s, actions).value)
    decreases |actions|
  {
    if actions != [] {
      match actions[0] {
        case PumpLine => PumpKeepsNulFree(s);
        case WriteSentinel(n) => SentinelKeepsNulFree(s, n);
        case HostWrite(_) => WriteKeepsNulFree(s, actions[0]);
        case Register => WriteKeepsNulFree(s, actions[0]);
        case _ => MovedKeepsNulFree(s, actions[0]);
      }
      RunKeepsNulFree(Step(s, actions[0]).value, actions[1..]);
    }
  }

  lemma Reachable(actions: seq<Action>) returns (s: State)
    requires Run(INIT, actions).Some? && forall i :: 0 <= i < |actions| ==> NulFree(actions[i])
    ensures Run(INIT, actions) == Some(s) && NulFreeInv(s)
  {
    SentinelIsMarker();
    RunKeepsNulFree(INIT, actions);
    s := Run(INIT, actions).value;
  }

  /** The call's sentinel, read from where it was written. */
  ghost predicate OwnSentinelRead(s: State, k: nat)
    requires k < |s.calls| && Sent(s.calls[k].phase)
  {
    var at := s.calls[k].phase.at;
    var end := at + |SentinelLine(s.marker, k)|;
    end <= s.done <= |s.written| && s.written[at..end] == SentinelLine(s.marker, k) && LineStart(s.written, at)
  }

  /**
   The barrier: when a flush has returned, the pump is behind its sentinel, so everything written
   before it has been routed or forwarded, and the line that released it was its own.
   */
  lemma FlushIsABarrier(actions: seq<Action>, k: nat)
    requires Run(INIT, actions).Some? && forall i :: 0 <= i < |actions| ==> NulFree(actions[i])
    requires k < |Run(INIT, actions).value.calls| && Run(INIT, actions).value.calls[k].phase.Returned?
    ensures OwnSentinelRead(Run(INIT, actions).value, k)
  {
    var s := Reachable(actions);
    assert CallInv(s, k) && SentInv(s, k);
  }

  /**
   Once the pump is past a sentinel, its waiter has been released if and only if the sentinel began a
   line. One glued to an unterminated line is forwarded as text, and its flush never returns.
   */
  lemma ReleasedIffItStartsALine(actions: seq<Action>, k: nat)
    requires Run(INIT, actions).Some? && forall i :: 0 <= i < |actions| ==> NulFree(actions[i])
    requires var s := Run(INIT, actions).value;
             k < |s.calls| && Sent(s.calls[k].phase) && s.calls[k].phase.at < s.done
    ensures var s := Run(INIT, actions).value;
            s.calls[k].closes == 1 <==> LineStart(s.written, s.calls[k].phase.at)
  {
    var s := Reachable(actions);
    assert SentInv(s, k);
  }

  /** A flush whose sentinel landed behind an unterminated line stays blocked on every continuation. */
  lemma {:induction false} GluedFlushNeverReturns(s: State, actions: seq<Action>, k: nat)
    requires NulFreeInv(s) && Run(s, actions).Some?
    requires forall i :: 0 <= i < |actions| ==> NulFree(actions[i])
    requires Glued(s, k)
    ensures var t := Run(s, actions).value;
            k < |t.calls| && t.calls[k].phase == s.calls[k].phase && t.calls[k].closes == 0
    decreases |actions|
  {
    assert SentInv(s, k) && CallInv(s, k);
    if actions != [] {
      RunKeepsNulFree(s, actions[..1]);
      var t := Step(s, actions[0]).value;
      assert actions[..1][1..] == [] && Run(t, []) == Some(t);
      StepKeepsGlued(s, actions[0], k);
      GluedFlushNeverReturns(t, actions[1..], k);
    }
  }

  lemma StepKeepsGlued(s: State, a: Action, k: nat)
    requires k < |s.calls| && s.calls[k].phase.Waiting? && s.calls[k].closes == 0
    requires s.calls[k].phase.at <= |s.written| && !LineStart(s.written, s.calls[k].phase.at)
    requires Step(s, a).Some?
    ensures var t := Step(s, a).value;
            k < |t.calls| && t.calls[k].phase == s.calls[k].phase && !LineStart(t.written, t.calls[k].phase.at)
  {
  }

  lemma LineAhead(s: State, k: nat)
    requires NulFreeInv(s) && k < |s.calls| && s.calls[k].phase.Waiting? && s.done <= s.calls[k].phase.at
    ensures s.done <= |s.written| && LineAt(s.written, s.done).Some?
  {
    assert SentInv(s, k);
    var at := s.calls[k].phase.at;
    var i := at + |SentinelLine(s.marker, k)| - 1;
    SentinelLineShape(s.marker, k);
    assert s.written[i] == s.written[at..i + 1][i - at];
    NewlineAhead(s.written, s.done, i);
  }

  lemma PumpAhead(s: State, k: nat) returns (t: State)
    requires NulFreeInv(s) && k < |s.calls| && s.calls[k].phase.Waiting? && s.done <= s.calls[k].phase.at
    ensures Step(s, PumpLine) == Some(t) && NulFreeInv(t)
    ensures t.written == s.written && s.done < t.done <= |t.written|
    ensures k < |t.calls| && t.calls[k].phase == s.calls[k].phase
  {
    LineAhead(s, k);
    var line := LineAt(s.written, s.done).value;
    LineAtIsLine(s.written, s.done);
    PumpedIsBehind(s, line);
    PumpStep(s, line);
    PumpKeepsNulFree(s);
    t := Pumped(s, line);
  }

  /**
   Progress, given that the pump keeps reading: a sentinel that begins a line releases its waiter after
   finitely many lines.
   */
  lemma PumpReleases(s: State, k: nat) returns (lines: seq<Action>)
    requires NulFreeInv(s)
    requires k < |s.calls| && s.calls[k].phase.Waiting? && LineStart(s.written, s.calls[k].phase.at)
    ensures forall i :: 0 <= i < |lines| ==> lines[i] == PumpLine
    ensures Run(s, lines).Some? && k < |Run(s, lines).value.calls| && Run(s, lines).value.calls[k].closes == 1
    decreases |s.written| - s.done
  {
    if s.done > s.calls[k].phase.at {
      assert SentInv(s, k);
      lines := [];
    } else {
      var t := PumpAhead(s, k);
      var rest := PumpReleases(t, k);
      lines := [PumpLine] + rest;
      assert lines[1..] == rest;
    }
  }

  lemma PumpStep(s: State, line: string)
    requires s.done <= |s.written| && LineAt(s.written, s.done) == Some(line)
    ensures Step(s, PumpLine) == Some(Pumped(s, line))
  {
  }

  /** A glued flush is reachable: an unterminated prompt in front of it is enough. */
  lemma GluedFlushIsReachable()
    ensures exists actions :: && (forall i :: 0 <= i < |actions| ==> NulFree(actions[i]))
                              && Run(INIT, actions).Some? && NulFreeInv(Run(INIT, actions).value)
                              && Glued(Run(INIT, actions).value, 0)
  {
    var a0, a1, a2 := HostWrite("x"), Register, WriteSentinel(0);
    var actions := [a0, a1, a2];
    assert actions[0] == a0 && actions[1] == a1 && actions[2] == a2;
    assert actions[1..] == [a1, a2] && [a1, a2][1..] == [a2];
    var s1 := Step(INIT, a0).value;
    var s2 := Step(s1, a1).value;
    var s3 := Step(s2, a2).value;
    assert [a2][1..] == [] && Run(s3, []) == Some(s3);
    assert Run(s2, [a2]) == Some(s3);
    assert Run(s1, [a1, a2]) == Some(s3);
    assert Run(INIT, actions) == Some(s3);
    assert s2.written == "x" && s3.written[0] == 'x';
    var s := Reachable(actions);
    assert Glued(s, 0);
  }

  /** The flush waits with its sentinel behind an unterminated line. */
  ghost predicate Glued(s: State, k: nat) {
    k < |s.calls| && s.calls[k].phase.Waiting? && !LineStart(s.written, s.calls[k].phase.at)
  }

  lemma NewlineAhead(written: string, p: nat, i: nat)
    requires p <= i < |written| && written[i] == '\n'
    ensures LineAt(written, p).Some?
  {
    var rest := written[p..];
    assert rest[i - p] == '\n' && rest[..|rest|] == rest;
  }
}
