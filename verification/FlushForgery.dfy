/**
 The flush barrier with a host that writes anything: when a flush can return before the pump has read
 its sentinel.
 */
module FlushForgery {
  import opened Wrappers
  import opened Seqs
  import opened Strings
  import opened FlushBarrier
  import Banner

  // ----- What holds whatever the host writes -----

  /** A sentinel that was written is in the pipe, and the pump is in front of it or behind it. */
  ghost predicate InPipe(s: State, k: nat)
    requires k < |s.calls|
  {
    Sent(s.calls[k].phase) ==>
      var at := s.calls[k].phase.at;
      var end := at + |SentinelLine(s.marker, k)|;
      && end <= |s.written| && s.written[at..end] == SentinelLine(s.marker, k)
      && (s.done <= at || end <= s.done)
  }

  ghost predicate HostInv(s: State) {
    && Inv(s) && Marker(s.marker)
    && s.done <= |s.written| && LineStart(s.written, s.done)
    && forall k :: 0 <= k < |s.calls| ==> InPipe(s, k)
  }

  lemma AppendKeepsInPipe(s: State, t: State, k: nat)
    requires k < |s.calls| && k < |t.calls| && s.calls[k].phase == t.calls[k].phase
    requires InPipe(s, k) && s.written <= t.written && s.done == t.done && s.marker == t.marker
    ensures InPipe(t, k)
  {
    if Sent(s.calls[k].phase) {
      var at := s.calls[k].phase.at;
      var end := at + |SentinelLine(s.marker, k)|;
      assert t.written[at..end] == s.written[at..end];
    }
  }

  lemma AppendKeepsLineStart(w: string, v: string, p: nat)
    requires w <= v && p <= |w|
    ensures LineStart(w, p) <==> LineStart(v, p)
  {
    if p > 0 {
      assert v[p - 1] == w[p - 1];
    }
  }

  /** A line ends in front of a sentinel that is still ahead, or with it. */
  lemma LineSpares(s: State, line: string, k: nat)
    requires Marker(s.marker) && s.done <= |s.written| && LineAt(s.written, s.done) == Some(line)
    requires k < |s.calls| && InPipe(s, k) && Sent(s.calls[k].phase) && s.done <= s.calls[k].phase.at
    ensures var at := s.calls[k].phase.at;
            s.done + |line| <= at || s.done + |line| == at + |SentinelLine(s.marker, k)|
  {
    var at := s.calls[k].phase.at;
    LineAtIsLine(s.written, s.done);
    SentinelLineShape(s.marker, k);
    if s.done == at {
      LineAtIs(s.written, s.done, SentinelLine(s.marker, k));
    } else if at < s.done + |line| {
      NotCut(s.written, s.done, s.done + |line|, at, SentinelLine(s.marker, k));
    }
  }

  lemma PumpKeepsInPipe(s: State, t: State, line: string, k: nat)
    requires HostInv(s) && LineAt(s.written, s.done) == Some(line) && Behind(s, t, line) && k < |s.calls|
    ensures InPipe(t, k)
  {
    assert InPipe(s, k);
    if Sent(s.calls[k].phase) && s.done <= s.calls[k].phase.at {
      LineSpares(s, line, k);
    }
  }

  lemma PumpKeepsPlaces(s: State, t: State, line: string)
    requires HostInv(s) && LineAt(s.written, s.done) == Some(line) && Behind(s, t, line) && Inv(t)
    ensures HostInv(t)
  {
    LineAtIsLine(s.written, s.done);
    forall k | 0 <= k < |t.calls|
      ensures InPipe(t, k)
    {
      PumpKeepsInPipe(s, t, line, k);
    }
  }

  lemma PumpKeepsHost(s: State, line: string)
    requires HostInv(s) && LineAt(s.written, s.done) == Some(line)
    ensures HostInv(Pumped(s, line))
  {
    PumpStep(s, line);
    StepKeepsInv(s, PumpLine);
    PumpedIsBehind(s, line);
    PumpKeepsPlaces(s, Pumped(s, line), line);
  }

  lemma WriteKeepsHost(s: State, a: Action)
    requires HostInv(s) && (a.HostWrite? || a.Register?)
    ensures HostInv(Step(s, a).value)
  {
    var t := Step(s, a).value;
    StepKeepsInv(s, a);
    AppendKeepsLineStart(s.written, t.written, s.done);
    forall k | 0 <= k < |t.calls|
      ensures InPipe(t, k)
    {
      if k < |s.calls| {
        AppendKeepsInPipe(s, t, k);
      }
    }
  }

  lemma SentinelKeepsHost(s: State, n: nat)
    requires HostInv(s) && Step(s, WriteSentinel(n)).Some?
    ensures HostInv(Step(s, WriteSentinel(n)).value)
  {
    var t := Step(s, WriteSentinel(n)).value;
    StepKeepsInv(s, WriteSentinel(n));
    AppendKeepsLineStart(s.written, t.written, s.done);
    SumParts(s.written, SentinelLine(s.marker, n));
    forall k | 0 <= k < |t.calls|
      ensures InPipe(t, k)
    {
      if k != n {
        AppendKeepsInPipe(s, t, k);
      } else {
        assert t.written[|s.written|..|s.written| + |SentinelLine(s.marker, n)|] == SentinelLine(s.marker, n);
      }
    }
  }

  lemma MovedKeepsHost(s: State, a: Action)
    requires HostInv(s) && (a.WriteFails? || a.Return?) && Step(s, a).Some?
    ensures HostInv(Step(s, a).value)
  {
    var t := Step(s, a).value;
    StepKeepsInv(s, a);
    forall k | 0 <= k < |t.calls|
      ensures InPipe(t, k)
    {
      assert InPipe(s, k);
    }
  }

  lemma StepKeepsHost(s: State, a: Action)
    requires HostInv(s) && Step(s, a).Some?
    ensures HostInv(Step(s, a).value)
  {
    match a
    case HostWrite(_) => WriteKeepsHost(s, a);
    case Register => WriteKeepsHost(s, a);
    case WriteSentinel(n) => SentinelKeepsHost(s, n);
    case PumpLine =>
      var line := LineAt(s.written, s.done).value;
      PumpStep(s, line);
      PumpKeepsHost(s, line);
    case WriteFails(_) => MovedKeepsHost(s, a);
    case Return(_) => MovedKeepsHost(s, a);
  }

  lemma {:induction false} RunKeepsHost(s: State, actions: seq<Action>)
    requires HostInv(s) && Run(s, actions).Some?
    ensures HostInv(Run(s, actions).value)
    decreases |actions|
  {
    if actions != [] {
      StepKeepsHost(s, actions[0]);
      RunKeepsHost(Step(s, actions[0]).value, actions[1..]);
    }
  }

  // ----- Lines that carry the id of a flush -----

  /** Routing this line releases the flush. */
  ghost predicate Names(marker: string, line: string, k: nat) {
    marker <= line && IdOf(marker, line) == Id(k)
  }

  /** A line that the pump has yet to read, ends by `limit`, and carries the id of the flush. */
  ghost predicate ForgedAt(s: State, k: nat, p: nat, limit: int) {
    && s.done <= p <= |s.written| && LineStart(s.written, p)
    && LineAt(s.written, p).Some?
    && p + |LineAt(s.written, p).value| <= limit
    && Names(s.marker, LineAt(s.written, p).value, k)
  }

  ghost predicate Forged(s: State, k: nat, limit: int) {
    exists p :: ForgedAt(s, k, p, limit)
  }

  ghost predicate Waits(s: State, k: nat) {
    k < |s.calls| && s.calls[k].phase.Waiting?
  }

  /** The flush waits and has not been released. */
  ghost predicate Unreleased(s: State, k: nat) {
    Waits(s, k) && s.calls[k].closes == 0
  }

  /** The flush was released with the pump still in front of `limit`, or there is a line that will do it. */
  ghost predicate Loose(s: State, k: nat, limit: int)
    requires k < |s.calls|
  {
    if s.calls[k].closes != 0 then s.done <= limit else Forged(s, k, limit)
  }

  /** Some continuation lets the flush return while the pump has read no further than `limit`. */
  ghost predicate ReturnsBy(s: State, k: nat, limit: int) {
    exists more :: Run(s, more).Some? && ReturnedBy(Run(s, more).value, k, limit)
  }

  ghost predicate ReturnedBy(t: State, k: nat, limit: int) {
    k < |t.calls| && t.calls[k].phase.Returned? && t.done <= limit
  }

  // ----- A forged line lets the flush return -----

  lemma ReturnNow(s: State, k: nat, limit: int)
    requires k < |s.calls| && s.calls[k].phase.Waiting? && s.calls[k].closes != 0 && s.done <= limit
    ensures ReturnsBy(s, k, limit)
  {
    var t := Step(s, Return(k)).value;
    assert [Return(k)][1..] == [] && Run(t, []) == Some(t);
    assert Run(s, [Return(k)]) == Some(t);
    assert ReturnedBy(t, k, limit);
  }

  lemma ReturnsLater(s: State, a: Action, k: nat, limit: int)
    requires Step(s, a).Some? && ReturnsBy(Step(s, a).value, k, limit)
    ensures ReturnsBy(s, k, limit)
  {
    var t := Step(s, a).value;
    var more :| Run(t, more).Some? && ReturnedBy(Run(t, more).value, k, limit);
    assert ([a] + more)[1..] == more;
    assert Run(s, [a] + more) == Run(t, more);
  }

  /** The line in front of the pump ends where the next line starts, or before. */
  lemma NextLineEnds(s: State, p: nat)
    requires s.done < p <= |s.written| && LineStart(s.written, p)
    ensures LineAt(s.written, s.done).Some? && s.done + |LineAt(s.written, s.done).value| <= p
  {
    NewlineAhead(s.written, s.done, p - 1);
    LineAtIsLine(s.written, s.done);
  }

  lemma PumpWaits(s: State, k: nat, line: string)
    requires HostInv(s) && Unreleased(s, k) && LineAt(s.written, s.done) == Some(line)
    ensures var t := Pumped(s, line);
            && k < |t.calls| && t.calls[k].phase == s.calls[k].phase
            && (t.calls[k].closes == 0 || Names(s.marker, line, k))
  {
    PumpedIsBehind(s, line);
    RoutedReleasesOnly(s, line, k);
  }

  lemma PumpReleasesNamed(s: State, k: nat, line: string)
    requires HostInv(s) && Unreleased(s, k) && Names(s.marker, line, k)
    ensures var t := Routed(s, line); k < |t.calls| && t.calls[k].phase == s.calls[k].phase && t.calls[k].closes == 1
  {
    RoutedReleases(s, line, k);
  }

  lemma {:induction false} ForgedLineReleases(s: State, k: nat, p: nat, limit: int)
    requires HostInv(s) && Unreleased(s, k) && ForgedAt(s, k, p, limit)
    ensures ReturnsBy(s, k, limit)
    decreases p - s.done
  {
    if s.done < p {
      NextLineEnds(s, p);
    }
    var line := LineAt(s.written, s.done).value;
    var t := Pumped(s, line);
    LineAtIsLine(s.written, s.done);
    PumpStep(s, line);
    PumpKeepsHost(s, line);
    PumpWaits(s, k, line);
    if s.done == p {
      PumpReleasesNamed(s, k, line);
    }
    if t.calls[k].closes != 0 {
      ReturnNow(t, k, limit);
    } else {
      assert ForgedAt(t, k, p, limit);
      ForgedLineReleases(t, k, p, limit);
    }
    ReturnsLater(s, PumpLine, k, limit);
  }

  // ----- Without one it cannot -----

  lemma LineAtOfPrefix(w: string, v: string, p: nat)
    requires w <= v && p <= |w| && LineAt(v, p).Some? && p + |LineAt(v, p).value| <= |w|
    ensures LineAt(w, p) == LineAt(v, p)
  {
    LineAtIsLine(v, p);
    var k := |LineAt(v, p).value| - 1;
    assert w[p..][k] == v[p + k] == '\n';
    assert forall i :: 0 <= i < k ==> w[p..][i] == v[p + i];
    FindIs(w[p..], '\n', k);
    assert w[p..p + k + 1] == v[p..p + k + 1];
  }

  lemma WriteForgesNothing(s: State, t: State, k: nat, limit: int)
    requires s.written <= t.written && s.done == t.done && s.marker == t.marker && limit <= |s.written|
    requires Forged(t, k, limit)
    ensures Forged(s, k, limit)
  {
    var p :| ForgedAt(t, k, p, limit);
    LineAtIsLine(t.written, p);
    LineAtOfPrefix(s.written, t.written, p);
    AppendKeepsLineStart(s.written, t.written, p);
    assert ForgedAt(s, k, p, limit);
  }

  lemma PumpForgesNothing(s: State, t: State, k: nat, limit: int)
    requires s.written == t.written && s.done <= t.done && s.marker == t.marker
    requires Forged(t, k, limit)
    ensures Forged(s, k, limit)
  {
    var p :| ForgedAt(t, k, p, limit);
    assert ForgedAt(s, k, p, limit);
  }

  /** The pump is past the limit, or the flush still waits and nothing in front of the pump releases it. */
  ghost predicate Safe(s: State, k: nat, limit: int) {
    s.done > limit || (Unreleased(s, k) && limit <= s.calls[k].phase.at && !Forged(s, k, limit))
  }

  lemma NamedIsForged(s: State, k: nat, line: string, limit: int)
    requires HostInv(s) && LineAt(s.written, s.done) == Some(line) && s.done + |line| <= limit
    requires Names(s.marker, line, k)
    ensures Forged(s, k, limit)
  {
    assert ForgedAt(s, k, s.done, limit);
  }

  lemma PumpKeepsSafe(s: State, k: nat, line: string, limit: int)
    requires HostInv(s) && Safe(s, k, limit) && LineAt(s.written, s.done) == Some(line)
    ensures Safe(Pumped(s, line), k, limit)
  {
    var t := Pumped(s, line);
    PumpedIsBehind(s, line);
    if t.done <= limit {
      PumpWaits(s, k, line);
      if Names(s.marker, line, k) {
        NamedIsForged(s, k, line, limit);
      }
      if Forged(t, k, limit) {
        PumpForgesNothing(s, t, k, limit);
      }
    }
  }

  lemma WriteKeepsSafe(s: State, t: State, k: nat, limit: int)
    requires HostInv(s) && Safe(s, k, limit)
    requires s.written <= t.written && s.done == t.done && s.marker == t.marker
    requires s.done <= limit ==> k < |t.calls| && t.calls[k] == s.calls[k]
    ensures Safe(t, k, limit)
  {
    if s.done <= limit {
      assert InPipe(s, k);
      if Forged(t, k, limit) {
        WriteForgesNothing(s, t, k, limit);
      }
    }
  }

  lemma StepKeepsSafe(s: State, a: Action, k: nat, limit: int)
    requires HostInv(s) && Safe(s, k, limit) && Step(s, a).Some?
    ensures Safe(Step(s, a).value, k, limit)
  {
    match a
    case PumpLine =>
      var line := LineAt(s.written, s.done).value;
      PumpStep(s, line);
      PumpKeepsSafe(s, k, line, limit);
    case _ => WriteKeepsSafe(s, Step(s, a).value, k, limit);
  }

  lemma {:induction false} RunKeepsSafe(s: State, actions: seq<Action>, k: nat, limit: int)
    requires HostInv(s) && Safe(s, k, limit) && Run(s, actions).Some?
    ensures Safe(Run(s, actions).value, k, limit)
    decreases |actions|
  {
    if actions != [] {
      StepKeepsHost(s, actions[0]);
      StepKeepsSafe(s, actions[0], k, limit);
      RunKeepsSafe(Step(s, actions[0]).value, actions[1..], k, limit);
    }
  }

  // ----- The exact condition -----

  lemma {:induction false} DoneGrows(s: State, actions: seq<Action>)
    requires Run(s, actions).Some?
    ensures s.done <= Run(s, actions).value.done
    decreases |actions|
  {
    if actions != [] {
      StepKeepsDone(s, actions[0]);
      DoneGrows(Step(s, actions[0]).value, actions[1..]);
    }
  }

  lemma StepKeepsDone(s: State, a: Action)
    requires Step(s, a).Some?
    ensures s.done <= Step(s, a).value.done
  {
    match a
    case PumpLine => PumpedIsBehind(s, LineAt(s.written, s.done).value);
    case _ =>
  }

  lemma UnreleasedReturnsIff(s: State, k: nat, limit: int)
    requires HostInv(s) && Unreleased(s, k) && limit <= s.calls[k].phase.at
    ensures ReturnsBy(s, k, limit) <==> Forged(s, k, limit)
  {
    if Forged(s, k, limit) {
      var p :| ForgedAt(s, k, p, limit);
      ForgedLineReleases(s, k, p, limit);
    } else if ReturnsBy(s, k, limit) {
      var more :| Run(s, more).Some? && ReturnedBy(Run(s, more).value, k, limit);
      RunKeepsSafe(s, more, k, limit);
    }
  }

  lemma ReturnsByIff(s: State, k: nat, limit: int)
    requires HostInv(s) && Waits(s, k) && limit <= s.calls[k].phase.at
    ensures ReturnsBy(s, k, limit) <==> Loose(s, k, limit)
  {
    if s.calls[k].closes == 0 {
      UnreleasedReturnsIff(s, k, limit);
    } else if s.done <= limit {
      ReturnNow(s, k, limit);
    } else if ReturnsBy(s, k, limit) {
      var more :| Run(s, more).Some? && ReturnedBy(Run(s, more).value, k, limit);
      DoneGrows(s, more);
    }
  }

  lemma Reached(actions: seq<Action>) returns (s: State)
    requires Run(INIT, actions).Some?
    ensures Run(INIT, actions) == Some(s) && HostInv(s)
  {
    SentinelIsMarker();
    RunKeepsHost(INIT, actions);
    s := Run(INIT, actions).value;
  }

  /**
   Whatever the host writes: a waiting flush can return with its own sentinel unread if and only if it
   was released before the pump came to that sentinel, or some line in front of the sentinel begins with
   the sentinel text and carries the flush's id.
   */
  lemma ReturnsUnreadIff(actions: seq<Action>, k: nat)
    requires Run(INIT, actions).Some? && Waits(Run(INIT, actions).value, k)
    ensures var s := Run(INIT, actions).value;
            var at := s.calls[k].phase.at;
            ReturnsBy(s, k, at) <==> Loose(s, k, at)
  {
    var s := Reached(actions);
    ReturnsByIff(s, k, s.calls[k].phase.at);
  }

  /**
   And the barrier itself fails, so that something written before the sentinel is still unread when the
   flush returns, if and only if it was released with something before the sentinel unread, or such a
   line ends before the sentinel begins.
   */
  lemma BarrierFailsIff(actions: seq<Action>, k: nat)
    requires Run(INIT, actions).Some? && Waits(Run(INIT, actions).value, k)
    ensures var s := Run(INIT, actions).value;
            var at := s.calls[k].phase.at;
            ReturnsBy(s, k, at - 1) <==> Loose(s, k, at - 1)
  {
    var s := Reached(actions);
    ReturnsByIff(s, k, s.calls[k].phase.at - 1);
  }

  /** The pump is at or in front of a sentinel exactly as long as it has not read it to its end. */
  lemma UnreadMeansInFront(actions: seq<Action>, k: nat)
    requires Run(INIT, actions).Some?
    requires k < |Run(INIT, actions).value.calls| && Sent(Run(INIT, actions).value.calls[k].phase)
    ensures var s := Run(INIT, actions).value;
            var at := s.calls[k].phase.at;
            s.done < at + |SentinelLine(s.marker, k)| <==> s.done <= at
  {
    var s := Reached(actions);
    assert InPipe(s, k);
  }

  lemma NamedByItself(marker: string, k: nat, m: nat)
    requires Names(marker, SentinelLine(marker, m), k)
    ensures k == m
  {
    SentinelLineId(marker, m);
    DecimalInjective(k + 1, m + 1);
  }

  lemma NulFreeNamesItsWriter(s: State, k: nat, p: nat, limit: int)
    requires NulFreeInv(s) && ForgedAt(s, k, p, limit)
    ensures k < |s.calls| && Sent(s.calls[k].phase) && s.calls[k].phase.at == p < limit
  {
    LineAtIsLine(s.written, p);
    var m := NulFreeLineIsOwn(s, p);
    NamedByItself(s.marker, k, m);
  }

  /** With a host that writes no NUL character nothing is forged: that is enough, but not needed. */
  lemma NulFreeHostForgesNothing(s: State, k: nat)
    requires NulFreeInv(s) && Waits(s, k)
    ensures !Loose(s, k, s.calls[k].phase.at)
  {
    assert SentInv(s, k) && CallInv(s, k);
    var at := s.calls[k].phase.at;
    if Forged(s, k, at) {
      var p :| ForgedAt(s, k, p, at);
      NulFreeNamesItsWriter(s, k, p, at);
    }
  }

  lemma NulFreeLineIsOwn(s: State, p: nat) returns (m: nat)
    requires NulFreeInv(s) && p <= |s.written| && LineAt(s.written, p).Some?
    requires s.marker <= LineAt(s.written, p).value
    ensures m < |s.calls| && Sent(s.calls[m].phase) && s.calls[m].phase.at == p
    ensures LineAt(s.written, p).value == SentinelLine(s.marker, m)
  {
    LineAtIsLine(s.written, p);
    var line := LineAt(s.written, p).value;
    assert line[0] == s.marker[0] == '\0' && line[0] == s.written[p];
    assert Owned(s, p);
    m :| 0 <= m < |s.calls| && Sent(s.calls[m].phase) && s.calls[m].phase.at == p;
    assert SentInv(s, m);
    SentinelLineShape(s.marker, m);
    LineAtIs(s.written, p, SentinelLine(s.marker, m));
  }

  /** A forged line is reachable: the host writes the sentinel line of a flush that has only registered. */
  lemma ForgedSentinelBreaksTheBarrier()
    ensures exists actions, s ::
              Run(INIT, actions) == Some(s) && Waits(s, 0) && ReturnsBy(s, 0, s.calls[0].phase.at - 1)
  {
    SentinelIsMarker();
    var s, actions := ForgedState(Banner.SENTINEL);
    var t := Reached(actions);
    ReturnsByIff(s, 0, s.calls[0].phase.at - 1);
  }

  lemma ForgedState(marker: string) returns (s: State, actions: seq<Action>)
    requires Marker(marker)
    ensures Run(State(marker, "", 0, [], map[]), actions) == Some(s)
    ensures Unreleased(s, 0) && Forged(s, 0, s.calls[0].phase.at - 1)
  {
    var line := SentinelLine(marker, 0);
    var a0, a1, a2 := Register, HostWrite(line + "x\n"), WriteSentinel(0);
    var s0 := State(marker, "", 0, [], map[]);
    var s1 := Step(s0, a0).value;
    var s2 := Step(s1, a1).value;
    s := Step(s2, a2).value;
    actions := [a0, a1, a2];
    assert [a0, a1, a2][1..] == [a1, a2] && [a1, a2][1..] == [a2] && [a2][1..] == [];
    assert Run(s, []) == Some(s);
    assert Run(s2, [a2]) == Some(s);
    assert Run(s1, [a1, a2]) == Some(s);
    assert s1.written + (line + "x\n") == line + "x\n";
    assert s.written[0..|line|] == line;
    SentinelLineShape(marker, 0);
    LineAtIs(s.written, 0, line);
    SentinelLineId(marker, 0);
    assert ForgedAt(s, 0, 0, s.calls[0].phase.at - 1);
  }
}
