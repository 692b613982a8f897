/**
 What an operation remembers of its events, how error diagnostics find their way into the result, and
 the classification of the raw error of a run.
 */
module Diagnostics {
  import opened Wrappers
  import opened Seqs
  import opened Strings
  import Events

  datatype Failure = Failure(urn: string, ty: string, op: string, provider: string, message: string)

  type Diags = map<string, seq<string>>

  /** The recorded fields of an operation. */
  datatype Seen = Seen(
    summary: Option<map<string, int>>,
    failures: seq<Failure>,
    urnDiags: Diags,
    errorDiags: seq<string>)

  const NOTHING := Seen(None, [], map[], [])

  // ----- Recording -----

  /** What `handleEvent` takes from an event: error diagnostics count only when they are not blank. */
  datatype Note =
    | ErrorDiag(urn: string, text: string)
    | Failed(failure: Failure)
    | Summed(changes: map<string, int>)
    | Skipped

  function Read(p: Events.Payload): Note {
    match p
    case Summary(changes) => Summed(changes)
    case ResOpFailed(urn, ty, op, provider) => Failed(Failure(urn, ty, op, provider, ""))
    case Diagnostic(severity, urn, message) =>
      if severity == "error" && Trim(message) != "" then ErrorDiag(urn, Trim(message)) else Skipped
    case _ => Skipped
  }

  function ReadAll(events: seq<Events.Payload>): (notes: seq<Note>)
    ensures |notes| == |events|
  {
    if events == [] then [] else ReadAll(events[..|events| - 1]) + [Read(events[|events| - 1])]
  }

  /** The non-blank error diagnostics of some URNs, trimmed and in order. */
  function ErrorsOf(events: seq<Events.Payload>, urns: set<string>): seq<string> {
    if events == [] then []
    else
      ErrorsOf(events[..|events| - 1], urns)
      + match events[|events| - 1]
        case Diagnostic(severity, urn, message) =>
          if severity == "error" && Trim(message) != "" && urn in urns then [Trim(message)] else []
        case _ => []
  }

  /** The URNs with an error diagnostic. */
  function ErrorUrns(events: seq<Events.Payload>): set<string> {
    if events == [] then {} else ErrorUrns(events[..|events| - 1]) + ErrorUrn(events[|events| - 1])
  }

  function ErrorUrn(p: Events.Payload): set<string> {
    match p
    case Diagnostic(severity, urn, message) => if severity == "error" && Trim(message) != "" then {urn} else {}
    case _ => {}
  }

  /** The URNs a failure was reported for. */
  function FailedIn(events: seq<Events.Payload>): set<string> {
    if events == [] then {}
    else
      FailedIn(events[..|events| - 1])
      + match events[|events| - 1]
        case ResOpFailed(urn, _, _, _) => {urn}
        case _ => {}
  }

  function On(diags: Diags, urn: string): seq<string> {
    if urn in diags then diags[urn] else []
  }

  /** The lock region of `handleEvent`. */
  function Noted(v: Seen, n: Note): Seen {
    match n
    case Summed(changes) => v.(summary := Some(changes))
    case Failed(f) => v.(failures := v.failures + [f])
    case ErrorDiag(urn, text) => v.(urnDiags := v.urnDiags[urn := On(v.urnDiags, urn) + [text]])
    case Skipped => v
  }

  function Observed(notes: seq<Note>): Seen {
    if notes == [] then NOTHING else Noted(Observed(notes[..|notes| - 1]), notes[|notes| - 1])
  }

  /** The error messages of one URN, in order. */
  function Messages(notes: seq<Note>, urn: string): seq<string> {
    MessagesOf(notes, {urn})
  }

  /** The error messages of all URNs of a set, in order. */
  function MessagesOf(notes: seq<Note>, urns: set<string>): seq<string> {
    if notes == [] then []
    else
      var last := notes[|notes| - 1];
      MessagesOf(notes[..|notes| - 1], urns) + if last.ErrorDiag? && last.urn in urns then [last.text] else []
  }

  /** Nothing is lost while recording: every URN's list is its messages, in order. */
  lemma {:induction false} RecordedByUrn(notes: seq<Note>, urn: string)
    ensures On(Observed(notes).urnDiags, urn) == Messages(notes, urn)
    ensures urn in Observed(notes).urnDiags <==> Messages(notes, urn) != []
    ensures Observed(notes).errorDiags == []
  {
    if notes != [] {
      RecordedByUrn(notes[..|notes| - 1], urn);
    }
  }

  // ----- Attaching -----

  function FailedUrns(failures: seq<Failure>): set<string> {
    set f | f in failures :: f.urn
  }

  function WithMessages(f: Failure, diags: Diags): Failure {
    if On(diags, f.urn) == [] then f else f.(message := Join(On(diags, f.urn), "\n"))
  }

  /** The lists of some URNs one after the other. */
  function Gathered(diags: Diags, order: seq<string>): seq<string> {
    if order == [] then [] else Gathered(diags, order[..|order| - 1]) + On(diags, order[|order| - 1])
  }

  ghost predicate Enumerates(order: seq<string>, urns: set<string>) {
    (forall u :: u in order <==> u in urns) && Distinct(order)
  }

  predicate Distinct(order: seq<string>) {
    order == [] || (order[|order| - 1] !in order[..|order| - 1] && Distinct(order[..|order| - 1]))
  }

  /** `order` is the order in which the map was iterated. */
  ghost predicate FilledIn(before: Seen, after: Seen, order: seq<string>) {
    && after.summary == before.summary && after.urnDiags == before.urnDiags
    && |after.failures| == |before.failures|
    && (forall i :: 0 <= i < |before.failures| ==>
          after.failures[i] == WithMessages(before.failures[i], before.urnDiags))
    && Enumerates(order, before.urnDiags.Keys - FailedUrns(before.failures))
    && after.errorDiags == Gathered(before.urnDiags, order)
  }

  ghost predicate Filled(before: Seen, after: Seen) {
    exists order :: FilledIn(before, after, order)
  }

  class Operation {
    var summary: Option<map<string, int>>
    var failures: seq<Failure>
    var urnDiags: Diags
    var errorDiags: seq<string>

    function View(): Seen
      reads this
    {
      Seen(summary, failures, urnDiags, errorDiags)
    }

    constructor ()
      ensures View() == NOTHING
    {
      summary, failures, urnDiags, errorDiags := None, [], map[], [];
    }

    method HandleEvent(p: Events.Payload)
      modifies this
      ensures View() == Noted(old(View()), Read(p))
    {
      match p {
        case Summary(changes) => summary := Some(changes);
        case ResOpFailed(urn, ty, op, provider) => failures := failures + [Failure(urn, ty, op, provider, "")];
        case Diagnostic(severity, urn, message) =>
          if severity == "error" {
            var text := Trim(message);
            if text != "" {
              urnDiags := urnDiags[urn := (if urn in urnDiags then urnDiags[urn] else []) + [text]];
            }
          }
        case _ =>
      }
    }

    method FillFailureMessages()
      modifies this
      ensures Filled(old(View()), View())
    {
      ghost var before := View();
      var failed: set<string> := {};
      for i := 0 to |failures|
        invariant summary == before.summary && urnDiags == before.urnDiags && |failures| == |before.failures|
        invariant failed == set j | 0 <= j < i :: before.failures[j].urn
        invariant forall j :: 0 <= j < i ==> failures[j] == WithMessages(before.failures[j], urnDiags)
        invariant forall j :: i <= j < |failures| ==> failures[j] == before.failures[j]
      {
        var f := failures[i];
        failed := failed + {f.urn};
        var messages := if f.urn in urnDiags then urnDiags[f.urn] else [];
        if |messages| > 0 {
          failures := failures[i := f.(message := Join(messages, "\n"))];
        }
      }
      assert failed == FailedUrns(before.failures);
      errorDiags := [];
      var todo := urnDiags.Keys;
      ghost var order: seq<string> := [];
      while todo != {}
        invariant summary == before.summary && urnDiags == before.urnDiags && |failures| == |before.failures|
        invariant forall j :: 0 <= j < |failures| ==> failures[j] == WithMessages(before.failures[j], urnDiags)
        invariant todo <= urnDiags.Keys
        invariant Enumerates(order, urnDiags.Keys - failed - todo)
        invariant errorDiags == Gathered(urnDiags, order)
        decreases |todo|
      {
        var urn :| urn in todo;
        todo := todo - {urn};
        if urn in failed {
          continue;
        }
        errorDiags := errorDiags + urnDiags[urn];
        assert (order + [urn])[..|order|] == order;
        order := order + [urn];
      }
      assert FilledIn(before, View(), order);
    }
  }

  // ----- Nothing lost, nothing doubled -----

  lemma {:induction false} GatheredIsMessages(notes: seq<Note>, order: seq<string>, urns: set<string>)
    requires Enumerates(order, urns)
    ensures multiset(Gathered(Observed(notes).urnDiags, order)) == multiset(MessagesOf(notes, urns))
  {
    if notes == [] {
      GatheredNothing(order);
    } else {
      var front, last := notes[..|notes| - 1], notes[|notes| - 1];
      GatheredIsMessages(front, order, urns);
      if last.ErrorDiag? {
        var diags, more := Observed(front).urnDiags, Observed(notes).urnDiags;
        assert last.urn in order <==> last.urn in urns;
        if last.urn in urns {
          GatheredAppend(diags, more, order, last.urn, last.text);
          assert MessagesOf(notes, urns) == MessagesOf(front, urns) + [last.text];
        } else {
          GatheredSame(diags, more, order, last.urn);
          assert MessagesOf(notes, urns) == MessagesOf(front, urns);
        }
      } else {
        assert Observed(notes).urnDiags == Observed(front).urnDiags;
        assert MessagesOf(notes, urns) == MessagesOf(front, urns);
      }
    }
  }

  lemma {:induction false} GatheredNothing(order: seq<string>)
    ensures Gathered(map[], order) == []
  {
    if order != [] {
      GatheredNothing(order[..|order| - 1]);
    }
  }

  lemma {:induction false} GatheredSame(diags: Diags, more: Diags, order: seq<string>, urn: string)
    requires more.Keys == diags.Keys + {urn} && forall u :: u in diags && u != urn ==> more[u] == diags[u]
    requires urn !in order
    ensures Gathered(more, order) == Gathered(diags, order)
  {
    if order != [] {
      GatheredSame(diags, more, order[..|order| - 1], urn);
    }
  }

  lemma {:induction false} GatheredAppend(diags: Diags, more: Diags, order: seq<string>, urn: string, m: string)
    requires more.Keys == diags.Keys + {urn} && (forall u :: u in diags && u != urn ==> more[u] == diags[u])
    requires On(more, urn) == On(diags, urn) + [m]
    requires Distinct(order) && urn in order
    ensures multiset(Gathered(more, order)) == multiset(Gathered(diags, order)) + multiset{m}
  {
    var front, u := order[..|order| - 1], order[|order| - 1];
    assert order == front + [u];
    if u == urn {
      GatheredSame(diags, more, front, urn);
      AppendLast(Gathered(diags, front), On(diags, u), m);
    } else {
      GatheredAppend(diags, more, front, urn, m);
      assert On(more, u) == On(diags, u);
      AppendEarlier(Gathered(diags, front), Gathered(more, front), On(diags, u), m);
    }
  }

  lemma AppendLast(a: seq<string>, part: seq<string>, m: string)
    ensures multiset(a + (part + [m])) == multiset(a + part) + multiset{m}
  {
    assert a + (part + [m]) == (a + part) + [m];
  }

  lemma AppendEarlier(a: seq<string>, b: seq<string>, part: seq<string>, m: string)
    requires multiset(b) == multiset(a) + multiset{m}
    ensures multiset(b + part) == multiset(a + part) + multiset{m}
  {
    assert multiset(b + part) == multiset(b) + multiset(part);
    assert multiset(a + part) == multiset(a) + multiset(part);
  }

  /** The list of a URN stands in one piece in what was gathered. */
  ghost predicate StandsIn(part: seq<string>, whole: seq<string>) {
    exists i :: 0 <= i <= |whole| && part <= whole[i..]
  }

  lemma StandsAtEnd(before: seq<string>, part: seq<string>)
    ensures StandsIn(part, before + part)
  {
    SumParts(before, part);
    assert part <= (before + part)[|before|..];
  }

  lemma StandsBefore(part: seq<string>, whole: seq<string>, more: seq<string>)
    requires StandsIn(part, whole)
    ensures StandsIn(part, whole + more)
  {
    var i :| 0 <= i <= |whole| && part <= whole[i..];
    DropOfSum(whole, more, i);
    assert part <= (whole + more)[i..];
  }

  lemma {:induction false} GatheredKeepsOrder(diags: Diags, order: seq<string>, urn: string)
    requires urn in order
    ensures StandsIn(On(diags, urn), Gathered(diags, order))
  {
    var front, u := order[..|order| - 1], order[|order| - 1];
    if u == urn {
      StandsAtEnd(Gathered(diags, front), On(diags, u));
    } else {
      assert order == front + [u];
      GatheredKeepsOrder(diags, front, urn);
      StandsBefore(On(diags, urn), Gathered(diags, front), On(diags, u));
    }
  }

  lemma NotesAreKept(notes: seq<Note>, after: Seen)
    requires Filled(Observed(notes), after)
    ensures var failed := FailedUrns(Observed(notes).failures);
            && multiset(after.errorDiags) == multiset(MessagesOf(notes, Observed(notes).urnDiags.Keys - failed))
            && (forall urn :: urn !in failed ==> StandsIn(Messages(notes, urn), after.errorDiags))
            && (forall i :: 0 <= i < |after.failures| ==>
                  var messages := Messages(notes, after.failures[i].urn);
                  messages != [] ==> after.failures[i].message == Join(messages, "\n"))
  {
    var before := Observed(notes);
    var failed := FailedUrns(before.failures);
    var order :| FilledIn(before, after, order);
    GatheredIsMessages(notes, order, before.urnDiags.Keys - failed);
    forall urn | urn !in failed
      ensures StandsIn(Messages(notes, urn), after.errorDiags)
    {
      RecordedByUrn(notes, urn);
      if urn in before.urnDiags {
        GatheredKeepsOrder(before.urnDiags, order, urn);
      } else {
        assert [] <= after.errorDiags[0..];
      }
    }
    forall i | 0 <= i < |after.failures| && Messages(notes, after.failures[i].urn) != []
      ensures after.failures[i].message == Join(Messages(notes, after.failures[i].urn), "\n")
    {
      assert after.failures[i] == WithMessages(before.failures[i], before.urnDiags);
      RecordedByUrn(notes, before.failures[i].urn);
    }
  }

  /** The messages one event adds. */
  function Added(n: Note, urns: set<string>): seq<string> {
    if n.ErrorDiag? && n.urn in urns then [n.text] else []
  }

  lemma MessagesSnoc(notes: seq<Note>, n: Note, urns: set<string>)
    ensures MessagesOf(notes + [n], urns) == MessagesOf(notes, urns) + Added(n, urns)
  {
    assert (notes + [n])[..|notes|] == notes;
  }

  lemma {:induction false} ErrorsAreMessages(events: seq<Events.Payload>, urns: set<string>)
    ensures MessagesOf(ReadAll(events), urns) == ErrorsOf(events, urns)
  {
    if events != [] {
      var n := |events| - 1;
      ErrorsAreMessages(events[..n], urns);
      MessagesSnoc(ReadAll(events[..n]), Read(events[n]), urns);
    }
  }

  lemma FailedSnoc(failures: seq<Failure>, f: Failure)
    ensures FailedUrns(failures + [f]) == FailedUrns(failures) + {f.urn}
  {
    forall u | u in FailedUrns(failures) + {f.urn}
      ensures u in FailedUrns(failures + [f])
    {
      if u == f.urn {
        assert f in failures + [f];
      } else {
        var g :| g in failures && g.urn == u;
        assert g in failures + [f];
      }
    }
  }

  lemma ObservedSnoc(notes: seq<Note>, n: Note)
    ensures Observed(notes + [n]) == Noted(Observed(notes), n)
  {
    assert (notes + [n])[..|notes|] == notes;
  }

  lemma {:induction false} FailuresAreFailed(events: seq<Events.Payload>)
    ensures FailedUrns(Observed(ReadAll(events)).failures) == FailedIn(events)
  {
    if events != [] {
      var n := |events| - 1;
      FailuresAreFailed(events[..n]);
      ObservedSnoc(ReadAll(events[..n]), Read(events[n]));
      match events[n] {
        case ResOpFailed(urn, ty, op, provider) =>
          FailedSnoc(Observed(ReadAll(events[..n])).failures, Failure(urn, ty, op, provider, ""));
        case _ =>
      }
    }
  }

  lemma NotedUrns(v: Seen, p: Events.Payload)
    ensures Noted(v, Read(p)).urnDiags.Keys == v.urnDiags.Keys + ErrorUrn(p)
  {
    match p
    case Diagnostic(severity, urn, message) =>
    case _ =>
  }

  lemma {:induction false} RecordedUrns(events: seq<Events.Payload>)
    ensures Observed(ReadAll(events)).urnDiags.Keys == ErrorUrns(events)
  {
    if events != [] {
      var n := |events| - 1;
      RecordedUrns(events[..n]);
      ObservedSnoc(ReadAll(events[..n]), Read(events[n]));
      NotedUrns(Observed(ReadAll(events[..n])), events[n]);
    }
  }

  /**
   After any events and the filling, whatever order the map was iterated in: the program-level errors
   are exactly the error diagnostics of the URNs without a failure, each once, those of one URN together
   and in order; and every failure carries all the diagnostics of its URN.
   */
  lemma NoDiagnosticLostOrDoubled(events: seq<Events.Payload>, after: Seen)
    requires Filled(Observed(ReadAll(events)), after)
    ensures multiset(after.errorDiags) == multiset(ErrorsOf(events, ErrorUrns(events) - FailedIn(events)))
    ensures forall urn :: urn !in FailedIn(events) ==> StandsIn(ErrorsOf(events, {urn}), after.errorDiags)
    ensures forall i :: 0 <= i < |after.failures| ==>
                          var errors := ErrorsOf(events, {after.failures[i].urn});
                          errors != [] ==> after.failures[i].message == Join(errors, "\n")
  {
    var notes := ReadAll(events);
    NotesAreKept(notes, after);
    FailuresAreFailed(events);
    RecordedUrns(events);
    ErrorsAreMessages(events, ErrorUrns(events) - FailedIn(events));
    forall urn
      ensures Messages(notes, urn) == ErrorsOf(events, {urn})
    {
      ErrorsAreMessages(events, {urn});
    }
  }

  // ----- What is reported of failures and the summary -----

  /** The resource failures among some events, in order. */
  function FailureEvents(events: seq<Events.Payload>): (failed: seq<Events.Payload>)
    ensures forall i :: 0 <= i < |failed| ==> failed[i].ResOpFailed?
  {
    if events == [] then []
    else
      var n := |events| - 1;
      FailureEvents(events[..n]) + if events[n].ResOpFailed? then [events[n]] else []
  }

  /** The last summary, if there was one. */
  function LastSummary(events: seq<Events.Payload>): Option<map<string, int>> {
    if events == [] then None
    else
      var n := |events| - 1;
      if events[n].Summary? then Some(events[n].changes) else LastSummary(events[..n])
  }

  lemma {:induction false} NoFailureNoUrn(events: seq<Events.Payload>)
    requires FailureEvents(events) == []
    ensures FailedIn(events) == {}
  {
    if events != [] {
      var n := |events| - 1;
      assert FailureEvents(events[..n]) == [];
      NoFailureNoUrn(events[..n]);
    }
  }

  /** A recorded failure is that of the event, field by field. */
  ghost predicate IsFailureOf(f: Failure, e: Events.Payload) {
    e.ResOpFailed? && f.urn == e.urn && f.ty == e.ty && f.op == e.op && f.provider == e.provider
  }

  ghost predicate AreFailuresOf(fs: seq<Failure>, es: seq<Events.Payload>) {
    |fs| == |es| && forall i :: 0 <= i < |fs| ==> IsFailureOf(fs[i], es[i])
  }

  lemma {:induction false} ObservedFailures(events: seq<Events.Payload>)
    ensures var seen := Observed(ReadAll(events));
            && AreFailuresOf(seen.failures, FailureEvents(events))
            && (forall i :: 0 <= i < |seen.failures| ==> seen.failures[i].message == "")
            && seen.summary == LastSummary(events)
  {
    if events != [] {
      var n := |events| - 1;
      ObservedFailures(events[..n]);
      ObservedSnoc(ReadAll(events[..n]), Read(events[n]));
    }
  }

  /**
   After any events and the filling: the failures are those of the events, in order, each with its URN,
   type, operation and provider, and with the diagnostics of its URN or without a message; the summary
   is the last one.
   */
  lemma FailuresAreReported(events: seq<Events.Payload>, after: Seen)
    requires Filled(Observed(ReadAll(events)), after)
    ensures AreFailuresOf(after.failures, FailureEvents(events)) && after.summary == LastSummary(events)
    ensures forall i :: 0 <= i < |after.failures| ==>
                          after.failures[i].message == Join(ErrorsOf(events, {after.failures[i].urn}), "\n")
  {
    ObservedFailures(events);
    NoDiagnosticLostOrDoubled(events, after);
    var before := Observed(ReadAll(events));
    var order :| FilledIn(before, after, order);
    forall i | 0 <= i < |after.failures|
      ensures IsFailureOf(after.failures[i], FailureEvents(events)[i])
      ensures after.failures[i].message == Join(ErrorsOf(events, {after.failures[i].urn}), "\n")
    {
      assert after.failures[i] == WithMessages(before.failures[i], before.urnDiags);
      RecordedByUrn(ReadAll(events), before.failures[i].urn);
      ErrorsAreMessages(events, {before.failures[i].urn});
    }
  }

  /** The forwarding loop: handling events one after the other records exactly what they say. */
  method HandleEvents(o: Operation, events: seq<Events.Payload>)
    requires o.View() == NOTHING
    modifies o
    ensures o.View() == Observed(ReadAll(events))
  {
    for i := 0 to |events|
      invariant o.View() == Observed(ReadAll(events[..i]))
    {
      o.HandleEvent(events[i]);
      assert events[..i + 1][..i] == events[..i];
      ObservedSnoc(ReadAll(events[..i]), Read(events[i]));
    }
    assert events[..|events|] == events;
  }

  /** Filling again changes no failure, and the program-level errors at most in the order of their URNs. */
  lemma RefillChangesNothing(before: Seen, once: Seen, twice: Seen)
    requires Filled(before, once) && Filled(once, twice)
    ensures twice.failures == once.failures
    ensures Filled(before, twice)
  {
    var o1 :| FilledIn(before, once, o1);
    var o2 :| FilledIn(once, twice, o2);
    forall i | 0 <= i < |once.failures|
      ensures twice.failures[i] == once.failures[i] && once.failures[i].urn == before.failures[i].urn
    {
      assert once.failures[i] == WithMessages(before.failures[i], before.urnDiags);
    }
    assert FailedUrns(once.failures) == FailedUrns(before.failures) by {
      forall u
        ensures u in FailedUrns(once.failures) <==> u in FailedUrns(before.failures)
      {
        if u in FailedUrns(before.failures) {
          var i :| 0 <= i < |before.failures| && before.failures[i].urn == u;
          assert once.failures[i] in once.failures;
        }
        if u in FailedUrns(once.failures) {
          var i :| 0 <= i < |once.failures| && once.failures[i].urn == u;
          assert before.failures[i] in before.failures;
        }
      }
    }
    assert FilledIn(before, twice, o2);
  }
}
