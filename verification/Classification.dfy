/**
 From what an operation saw and the raw error of its run to the typed error `Wait` returns.
 */
module Classification {
  import opened Wrappers
  import opened Seqs
  import opened Strings
  import opened Errors
  import opened Events
  import D = Diagnostics

  // ----- Plan violations -----

  predicate IsPlanViolation(message: string) {
    || Contains(message, "violates plan")
    || Contains(message, "is not allowed by the plan")
    || Contains(message, "expected resource operations for")
  }

  /** The violations among the messages of one URN. */
  function ViolationsOf(urn: string, messages: seq<string>): seq<Violation> {
    if messages == [] then []
    else
      var n := |messages| - 1;
      ViolationsOf(urn, messages[..n])
      + if IsPlanViolation(messages[n]) then [Violation(urn, Trim(messages[n]))] else []
  }

  function AllViolations(diags: D.Diags, order: seq<string>): seq<Violation> {
    if order == [] then []
    else
      var n := |order| - 1;
      AllViolations(diags, order[..n]) + ViolationsOf(order[n], D.On(diags, order[n]))
  }

  ghost predicate SortedByUrn(vs: seq<Violation>) {
    forall i, j :: 0 <= i < j < |vs| ==> !Less(vs[j].urn, vs[i].urn)
  }

  function InsertByUrn(vs: seq<Violation>, v: Violation): seq<Violation> {
    if vs == [] || Less(v.urn, vs[0].urn) then [v] + vs else [vs[0]] + InsertByUrn(vs[1..], v)
  }

  function SortByUrn(vs: seq<Violation>): seq<Violation> {
    if vs == [] then [] else InsertByUrn(SortByUrn(vs[..|vs| - 1]), vs[|vs| - 1])
  }

  lemma {:induction false} InsertIsPermutation(vs: seq<Violation>, v: Violation)
    ensures multiset(InsertByUrn(vs, v)) == multiset(vs) + multiset{v}
  {
    if vs != [] && !Less(v.urn, vs[0].urn) {
      InsertIsPermutation(vs[1..], v);
      assert vs == [vs[0]] + vs[1..];
    }
  }

  lemma NotLessIsTransitive(a: string, b: string, c: string)
    requires !Less(b, a) && !Less(c, b)
    ensures !Less(c, a)
  {
    LessIsTotal(a, b);
    LessIsTotal(b, c);
    if Less(c, a) {
      if a == b || b == c {
      } else {
        LessIsTransitive(a, b, c);
        LessIsTotal(a, c);
      }
    }
  }

  lemma {:induction false} InsertSorts(vs: seq<Violation>, v: Violation)
    requires SortedByUrn(vs)
    ensures SortedByUrn(InsertByUrn(vs, v))
  {
    if vs == [] {
    } else if Less(v.urn, vs[0].urn) {
      LessIsTotal(v.urn, vs[0].urn);
      forall j | 0 <= j < |vs|
        ensures !Less(vs[j].urn, v.urn)
      {
        if j > 0 {
          NotLessIsTransitive(v.urn, vs[0].urn, vs[j].urn);
        }
      }
    } else {
      var tail := InsertByUrn(vs[1..], v);
      InsertSorts(vs[1..], v);
      InsertIsPermutation(vs[1..], v);
      forall j | 0 <= j < |tail|
        ensures !Less(tail[j].urn, vs[0].urn)
      {
        assert tail[j] in multiset(tail);
        if tail[j] != v {
          assert tail[j] in vs[1..];
        }
      }
    }
  }

  lemma {:induction false} SortSorts(vs: seq<Violation>)
    ensures SortedByUrn(SortByUrn(vs))
    ensures multiset(SortByUrn(vs)) == multiset(vs)
  {
    if vs != [] {
      var front, v := vs[..|vs| - 1], vs[|vs| - 1];
      SortSorts(front);
      InsertSorts(SortByUrn(front), v);
      InsertIsPermutation(SortByUrn(front), v);
      assert vs == front + [v];
    }
  }

  /** Every violation of every URN once, in URN order; within one URN no order is promised. */
  ghost predicate Collected(diags: D.Diags, vs: seq<Violation>) {
    && SortedByUrn(vs)
    && exists order :: D.Enumerates(order, diags.Keys) && multiset(vs) == multiset(AllViolations(diags, order))
  }

  /** A message of a URN that names a plan constraint, trimmed. */
  ghost predicate IsViolationOf(messages: seq<string>, text: string) {
    exists i :: 0 <= i < |messages| && IsPlanViolation(messages[i]) && text == Trim(messages[i])
  }

  lemma ViolationSnoc(messages: seq<string>, m: string, text: string)
    ensures IsViolationOf(messages + [m], text) <==>
            IsViolationOf(messages, text) || (IsPlanViolation(m) && text == Trim(m))
  {
    var all := messages + [m];
    assert all[|messages|] == m;
    assert forall i :: 0 <= i < |messages| ==> all[i] == messages[i];
  }

  lemma {:induction false} ViolationsMean(urn: string, messages: seq<string>, v: Violation)
    ensures v in ViolationsOf(urn, messages) <==> v.urn == urn && IsViolationOf(messages, v.message)
  {
    if messages != [] {
      var n := |messages| - 1;
      ViolationsMean(urn, messages[..n], v);
      assert messages == messages[..n] + [messages[n]];
      ViolationSnoc(messages[..n], messages[n], v.message);
    }
  }

  lemma {:induction false} AllViolationsMean(diags: D.Diags, order: seq<string>, v: Violation)
    ensures v in AllViolations(diags, order) <==> v.urn in order && IsViolationOf(D.On(diags, v.urn), v.message)
  {
    if order != [] {
      var n := |order| - 1;
      AllViolationsMean(diags, order[..n], v);
      ViolationsMean(order[n], D.On(diags, order[n]), v);
      assert v.urn in order <==> v.urn in order[..n] || v.urn == order[n];
    }
  }

  /** Reported violations are exactly the messages that name a plan constraint, trimmed, with their URNs. */
  lemma CollectedMeans(diags: D.Diags, vs: seq<Violation>, v: Violation)
    requires Collected(diags, vs)
    ensures v in vs <==> v.urn in diags && IsViolationOf(diags[v.urn], v.message)
  {
    var order :| D.Enumerates(order, diags.Keys) && multiset(vs) == multiset(AllViolations(diags, order));
    AllViolationsMean(diags, order, v);
    assert v in vs <==> v in multiset(vs);
    assert v in AllViolations(diags, order) <==> v in multiset(AllViolations(diags, order));
  }

  lemma AllViolationsStep(diags: D.Diags, order: seq<string>, urn: string)
    requires urn in diags
    ensures AllViolations(diags, order + [urn]) == AllViolations(diags, order) + ViolationsOf(urn, diags[urn])
  {
    assert (order + [urn])[..|order|] == order;
  }

  /** Another key of the map is visited. */
  lemma EnumeratesStep(order: seq<string>, all: set<string>, todo: set<string>, urn: string)
    requires D.Enumerates(order, all - todo) && urn in todo && todo <= all
    ensures D.Enumerates(order + [urn], all - (todo - {urn}))
  {
    assert (order + [urn])[..|order|] == order;
    assert forall u :: u in order + [urn] <==> u in order || u == urn;
  }

  /** The outer loop, over the map in any order. */
  method GatherViolations(diags: D.Diags) returns (vs: seq<Violation>, ghost order: seq<string>)
    ensures D.Enumerates(order, diags.Keys) && vs == AllViolations(diags, order)
  {
    vs := [];
    order := [];
    var todo := diags.Keys;
    while todo != {}
      invariant todo <= diags.Keys
      invariant D.Enumerates(order, diags.Keys - todo)
      invariant vs == AllViolations(diags, order)
      decreases |todo|
    {
      var urn :| urn in todo;
      var found := Violating(urn, diags[urn]);
      AllViolationsStep(diags, order, urn);
      EnumeratesStep(order, diags.Keys, todo, urn);
      vs := vs + found;
      order := order + [urn];
      todo := todo - {urn};
    }
    assert diags.Keys - {} == diags.Keys;
  }

  method PlanViolations(diags: D.Diags) returns (vs: seq<Violation>)
    ensures Collected(diags, vs)
  {
    ghost var order;
    vs, order := GatherViolations(diags);
    SortSorts(vs);
    vs := SortByUrn(vs);
  }

  /** The inner loop, over the messages of one URN. */
  method Violating(urn: string, messages: seq<string>) returns (vs: seq<Violation>)
    ensures vs == ViolationsOf(urn, messages)
  {
    vs := [];
    for i := 0 to |messages|
      invariant vs == ViolationsOf(urn, messages[..i])
    {
      ViolationsStep(urn, messages, i);
      if IsPlanViolation(messages[i]) {
        vs := vs + [Violation(urn, Trim(messages[i]))];
      }
    }
    assert messages[..|messages|] == messages;
  }

  lemma ViolationsStep(urn: string, messages: seq<string>, i: nat)
    requires i < |messages|
    ensures ViolationsOf(urn, messages[..i + 1]) ==
            if IsPlanViolation(messages[i]) then ViolationsOf(urn, messages[..i]) + [Violation(urn, Trim(messages[i]))]
            else ViolationsOf(urn, messages[..i])
  {
    assert messages[..i + 1][..i] == messages[..i];
  }

  // ----- Classification -----

  predicate HasMark(e: Error, mark: Mark) {
    exists i :: 0 <= i < |Chain(e)| && Chain(e)[i].Foreign? && Chain(e)[i].mark == mark
  }

  predicate IsLockText(text: string) {
    || Contains(text, "the stack is currently locked")
    || Contains(text, "conflict: Another update is currently in progress")
  }

  /** What classification reads of the operation. */
  datatype Context = Context(kind: string, cancelRequested: bool, planned: bool, pendingUrns: seq<string>)

  /** The tests on the raw error, in the order they are made. */
  datatype Tests = Tests(canceled: bool, conflict: bool, backendCancel: bool, pending: bool)

  function TestsOf(c: Context, err: Error): Tests {
    Tests(
      c.cancelRequested || HasMark(err, ContextCanceled),
      HasMark(err, ConflictingUpdate) || IsLockText(Text(err)),
      HasMark(err, BackendCancelled),
      Contains(Text(err), "pending operations"))
  }

  function Classified(c: Context, t: Tests, seen: D.Seen, violations: seq<Violation>, err: Error): Error {
    if t.canceled then Cancelled(c.kind)
    else if t.conflict then ConcurrentUpdate(Some(err))
    else if t.backendCancel then Cancelled(c.kind)
    else if t.pending then PendingOperations(c.pendingUrns, Some(err))
    else if c.planned && violations != [] then PlanViolation(violations)
    else if seen.failures != [] then
      var f := seen.failures[0];
      ResourceOpFailed(f.urn, f.ty, f.op, f.provider, f.message)
    else if seen.errorDiags != [] then ProgramFailed(Join(seen.errorDiags, "\n"))
    else Unclassified(err)
  }

  /** A cancel was requested, or the context was cancelled, or the backend reports one without a conflict. */
  predicate ReportsCancel(t: Tests) {
    t.canceled || (t.backendCancel && !t.conflict)
  }

  /** None of the tests applies and nothing was observed: classification can only wrap the raw error. */
  predicate NothingKnown(c: Context, t: Tests, seen: D.Seen, violations: seq<Violation>) {
    && !t.canceled && !t.conflict && !t.backendCancel && !t.pending
    && !(c.planned && violations != []) && seen.failures == [] && seen.errorDiags == []
  }

  /** What `finish` publishes: the typed error, and whether the result says cancelled. */
  method Finish(o: D.Operation, c: Context, raw: Option<Error>) returns (err: Option<Error>, cancelled: bool)
    modifies o
    ensures D.Filled(old(o.View()), o.View())
    ensures err.None? <==> raw.None?
    ensures raw.Some? ==> exists violations ::
                            && (c.planned ==> Collected(o.urnDiags, violations))
                            && err.value == Classified(c, TestsOf(c, raw.value), o.View(), violations, raw.value)
    ensures cancelled <==> err.Some? && err.value.Cancelled?
    ensures cancelled <==> raw.Some? && ReportsCancel(TestsOf(c, raw.value))
  {
    o.FillFailureMessages();
    if raw.None? {
      return None, false;
    }
    var violations: seq<Violation> := [];
    if c.planned {
      violations := PlanViolations(o.urnDiags);
    }
    err := Some(Classified(c, TestsOf(c, raw.value), o.View(), violations, raw.value));
    cancelled := err.value.Cancelled?;
  }

  /** The kind callers switch on is that of the classified error itself when the raw error is untyped. */
  lemma KindOfClassified(c: Context, t: Tests, seen: D.Seen, violations: seq<Violation>, err: Error)
    requires KindOf(err) == KUnclassified
    ensures KindOf(Classified(c, t, seen, violations, err)) == Own(Classified(c, t, seen, violations, err))
  {
    var e := Classified(c, t, seen, violations, err);
    forall k | k != KUnclassified
      ensures k != Own(e) ==> As(e, k) == None
    {
      UntypedHasNone(err, k);
    }
    assert Own(e) != KUnclassified ==> As(e, Own(e)) == Some(e);
  }

  lemma UntypedHasNone(err: Error, k: Kind)
    requires KindOf(err) == KUnclassified && k != KUnclassified
    ensures As(err, k) == None
  {
  }

  /** A typed error that `execute` returned itself keeps its kind when nothing observed overrides it. */
  lemma TypedErrorsKeepTheirKind(c: Context, t: Tests, seen: D.Seen, violations: seq<Violation>, err: Error)
    requires Classified(c, t, seen, violations, err).Unclassified?
    ensures KindOf(Classified(c, t, seen, violations, err)) == KindOf(err)
  {
    UnclassifiedIsTransparent(err);
  }

  /**
   The cancelled flag and the kind of the published error agree, except exactly when nothing was known
   about the failure and the raw error itself carries a `Cancelled` as its first-ranked type.
   */
  lemma FlagAgreesWithKind(c: Context, t: Tests, seen: D.Seen, violations: seq<Violation>, err: Error)
    ensures (ReportsCancel(t) <==> KindOf(Classified(c, t, seen, violations, err)) == KCancelled)
            <==> !(NothingKnown(c, t, seen, violations) && KindOf(err) == KCancelled)
  {
    var e := Classified(c, t, seen, violations, err);
    if e.Unclassified? {
      UnclassifiedIsTransparent(err);
    } else {
      assert As(e, Own(e)) == Some(e);
    }
  }

  lemma CarriedKind(operation: string)
    ensures KindOf(Unclassified(Cancelled(operation))) == KCancelled
  {
    var inner := Cancelled(operation);
    assert forall k :: As(inner, k) == if k == KCancelled then Some(inner) else None;
    UnclassifiedIsTransparent(inner);
  }

  lemma CarriedTests(c: Context, operation: string)
    requires !c.cancelRequested && operation == "up"
    ensures TestsOf(c, Unclassified(Cancelled(operation))) == Tests(false, false, false, false)
  {
    var inner := Cancelled(operation);
    var err := Unclassified(inner);
    assert Chain(inner) == [inner] && Chain(err) == [err, inner];
    assert |Text(err)| == 12;
    ShortTextContainsNothing(Text(err));
  }

  /** The exception is not empty, though no path of `execute` is known that returns such an error. */
  lemma CarriedCancelIsNotFlagged(kind: string, err: Error)
    requires err == Unclassified(Cancelled("up"))
    ensures var c := Context(kind, false, false, []);
            && !ReportsCancel(TestsOf(c, err))
            && KindOf(Classified(c, TestsOf(c, err), D.NOTHING, [], err)) == KCancelled
  {
    var c := Context(kind, false, false, []);
    CarriedTests(c, "up");
    CarriedKind("up");
    FlagAgreesWithKind(c, Tests(false, false, false, false), D.NOTHING, [], err);
  }

  lemma ShortTextContainsNothing(text: string)
    requires |text| < 18
    ensures !IsLockText(text) && !Contains(text, "pending operations")
  {
    assert |"the stack is currently locked"| >= 18 && |"conflict: Another update is currently in progress"| >= 18;
  }

  // ----- The reported error, from the events -----

  /** The raw error is what the reported one wraps. */
  ghost predicate Wraps(e: Error, raw: Error) {
    Chain(e) == [e] + Chain(raw)
  }

  /** No test applies and no violation of a plan was seen. */
  predicate Unexplained(c: Context, t: Tests, violations: seq<Violation>) {
    !t.canceled && !t.conflict && !t.backendCancel && !t.pending && !(c.planned && violations != [])
  }

  /** A conflict, pending operations and an error nothing explains are reported with the raw error inside. */
  lemma RawErrorIsWrapped(c: Context, t: Tests, seen: D.Seen, violations: seq<Violation>, err: Error)
    ensures var e := Classified(c, t, seen, violations, err);
            && (!t.canceled && t.conflict ==> e.ConcurrentUpdate? && Wraps(e, err))
            && (t == Tests(false, false, false, true) ==>
                  e.PendingOperations? && e.urns == c.pendingUrns && Wraps(e, err))
            && (t == Tests(false, false, false, false) && c.planned && violations != [] ==>
                  e == PlanViolation(violations))
            && (NothingKnown(c, t, seen, violations) <==> e.Unclassified?)
            && (e.Unclassified? ==> Wraps(e, err))
  {
  }

  /**
   When no test applies and no plan was violated: the first resource failure among the events is
   reported, with its own fields and all the error diagnostics of its URN.
   */
  lemma FirstFailureIsReported(
    c: Context, t: Tests, events: seq<Payload>, after: D.Seen, violations: seq<Violation>, err: Error)
    requires D.Filled(D.Observed(D.ReadAll(events)), after)
    requires Unexplained(c, t, violations) && D.FailureEvents(events) != []
    ensures var e, first := Classified(c, t, after, violations, err), D.FailureEvents(events)[0];
            && e.ResourceOpFailed?
            && e.urn == first.urn && e.ty == first.ty && e.op == first.op && e.provider == first.provider
            && e.message == Join(D.ErrorsOf(events, {first.urn}), "\n")
  {
    D.FailuresAreReported(events, after);
    assert D.IsFailureOf(after.failures[0], D.FailureEvents(events)[0]);
  }

  /** And without a failure all the error diagnostics are, joined; without these the raw error. */
  lemma ProgramErrorsAreReported(
    c: Context, t: Tests, events: seq<Payload>, after: D.Seen, violations: seq<Violation>, err: Error)
    requires D.Filled(D.Observed(D.ReadAll(events)), after)
    requires Unexplained(c, t, violations) && D.FailureEvents(events) == []
    ensures multiset(after.errorDiags) == multiset(D.ErrorsOf(events, D.ErrorUrns(events)))
    ensures Classified(c, t, after, violations, err) ==
            if after.errorDiags == [] then Unclassified(err) else ProgramFailed(Join(after.errorDiags, "\n"))
  {
    D.FailuresAreReported(events, after);
    D.NoDiagnosticLostOrDoubled(events, after);
    D.NoFailureNoUrn(events);
    assert D.ErrorUrns(events) - {} == D.ErrorUrns(events);
  }

  lemma MarksStay(e: Error, err: Error)
    requires Wraps(e, err) && !e.Foreign?
    ensures forall mark :: HasMark(e, mark) <==> HasMark(err, mark)
  {
    forall mark
      ensures HasMark(e, mark) <==> HasMark(err, mark)
    {
      if HasMark(err, mark) {
        var i :| 0 <= i < |Chain(err)| && Chain(err)[i].Foreign? && Chain(err)[i].mark == mark;
        assert Chain(e)[i + 1] == Chain(err)[i];
      }
    }
  }

  lemma TextsStay(text: string, inner: string, n: nat)
    requires n <= |text| && text[n..] == inner
    ensures IsLockText(inner) ==> IsLockText(text)
    ensures Contains(inner, "pending operations") ==> Contains(text, "pending operations")
  {
    EndContains(text, n);
  }

  lemma TextEnds(err: Error, wrapped: Error) returns (n: nat)
    requires wrapped == ConcurrentUpdate(Some(err)) || wrapped == Unclassified(err)
    ensures n <= |Text(wrapped)| && Text(wrapped)[n..] == Text(err)
  {
    n := |Text(wrapped)| - |Text(err)|;
    if wrapped.ConcurrentUpdate? {
      var a, b := "another update is in progress on this stack", ": " + Text(err);
      assert Text(wrapped) == a + b;
      assert (a + b)[|a|..] == b && b[2..] == Text(err);
      assert Text(wrapped)[|a| + 2..] == (a + b)[|a|..][2..];
      n := |a| + 2;
    }
  }

  /** The raw error, or one it wraps, says that another update is in progress. */
  ghost predicate SaysConflict(err: Error) {
    HasMark(err, ConflictingUpdate) || IsLockText(Text(err))
  }

  /**
   What the raw error carries decides: a requested or cancelled context always reports a cancel, a
   conflict otherwise a concurrent update, and the backend's own cancel counts only after these.
   */
  lemma CarriedErrorsDecide(c: Context, seen: D.Seen, violations: seq<Violation>, err: Error)
    ensures var e := Classified(c, TestsOf(c, err), seen, violations, err);
            && (e.Cancelled? <==> || c.cancelRequested || HasMark(err, ContextCanceled)
                                  || (HasMark(err, BackendCancelled) && !SaysConflict(err)))
            && (e.ConcurrentUpdate? <==>
                  !c.cancelRequested && !HasMark(err, ContextCanceled) && SaysConflict(err))
            && (e.Cancelled? ==> e.operation == c.kind)
            && (e.PendingOperations? ==> Contains(Text(err), "pending operations"))
  {
  }

  /** Wrapping an error hides nothing of what the tests look for. */
  lemma WrappingKeepsTests(c: Context, err: Error, wrapped: Error)
    requires wrapped == ConcurrentUpdate(Some(err)) || wrapped == Unclassified(err)
    ensures var t, u := TestsOf(c, err), TestsOf(c, wrapped);
            && u.canceled == t.canceled && u.backendCancel == t.backendCancel
            && (t.conflict ==> u.conflict) && (t.pending ==> u.pending)
  {
    assert Wraps(wrapped, err);
    MarksStay(wrapped, err);
    var n := TextEnds(err, wrapped);
    TextsStay(Text(wrapped), Text(err), n);
  }

  /** What the end of a text contains, the text contains. */
  lemma EndContains(text: string, n: nat)
    requires n <= |text|
    ensures forall sub :: Contains(text[n..], sub) ==> Contains(text, sub)
  {
    forall sub | Contains(text[n..], sub)
      ensures Contains(text, sub)
    {
      var i :| 0 <= i <= |text[n..]| && sub <= text[n..][i..];
      assert text[n..][i..] == text[n + i..];
    }
  }

  /** The text stands somewhere in the other. */
  ghost predicate Holds(text: string, sub: string) {
    exists a, b :: text == a + sub + b
  }

  lemma Inside(a: string, sub: string, b: string)
    ensures Contains(a + sub + b, sub)
  {
    assert (a + sub + b)[|a|..] == sub + b;
  }

  lemma ContainsIff(text: string, sub: string)
    ensures Contains(text, sub) <==> Holds(text, sub)
  {
    if Contains(text, sub) {
      var i :| 0 <= i <= |text| && sub <= text[i..];
      Cut(text, i);
      Cut(text[i..], |sub|);
      Regroup(text[..i], sub, text[i..][|sub|..]);
      assert text == text[..i] + sub + text[i..][|sub|..];
    }
    if a, b :| text == a + sub + b {
      Inside(a, sub, b);
    }
  }

  /** What an error or a message has to say to count, wherever it says it. */
  lemma TextsThatCount(c: Context, text: string, err: Error)
    ensures IsLockText(text) <==>
            || Holds(text, "the stack is currently locked")
            || Holds(text, "conflict: Another update is currently in progress")
    ensures IsPlanViolation(text) <==>
            || Holds(text, "violates plan")
            || Holds(text, "is not allowed by the plan")
            || Holds(text, "expected resource operations for")
    ensures TestsOf(c, err).pending <==> Holds(Text(err), "pending operations")
  {
    ContainsIff(text, "the stack is currently locked");
    ContainsIff(text, "conflict: Another update is currently in progress");
    ContainsIff(text, "violates plan");
    ContainsIff(text, "is not allowed by the plan");
    ContainsIff(text, "expected resource operations for");
    ContainsIff(Text(err), "pending operations");
  }

  lemma Shown(a: string, sub: string, b: string)
    ensures Holds(a + sub + b, sub) && a + sub + "" == a + sub
  {
  }

  lemma InvalidShows(e: Error)
    requires e.InvalidSpec?
    ensures Holds(Text(e), e.field) && Holds(Text(e), e.message)
  {
    var head := "invalid spec: ";
    Regroup(head + e.field, ": ", e.message);
    Shown(head, e.field, ": " + e.message);
    Shown(head + e.field + ": ", e.message, "");
  }

  lemma StackShows(e: Error)
    requires e.StackNotFound? || e.StackExists?
    ensures e.StackNotFound? ==> Holds(Text(e), e.name + "\" not found")
    ensures e.StackExists? ==> Holds(Text(e), e.name + "\" already exists")
  {
    var head, tail := "stack \"", if e.StackNotFound? then "\" not found" else "\" already exists";
    Regroup(head, e.name, tail);
    Shown(head, e.name + tail, "");
  }

  lemma PendingShows(e: Error)
    requires e.PendingOperations? && e.cause.Some?
    ensures Holds(Text(e), Decimal(|e.urns|)) && Holds(Text(e), Text(e.cause.value))
  {
    var head, count, middle := "stack has ", Decimal(|e.urns|), " pending operation(s): ";
    Regroup(head + count, middle, Text(e.cause.value));
    Shown(head, count, middle + Text(e.cause.value));
    Shown(head + count + middle, Text(e.cause.value), "");
  }

  lemma ConflictShows(e: Error)
    requires e.ConcurrentUpdate? && e.cause.Some?
    ensures Holds(Text(e), Text(e.cause.value))
  {
    var n := TextEnds(e.cause.value, e);
    Shown(Text(e)[..n], Text(e.cause.value), "");
  }

  /** What an error is about stands in its text. */
  lemma TextsShow(e: Error)
    ensures match e
            case InvalidSpec(field, message) => Holds(Text(e), field) && Holds(Text(e), message)
            case ConcurrentUpdate(Some(cause)) => Holds(Text(e), Text(cause))
            case StackNotFound(name) => Holds(Text(e), name + "\" not found")
            case StackExists(name) => Holds(Text(e), name + "\" already exists")
            case PendingOperations(urns, Some(cause)) =>
              Holds(Text(e), Decimal(|urns|)) && Holds(Text(e), Text(cause))
            case Cancelled(operation) => Text(e) == operation + " cancelled"
            case Unclassified(inner) => Text(e) == Text(inner)
            case _ => true
  {
    match e
    case InvalidSpec(_, _) => InvalidShows(e);
    case ConcurrentUpdate(Some(_)) => ConflictShows(e);
    case StackNotFound(_) => StackShows(e);
    case StackExists(_) => StackShows(e);
    case PendingOperations(_, Some(_)) => PendingShows(e);
    case _ =>
  }

  /** A backend's error whose text says so is reported as pending operations, with their URNs. */
  lemma PendingTextIsPending(c: Context, a: string, b: string, err: Error)
    requires err == Foreign(Plain, a + "pending operations" + b, []) && !c.cancelRequested && !IsLockText(Text(err))
    ensures TestsOf(c, err) == Tests(false, false, false, true)
  {
    Inside(a, "pending operations", b);
    assert Chains([]) == [] && Chain(err) == [err] + [];
  }

  // ----- Operations that fail before they have the lock -----

  predicate NoPair(text: string, a: char, b: char) {
    forall i :: 0 <= i < |text| - 1 ==> text[i] != a || text[i + 1] != b
  }

  lemma NoPairNoText(text: string, sub: string, a: char, b: char, j: nat)
    requires NoPair(text, a, b) && j + 1 < |sub| && sub[j] == a && sub[j + 1] == b
    ensures !Contains(text, sub)
  {
    assert forall i :: 0 <= i <= |text| && sub <= text[i..] ==> text[i + j] == sub[j] && text[i + j + 1] == sub[j + 1];
  }

  lemma NoPairSum(x: string, y: string, a: char, b: char)
    requires NoPair(x, a, b) && NoPair(y, a, b) && (x == "" || x[|x| - 1] != a)
    ensures NoPair(x + y, a, b)
  {
  }

  /** Three pairs of characters, one from each text that classification looks for. */
  predicate Unmarked(text: string) {
    NoPair(text, 'c', 'u') && NoPair(text, 'A', 'n') && NoPair(text, 'd', 'i')
  }

  lemma UnmarkedSum(x: string, y: string)
    requires Unmarked(x) && Unmarked(y)
    requires x == "" || (x[|x| - 1] != 'c' && x[|x| - 1] != 'A' && x[|x| - 1] != 'd')
    ensures Unmarked(x + y)
  {
    NoPairSum(x, y, 'c', 'u');
    NoPairSum(x, y, 'A', 'n');
    NoPairSum(x, y, 'd', 'i');
  }

  lemma MarksInTexts(locked: string, conflict: string, pending: string)
    requires locked == "the stack is currently locked" && pending == "pending operations"
    requires conflict == "conflict: Another update is currently in progress"
    ensures |locked| > 14 && locked[13] == 'c' && locked[14] == 'u'
    ensures |conflict| > 11 && conflict[10] == 'A' && conflict[11] == 'n'
    ensures |pending| > 4 && pending[3] == 'd' && pending[4] == 'i'
  {
  }

  lemma MatchesNothing(text: string, locked: string, conflict: string, pending: string)
    requires Unmarked(text)
    requires |locked| > 14 && locked[13] == 'c' && locked[14] == 'u'
    requires |conflict| > 11 && conflict[10] == 'A' && conflict[11] == 'n'
    requires |pending| > 4 && pending[3] == 'd' && pending[4] == 'i'
    ensures !Contains(text, locked) && !Contains(text, conflict) && !Contains(text, pending)
  {
    NoPairNoText(text, locked, 'c', 'u', 13);
    NoPairNoText(text, conflict, 'A', 'n', 10);
    NoPairNoText(text, pending, 'd', 'i', 3);
  }

  lemma UnmarkedMatchesNothing(text: string)
    requires Unmarked(text)
    ensures !IsLockText(text) && !Contains(text, "pending operations")
  {
    var locked, conflict := "the stack is currently locked", "conflict: Another update is currently in progress";
    MarksInTexts(locked, conflict, "pending operations");
    MatchesNothing(text, locked, conflict, "pending operations");
  }

  lemma RefusalStart(a: string, b: string)
    requires a == "another update is in" && b == " progress on this stack"
    ensures Unmarked(a) && Unmarked(b) && a[|a| - 1] == 'n' && b[|b| - 1] == 'k'
  {
    assert NoPair(a, 'c', 'u');
    assert NoPair(a, 'A', 'n');
    assert NoPair(b, 'c', 'u');
    assert NoPair(b, 'A', 'n');
  }

  lemma KindIsUnmarked(kind: string)
    requires kind in ["preview", "up", "refresh", "destroy"]
    ensures Unmarked(kind) && kind != "" && kind[|kind| - 1] in ['w', 'p', 'h', 'y']
  {
    assert NoPair(kind, 'c', 'u');
    assert NoPair(kind, 'A', 'n');
    assert NoPair(kind, 'd', 'i');
  }

  lemma RefusalEnds(a: string, b: string, c: string)
    requires a == "another " && b == " is running on this stack handle" && c == ": "
    ensures Unmarked(a) && Unmarked(b) && Unmarked(c) && a[|a| - 1] == ' '
  {
    assert NoPair(b, 'c', 'u');
    assert NoPair(b, 'A', 'n');
    assert NoPair(b, 'd', 'i');
  }

  lemma RefusalParts(a: string, kind: string, b: string)
    requires a == "another " && kind in ["preview", "up", "refresh", "destroy"]
    requires b == " is running on this stack handle"
    ensures Unmarked(": ") && Unmarked(a + kind + b)
  {
    RefusalEnds(a, b, ": ");
    KindIsUnmarked(kind);
    UnmarkedSum(a, kind);
    UnmarkedSum(a + kind, b);
  }

  /** What an operation returns that tries the lock while another one has it. */
  function Refusal(kind: string): Error {
    ConcurrentUpdate(Some(Foreign(Plain, "another " + kind + " is running on this stack handle", [])))
  }

  /**
   An operation that is refused the lock has seen nothing; unless it was asked to cancel, no test
   applies to its error, and callers see that another update is in progress.
   */
  lemma RefusalKeepsItsKind(c: Context)
    requires c.kind in ["preview", "up", "refresh", "destroy"]
    ensures var e := Classified(c, TestsOf(c, Refusal(c.kind)), D.NOTHING, [], Refusal(c.kind));
            if c.cancelRequested then e == Cancelled(c.kind)
            else e == Unclassified(Refusal(c.kind)) && KindOf(e) == KConcurrentUpdate
  {
    var inner := "another " + c.kind + " is running on this stack handle";
    RefusalParts("another ", c.kind, " is running on this stack handle");
    RefusalTests(c, inner);
    RefusalChain(inner);
    NothingMarked(c, Refusal(c.kind));
  }

  lemma NothingMarked(c: Context, raw: Error)
    requires TestsOf(c, raw) == Tests(c.cancelRequested, false, false, false)
    ensures var e := Classified(c, TestsOf(c, raw), D.NOTHING, [], raw);
            if c.cancelRequested then e == Cancelled(c.kind) else e == Unclassified(raw) && KindOf(e) == KindOf(raw)
  {
    UnclassifiedIsTransparent(raw);
  }

  lemma RefusalIsUnmarked(inner: string)
    requires Unmarked(inner) && Unmarked(": ")
    ensures Unmarked("another update is in progress on this stack" + (": " + inner))
  {
    var a, b := "another update is in", " progress on this stack";
    RefusalStart(a, b);
    UnmarkedSum(a, b);
    assert a + b == "another update is in progress on this stack";
    UnmarkedSum(": ", inner);
    UnmarkedSum(a + b, ": " + inner);
  }

  lemma RefusalTests(c: Context, inner: string)
    requires Unmarked(inner) && Unmarked(": ")
    ensures TestsOf(c, ConcurrentUpdate(Some(Foreign(Plain, inner, []))))
            == Tests(c.cancelRequested, false, false, false)
  {
    var raw := ConcurrentUpdate(Some(Foreign(Plain, inner, [])));
    RefusalIsUnmarked(inner);
    RefusalText(inner);
    UnmarkedMatchesNothing(Text(raw));
    RefusalChain(inner);
  }

  lemma RefusalText(inner: string)
    ensures Text(ConcurrentUpdate(Some(Foreign(Plain, inner, []))))
            == "another update is in progress on this stack" + (": " + inner)
  {
  }

  lemma RefusalChain(inner: string)
    ensures var raw := ConcurrentUpdate(Some(Foreign(Plain, inner, [])));
            KindOf(raw) == KConcurrentUpdate && forall mark :: mark != Plain ==> !HasMark(raw, mark)
  {
    var cause := Foreign(Plain, inner, []);
    var raw := ConcurrentUpdate(Some(cause));
    assert Chains([]) == [] && Chain(cause) == [cause] + [] && Chain(raw) == [raw] + Chain(cause);
    assert forall k :: As(cause, k) == if k == KUnclassified then Some(cause) else None;
    assert forall k :: As(raw, k) == if k == KConcurrentUpdate then Some(raw) else As(cause, k);
  }
}
