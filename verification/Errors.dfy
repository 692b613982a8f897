/**
 Typed errors, their stable kinds, the wire form of the C ABI and the classes the Node binding builds
 from it.
 */
module Errors {
  import opened Wrappers
  import opened Strings

  /** Backend error types and sentinels that classification recognises in a chain. */
  datatype Mark = Plain | ContextCanceled | ConflictingUpdate | BackendCancelled

  datatype Violation = Violation(urn: string, message: string)

  /** An error with everything it unwraps to. `Foreign` is any error of another package, joins included. */
  datatype Error =
    | InvalidSpec(field: string, message: string)
    | ResourceOpFailed(urn: string, ty: string, op: string, provider: string, message: string)
    | ProgramFailed(message: string)
    | ConcurrentUpdate(cause: Option<Error>)
    | StackNotFound(name: string)
    | StackExists(name: string)
    | PendingOperations(urns: seq<string>, cause: Option<Error>)
    | Cancelled(operation: string)
    | PlanViolation(resources: seq<Violation>)
    | Unsupported(feature: string, backend: string, message: string)
    | Unclassified(inner: Error)
    | Foreign(mark: Mark, text: string, wrapped: seq<Error>)

  datatype Kind =
    | KInvalidSpec | KPlanViolation | KResourceOpFailed | KProgramFailed | KConcurrentUpdate
    | KStackNotFound | KStackExists | KPendingOperations | KCancelled | KUnsupported | KUnclassified

  /** The type of the error itself, not looking inside. */
  function Own(e: Error): Kind {
    match e
    case InvalidSpec(_, _) => KInvalidSpec
    case ResourceOpFailed(_, _, _, _, _) => KResourceOpFailed
    case ProgramFailed(_) => KProgramFailed
    case ConcurrentUpdate(_) => KConcurrentUpdate
    case StackNotFound(_) => KStackNotFound
    case StackExists(_) => KStackExists
    case PendingOperations(_, _) => KPendingOperations
    case Cancelled(_) => KCancelled
    case PlanViolation(_) => KPlanViolation
    case Unsupported(_, _, _) => KUnsupported
    case Unclassified(_) => KUnclassified
    case Foreign(_, _, _) => KUnclassified
  }

  // ----- errors.As -----

  /** The first error of a type, in the depth-first order of `errors.As`. */
  function As(e: Error, k: Kind): Option<Error> {
    if Own(e) == k then Some(e)
    else
      match e
      case ConcurrentUpdate(Some(c)) => As(c, k)
      case PendingOperations(_, Some(c)) => As(c, k)
      case Unclassified(c) => As(c, k)
      case Foreign(_, _, wrapped) => AsAny(wrapped, k)
      case _ => None
  }

  function AsAny(es: seq<Error>, k: Kind): Option<Error> {
    if es == [] then None
    else if As(es[0], k).Some? then As(es[0], k)
    else AsAny(es[1..], k)
  }

  predicate Has(e: Error, k: Kind) {
    As(e, k).Some?
  }

  /** The whole chain in the order `errors.As` visits it. */
  function Chain(e: Error): seq<Error> {
    [e] + match e
          case ConcurrentUpdate(Some(c)) => Chain(c)
          case PendingOperations(_, Some(c)) => Chain(c)
          case Unclassified(c) => Chain(c)
          case Foreign(_, _, wrapped) => Chains(wrapped)
          case _ => []
  }

  function Chains(es: seq<Error>): seq<Error> {
    if es == [] then [] else Chain(es[0]) + Chains(es[1..])
  }

  /** The first element of a list that has the kind. */
  function First(es: seq<Error>, k: Kind): Option<Error> {
    if es == [] then None else if Own(es[0]) == k then Some(es[0]) else First(es[1..], k)
  }

  lemma {:induction false} FirstOfSum(a: seq<Error>, b: seq<Error>, k: Kind)
    ensures First(a + b, k) == if First(a, k).Some? then First(a, k) else First(b, k)
  {
    if a == [] {
      assert a + b == b;
    } else {
      assert (a + b)[1..] == a[1..] + b;
      FirstOfSum(a[1..], b, k);
    }
  }

  /** `errors.As` finds the first error of the type in the chain. */
  lemma {:induction false} AsIsFirstInChain(e: Error, k: Kind)
    ensures As(e, k) == First(Chain(e), k)
    decreases e, 0
  {
    assert Chain(e) == [e] + Chain(e)[1..];
    match e
    case ConcurrentUpdate(Some(c)) => AsIsFirstInChain(c, k);
    case PendingOperations(_, Some(c)) => AsIsFirstInChain(c, k);
    case Unclassified(c) => AsIsFirstInChain(c, k);
    case Foreign(_, _, wrapped) => AsAnyIsFirstInChains(wrapped, k);
    case _ =>
  }

  lemma {:induction false} AsAnyIsFirstInChains(es: seq<Error>, k: Kind)
    ensures AsAny(es, k) == First(Chains(es), k)
    decreases es, 1
  {
    if es != [] {
      AsIsFirstInChain(es[0], k);
      AsAnyIsFirstInChains(es[1..], k);
      FirstOfSum(Chain(es[0]), Chains(es[1..]), k);
    }
  }

  lemma {:induction false} AsHasKind(e: Error, k: Kind)
    requires Has(e, k)
    ensures Own(As(e, k).value) == k
    decreases e, 0
  {
    if Own(e) != k {
      match e
      case ConcurrentUpdate(Some(c)) => AsHasKind(c, k);
      case PendingOperations(_, Some(c)) => AsHasKind(c, k);
      case Unclassified(c) => AsHasKind(c, k);
      case Foreign(_, _, wrapped) => AsAnyHasKind(wrapped, k);
    }
  }

  lemma {:induction false} AsAnyHasKind(es: seq<Error>, k: Kind)
    requires AsAny(es, k).Some?
    ensures Own(AsAny(es, k).value) == k
    decreases es, 1
  {
    if As(es[0], k).Some? {
      AsHasKind(es[0], k);
    } else {
      AsAnyHasKind(es[1..], k);
    }
  }

  // ----- KindOf -----

  /** What `errors.As` finds for each type. */
  datatype Found = Found(
    invalid: Option<Error>, plan: Option<Error>, resOp: Option<Error>, program: Option<Error>,
    conc: Option<Error>, notFound: Option<Error>, exists_: Option<Error>, pending: Option<Error>,
    canc: Option<Error>, unsup: Option<Error>)

  function FoundIn(e: Error): Found {
    Found(As(e, KInvalidSpec), As(e, KPlanViolation), As(e, KResourceOpFailed), As(e, KProgramFailed),
          As(e, KConcurrentUpdate), As(e, KStackNotFound), As(e, KStackExists), As(e, KPendingOperations),
          As(e, KCancelled), As(e, KUnsupported))
  }

  /** Each finding has the type it was looked for. */
  predicate Typed(f: Found) {
    && (f.invalid.Some? ==> f.invalid.value.InvalidSpec?)
    && (f.plan.Some? ==> f.plan.value.PlanViolation?)
    && (f.resOp.Some? ==> f.resOp.value.ResourceOpFailed?)
    && (f.program.Some? ==> f.program.value.ProgramFailed?)
    && (f.conc.Some? ==> f.conc.value.ConcurrentUpdate?)
    && (f.notFound.Some? ==> f.notFound.value.StackNotFound?)
    && (f.exists_.Some? ==> f.exists_.value.StackExists?)
    && (f.pending.Some? ==> f.pending.value.PendingOperations?)
    && (f.canc.Some? ==> f.canc.value.Cancelled?)
    && (f.unsup.Some? ==> f.unsup.value.Unsupported?)
  }

  /** Finding by finding, the error is of the kind that was asked for. */
  predicate OfKind(o: Option<Error>, k: Kind) {
    o.Some? ==> Own(o.value) == k
  }

  lemma KindsAreTypes(f: Found)
    requires OfKind(f.invalid, KInvalidSpec) && OfKind(f.plan, KPlanViolation) && OfKind(f.resOp, KResourceOpFailed)
    requires OfKind(f.program, KProgramFailed) && OfKind(f.conc, KConcurrentUpdate)
    requires OfKind(f.notFound, KStackNotFound) && OfKind(f.exists_, KStackExists)
    requires OfKind(f.pending, KPendingOperations) && OfKind(f.canc, KCancelled) && OfKind(f.unsup, KUnsupported)
    ensures Typed(f)
  {
  }

  lemma FoundIsTyped(e: Error)
    ensures Typed(FoundIn(e))
  {
    var f := FoundIn(e);
    FoundHasKind(e, KInvalidSpec);
    FoundHasKind(e, KPlanViolation);
    FoundHasKind(e, KResourceOpFailed);
    FoundHasKind(e, KProgramFailed);
    FoundHasKind(e, KConcurrentUpdate);
    FoundHasKind(e, KStackNotFound);
    FoundHasKind(e, KStackExists);
    FoundHasKind(e, KPendingOperations);
    FoundHasKind(e, KCancelled);
    FoundHasKind(e, KUnsupported);
    KindsAreTypes(f);
  }

  lemma FoundHasKind(e: Error, k: Kind)
    ensures OfKind(As(e, k), k)
  {
    if Has(e, k) {
      AsHasKind(e, k);
    }
  }

  function Ranked(f: Found): Kind {
    if f.invalid.Some? then KInvalidSpec
    else if f.plan.Some? then KPlanViolation
    else if f.resOp.Some? then KResourceOpFailed
    else if f.program.Some? then KProgramFailed
    else if f.conc.Some? then KConcurrentUpdate
    else if f.notFound.Some? then KStackNotFound
    else if f.exists_.Some? then KStackExists
    else if f.pending.Some? then KPendingOperations
    else if f.canc.Some? then KCancelled
    else if f.unsup.Some? then KUnsupported
    else KUnclassified
  }

  function KindOf(e: Error): Kind {
    Ranked(FoundIn(e))
  }

  /** The order in which the kinds decide. */
  function Rank(k: Kind): nat {
    match k
    case KInvalidSpec => 0
    case KPlanViolation => 1
    case KResourceOpFailed => 2
    case KProgramFailed => 3
    case KConcurrentUpdate => 4
    case KStackNotFound => 5
    case KStackExists => 6
    case KPendingOperations => 7
    case KCancelled => 8
    case KUnsupported => 9
    case KUnclassified => 10
  }

  /** Some error in the chain is of the kind. */
  ghost predicate Carries(e: Error, k: Kind) {
    exists i :: 0 <= i < |Chain(e)| && Own(Chain(e)[i]) == k
  }

  lemma {:induction false} FirstIffSome(es: seq<Error>, k: Kind)
    ensures First(es, k).Some? <==> exists i :: 0 <= i < |es| && Own(es[i]) == k
  {
    if es != [] && Own(es[0]) != k {
      FirstIffSome(es[1..], k);
      if i :| 0 <= i < |es| && Own(es[i]) == k {
        assert es[1..][i - 1] == es[i];
      }
    }
  }

  lemma CarriesIffHas(e: Error, k: Kind)
    ensures Carries(e, k) <==> Has(e, k)
  {
    AsIsFirstInChain(e, k);
    FirstIffSome(Chain(e), k);
  }

  function Finding(f: Found, k: Kind): Option<Error> {
    match k
    case KInvalidSpec => f.invalid
    case KPlanViolation => f.plan
    case KResourceOpFailed => f.resOp
    case KProgramFailed => f.program
    case KConcurrentUpdate => f.conc
    case KStackNotFound => f.notFound
    case KStackExists => f.exists_
    case KPendingOperations => f.pending
    case KCancelled => f.canc
    case KUnsupported => f.unsup
    case KUnclassified => None
  }

  lemma RankedIsFirst(f: Found, k: Kind)
    requires k != KUnclassified
    ensures Ranked(f) == k <==> Finding(f, k).Some? && forall j :: Rank(j) < Rank(k) ==> Finding(f, j).None?
  {
    if Finding(f, k).Some? && forall j :: Rank(j) < Rank(k) ==> Finding(f, j).None? {
      RankedIs(f, k);
    }
  }

  lemma RankedIs(f: Found, k: Kind)
    requires k != KUnclassified && Finding(f, k).Some? && forall j :: Rank(j) < Rank(k) ==> Finding(f, j).None?
    ensures Ranked(f) == k
  {
    var r := Ranked(f);
    assert r != KUnclassified && Finding(f, r).Some?;
    assert Rank(k) <= Rank(r);
  }

  /** The kind of an error is the first, in the order of ranks, that its chain carries. */
  lemma KindIsFirstCarried(e: Error, k: Kind)
    requires k != KUnclassified
    ensures KindOf(e) == k <==> Carries(e, k) && forall j :: Rank(j) < Rank(k) ==> !Carries(e, j)
  {
    RankedIsFirst(FoundIn(e), k);
    forall j: Kind | j != KUnclassified
      ensures Finding(FoundIn(e), j).Some? <==> Carries(e, j)
    {
      CarriesIffHas(e, j);
    }
  }

  /** `Error()`. Names are put in plain quotes; Go's %q escapes are not modelled. */
  function Text(e: Error): string {
    match e
    case InvalidSpec(field, message) => "invalid spec: " + field + ": " + message
    case ResourceOpFailed(urn, ty, op, _, message) =>
      op + " " + ty + " (" + urn + "): " + Trim(if message == "" then "resource operation failed" else message)
    case ProgramFailed(message) => if message == "" then "program failed" else "program failed: " + Trim(message)
    case ConcurrentUpdate(cause) =>
      "another update is in progress on this stack" + if cause.None? then "" else ": " + Text(cause.value)
    case StackNotFound(name) => "stack \"" + name + "\" not found"
    case StackExists(name) => "stack \"" + name + "\" already exists"
    case PendingOperations(urns, cause) =>
      "stack has " + Decimal(|urns|) + " pending operation(s): " +
      if cause.None? then "%!s(<nil>)" else Text(cause.value)
    case Cancelled(operation) => operation + " cancelled"
    case PlanViolation(resources) =>
      if resources == [] then "update violates the plan"
      else "update violates the plan: " + Listed(resources)
    case Unsupported(feature, backend, message) =>
      feature + " is not supported"
      + (if backend == "" then "" else " on " + backend + " backends")
      + if message == "" then "" else ": " + message
    case Unclassified(inner) => Text(inner)
    case Foreign(_, text, _) => text
  }

  function Listed(resources: seq<Violation>): string
    requires resources != []
  {
    resources[0].urn + ": " + Trim(resources[0].message)
    + if |resources| == 1 then "" else "; " + Listed(resources[1..])
  }

  // ----- The wire form -----

  datatype Value = KindTag(kind: Kind) | Str(s: string) | Urns(urns: seq<string>) | Resources(resources: seq<Violation>)

  type Wire = map<string, Value>

  /** The fields `errorJSON` adds for an error it has found. */
  function Fields(e: Error): Wire {
    match e
    case InvalidSpec(field, message) => map["field" := Str(field), "message" := Str(message)]
    case PlanViolation(resources) => map["resources" := Resources(resources)]
    case ResourceOpFailed(urn, ty, op, provider, message) =>
      map["urn" := Str(urn), "type" := Str(ty), "op" := Str(op), "provider" := Str(provider)]
      + if message == "" then map[] else map["message" := Str(message)]
    case PendingOperations(urns, _) => map["urns" := Urns(urns)]
    case StackNotFound(name) => map["name" := Str(name)]
    case StackExists(name) => map["name" := Str(name)]
    case Cancelled(operation) => map["operation" := Str(operation)]
    case Unsupported(feature, backend, _) => map["feature" := Str(feature), "backend" := Str(backend)]
    case _ => map[]
  }

  /** The error whose fields `errorJSON` attaches: its own order of types, not that of `KindOf`. */
  function Attached(f: Found): Option<Error> {
    if f.invalid.Some? then f.invalid
    else if f.plan.Some? then f.plan
    else if f.resOp.Some? then f.resOp
    else if f.pending.Some? then f.pending
    else if f.notFound.Some? then f.notFound
    else if f.exists_.Some? then f.exists_
    else if f.canc.Some? then f.canc
    else f.unsup
  }

  function Encoded(f: Found, text: string): Wire {
    map["kind" := KindTag(Ranked(f)), "message" := Str(text)]
    + if Attached(f).None? then map[] else Fields(Attached(f).value)
  }

  function WireOf(e: Error): Wire {
    Encoded(FoundIn(e), Text(e))
  }

  /** `errorJSON` before marshalling. */
  method ErrorJson(e: Error) returns (m: Wire)
    ensures m == WireOf(e)
  {
    FoundIsTyped(e);
    m := Encode(FoundIn(e), Text(e));
  }

  method Encode(f: Found, text: string) returns (m: Wire)
    requires Typed(f)
    ensures m == Encoded(f, text)
  {
    m := map["kind" := KindTag(Ranked(f)), "message" := Str(text)];
    ghost var base := m;
    if f.invalid.Some? {
      m := m["field" := Str(f.invalid.value.field)];
      m := m["message" := Str(f.invalid.value.message)];
      TwoFields(base, "field", Str(f.invalid.value.field), "message", Str(f.invalid.value.message));
    } else if f.plan.Some? {
      m := m["resources" := Resources(f.plan.value.resources)];
    } else if f.resOp.Some? {
      m := AddResourceOp(m, f.resOp.value);
    } else if f.pending.Some? {
      m := m["urns" := Urns(f.pending.value.urns)];
    } else if f.notFound.Some? {
      m := m["name" := Str(f.notFound.value.name)];
    } else if f.exists_.Some? {
      m := m["name" := Str(f.exists_.value.name)];
    } else if f.canc.Some? {
      m := m["operation" := Str(f.canc.value.operation)];
    } else if f.unsup.Some? {
      m := m["feature" := Str(f.unsup.value.feature)]["backend" := Str(f.unsup.value.backend)];
      TwoFields(base, "feature", Str(f.unsup.value.feature), "backend", Str(f.unsup.value.backend));
    }
    assert m == base + if Attached(f).None? then map[] else Fields(Attached(f).value);
  }

  lemma TwoFields(m: Wire, a: string, x: Value, b: string, y: Value)
    ensures m[a := x][b := y] == m + map[a := x, b := y]
  {
  }

  method AddResourceOp(base: Wire, rof: Error) returns (m: Wire)
    requires rof.ResourceOpFailed?
    ensures m == base + Fields(rof)
  {
    m := base["urn" := Str(rof.urn)]["type" := Str(rof.ty)]["op" := Str(rof.op)]["provider" := Str(rof.provider)];
    ghost var four: Wire :=
      map["urn" := Str(rof.urn), "type" := Str(rof.ty), "op" := Str(rof.op), "provider" := Str(rof.provider)];
    assert m == base + four;
    if rof.message != "" {
      m := m["message" := Str(rof.message)];
      assert m == base + (four + map["message" := Str(rof.message)]);
    } else {
      assert four + map[] == four;
    }
  }

  // ----- The Node binding -----

  datatype JsError =
    | InvalidSpecError(field: string, message: string)
    | ResourceOpFailedError(urn: string, ty: string, op: string, provider: string, message: string)
    | ProgramFailedError(message: string)
    | ConcurrentUpdateError(message: string)
    | StackNotFoundError(name: string, message: string)
    | StackExistsError(name: string, message: string)
    | PendingOperationsError(urns: seq<string>, message: string)
    | CancelledError(operation: string, message: string)
    | PlanViolationError(resources: seq<Violation>, message: string)
    | UnsupportedError(feature: string, backend: string, message: string)
    | PulumiError(message: string)

  function StrAt(m: Wire, key: string, default: string): string {
    if key in m && m[key].Str? then m[key].s else default
  }

  /** `errorFromJSON` on a parsed object: the class is chosen by the kind, missing fields are empty. */
  function ErrorFromJson(m: Wire): JsError {
    var message := StrAt(m, "message", "unknown error");
    if "kind" !in m || !m["kind"].KindTag? then PulumiError(message)
    else
      match m["kind"].kind
      case KInvalidSpec => InvalidSpecError(StrAt(m, "field", ""), message)
      case KResourceOpFailed =>
        ResourceOpFailedError(StrAt(m, "urn", ""), StrAt(m, "type", ""), StrAt(m, "op", ""),
                              StrAt(m, "provider", ""), message)
      case KProgramFailed => ProgramFailedError(message)
      case KConcurrentUpdate => ConcurrentUpdateError(message)
      case KStackNotFound => StackNotFoundError(StrAt(m, "name", ""), message)
      case KStackExists => StackExistsError(StrAt(m, "name", ""), message)
      case KPendingOperations =>
        PendingOperationsError(if "urns" in m && m["urns"].Urns? then m["urns"].urns else [], message)
      case KCancelled => CancelledError(StrAt(m, "operation", ""), message)
      case KPlanViolation =>
        PlanViolationError(if "resources" in m && m["resources"].Resources? then m["resources"].resources else [],
                           message)
      case KUnsupported => UnsupportedError(StrAt(m, "feature", ""), StrAt(m, "backend", ""), message)
      case KUnclassified => PulumiError(message)
  }

  /** An object without fields still gives an error: of the kind it names, if any, with empty fields. */
  lemma MissingFieldsAreEmpty(k: Kind, m: Wire)
    requires m == map["kind" := KindTag(k)]
    ensures ErrorFromJson(map[]) == PulumiError("unknown error")
    ensures ErrorFromJson(m) == match k
                                case KInvalidSpec => InvalidSpecError("", "unknown error")
                                case KResourceOpFailed => ResourceOpFailedError("", "", "", "", "unknown error")
                                case KProgramFailed => ProgramFailedError("unknown error")
                                case KConcurrentUpdate => ConcurrentUpdateError("unknown error")
                                case KStackNotFound => StackNotFoundError("", "unknown error")
                                case KStackExists => StackExistsError("", "unknown error")
                                case KPendingOperations => PendingOperationsError([], "unknown error")
                                case KCancelled => CancelledError("", "unknown error")
                                case KPlanViolation => PlanViolationError([], "unknown error")
                                case KUnsupported => UnsupportedError("", "", "unknown error")
                                case KUnclassified => PulumiError("unknown error")
  {
  }

  /** What the other side should see: the class of the kind, with the fields of that error. */
  function ClassFor(e: Error, text: string): JsError {
    match e
    case InvalidSpec(field, message) => InvalidSpecError(field, message)
    case ResourceOpFailed(urn, ty, op, provider, message) =>
      ResourceOpFailedError(urn, ty, op, provider, if message == "" then text else message)
    case ProgramFailed(_) => ProgramFailedError(text)
    case ConcurrentUpdate(_) => ConcurrentUpdateError(text)
    case StackNotFound(name) => StackNotFoundError(name, text)
    case StackExists(name) => StackExistsError(name, text)
    case PendingOperations(urns, _) => PendingOperationsError(urns, text)
    case Cancelled(operation) => CancelledError(operation, text)
    case PlanViolation(resources) => PlanViolationError(resources, text)
    case Unsupported(feature, backend, _) => UnsupportedError(feature, backend, text)
    case _ => PulumiError(text)
  }

  /** The error with the reported kind: the first such one in the chain. */
  function Reported(e: Error): Error {
    if KindOf(e) == KUnclassified then e else OrElse(First(Chain(e), KindOf(e)), e)
  }

  function Expected(e: Error): JsError {
    if KindOf(e) == KUnclassified then PulumiError(Text(e)) else ClassFor(Reported(e), Text(e))
  }

  /** A named stack error that shares its chain with pending operations. */
  predicate NameHidden(f: Found) {
    (Ranked(f) == KStackNotFound || Ranked(f) == KStackExists) && f.pending.Some?
  }

  function Pick(f: Found): Option<Error> {
    Finding(f, Ranked(f))
  }

  lemma PickIsReported(e: Error)
    ensures Pick(FoundIn(e)).Some? <==> KindOf(e) != KUnclassified
    ensures Pick(FoundIn(e)).Some? ==> Pick(FoundIn(e)).value == Reported(e) && Own(Reported(e)) == KindOf(e)
  {
    FoundIsTyped(e);
    AsIsFirstInChain(e, KindOf(e));
  }

  lemma ResourceOpDecodes(a: Error, text: string)
    requires a.ResourceOpFailed?
    ensures ErrorFromJson(map["kind" := KindTag(KResourceOpFailed), "message" := Str(text)] + Fields(a))
            == ClassFor(a, text)
  {
  }

  lemma InvalidSpecDecodes(a: Error, text: string)
    requires a.InvalidSpec?
    ensures ErrorFromJson(map["kind" := KindTag(KInvalidSpec), "message" := Str(text)] + Fields(a)) == ClassFor(a, text)
  {
  }

  lemma UnsupportedDecodes(a: Error, text: string)
    requires a.Unsupported?
    ensures ErrorFromJson(map["kind" := KindTag(KUnsupported), "message" := Str(text)] + Fields(a)) == ClassFor(a, text)
  {
  }

  lemma OneFieldDecodes(a: Error, text: string)
    requires a.PlanViolation? || a.PendingOperations? || a.StackNotFound? || a.StackExists? || a.Cancelled?
    ensures ErrorFromJson(map["kind" := KindTag(Own(a)), "message" := Str(text)] + Fields(a)) == ClassFor(a, text)
  {
  }

  /** Fields attached to their own kind are read back by the class of that kind. */
  lemma OwnFieldsDecode(a: Error, text: string)
    requires Own(a) != KUnclassified
    ensures ErrorFromJson(map["kind" := KindTag(Own(a)), "message" := Str(text)] + Fields(a)) == ClassFor(a, text)
  {
    match a
    case ResourceOpFailed(_, _, _, _, _) => ResourceOpDecodes(a, text);
    case InvalidSpec(_, _) => InvalidSpecDecodes(a, text);
    case Unsupported(_, _, _) => UnsupportedDecodes(a, text);
    case ProgramFailed(_) =>
    case ConcurrentUpdate(_) =>
    case _ => OneFieldDecodes(a, text);
  }

  /** The classes without fields read only the message, which these attachments leave alone. */
  lemma ForeignFieldsDecode(k: Kind, a: Error, text: string)
    requires Own(a) in {KPendingOperations, KStackNotFound, KStackExists, KCancelled, KUnsupported}
    requires k == KProgramFailed || k == KConcurrentUpdate
    ensures ErrorFromJson(map["kind" := KindTag(k), "message" := Str(text)] + Fields(a)) ==
            if k == KProgramFailed then ProgramFailedError(text) else ConcurrentUpdateError(text)
  {
  }

  /** A stack error that got the pending operations' fields is read back without its name. */
  lemma PendingFieldsHideName(k: Kind, a: Error, text: string)
    requires Own(a) == KPendingOperations && (k == KStackNotFound || k == KStackExists)
    ensures ErrorFromJson(map["kind" := KindTag(k), "message" := Str(text)] + Fields(a)) ==
            if k == KStackNotFound then StackNotFoundError("", text) else StackExistsError("", text)
  {
  }

  lemma DecodeEncoded(f: Found, text: string)
    requires Typed(f)
    ensures var expected := if Pick(f).None? then PulumiError(text) else ClassFor(Pick(f).value, text);
            ErrorFromJson(Encoded(f, text)) == expected <==> !(NameHidden(f) && Pick(f).value.name != "")
  {
    var a := Attached(f);
    if a.None? {
      var base: Wire := map["kind" := KindTag(Ranked(f)), "message" := Str(text)];
      assert Encoded(f, text) == base;
    } else if Own(a.value) == Ranked(f) {
      OwnFieldsDecode(a.value, text);
    } else if NameHidden(f) {
      PendingFieldsHideName(Ranked(f), a.value, text);
    } else {
      ForeignFieldsDecode(Ranked(f), a.value, text);
    }
  }

  /**
   Through the wire and back gives the class of the kind with the fields of the first such error,
   except exactly when a stack-not-found or stack-exists error with a name travels with pending
   operations: then the name is lost.
   */
  lemma WireRoundTrip(e: Error)
    ensures ErrorFromJson(WireOf(e)) == Expected(e) <==>
            !(&& (Reported(e).StackNotFound? || Reported(e).StackExists?)
              && KindOf(e) != KUnclassified
              && Has(e, KPendingOperations)
              && Reported(e).name != "")
  {
    FoundIsTyped(e);
    PickIsReported(e);
    DecodeEncoded(FoundIn(e), Text(e));
    HiddenMeans(e, FoundIn(e));
  }

  lemma HiddenMeans(e: Error, f: Found)
    requires f == FoundIn(e) && Typed(f)
    ensures NameHidden(f) && Pick(f).value.name != "" <==>
            && (Reported(e).StackNotFound? || Reported(e).StackExists?)
            && KindOf(e) != KUnclassified
            && Has(e, KPendingOperations)
            && Reported(e).name != ""
  {
    PickIsReported(e);
    assert f.pending == As(e, KPendingOperations) && KindOf(e) == Ranked(f);
  }

  /** What is found in a not-found error inside pending operations. */
  lemma PendingNotFound(name: string, urns: seq<string>)
    ensures var inner := StackNotFound(name);
            var e := PendingOperations(urns, Some(inner));
            FoundIn(e) == Found(None, None, None, None, None, Some(inner), None, Some(e), None, None)
  {
    var inner := StackNotFound(name);
    var e := PendingOperations(urns, Some(inner));
    assert forall k :: As(inner, k) == if k == KStackNotFound then Some(inner) else None;
    assert forall k :: As(e, k) == if k == KPendingOperations then Some(e) else As(inner, k);
  }

  /** The family is not empty. */
  lemma LostName(name: string, urns: seq<string>)
    requires name != ""
    ensures var e := PendingOperations(urns, Some(StackNotFound(name)));
            && KindOf(e) == KStackNotFound
            && Expected(e) == StackNotFoundError(name, Text(e))
            && ErrorFromJson(WireOf(e)) == StackNotFoundError("", Text(e))
  {
    var inner := StackNotFound(name);
    var e := PendingOperations(urns, Some(inner));
    var f := Found(None, None, None, None, None, Some(inner), None, Some(e), None, None);
    PendingNotFound(name, urns);
    PickIsReported(e);
    assert Ranked(f) == KStackNotFound && Attached(f) == Some(e) && Pick(f) == Some(inner);
    PendingFieldsHideName(KStackNotFound, e, Text(e));
  }

  /** A kind without fields of its own, or a named stack error, that hides the error `errorJSON` goes by. */
  predicate Outranked(f: Found) {
    || NameHidden(f)
    || ((Ranked(f) == KProgramFailed || Ranked(f) == KConcurrentUpdate)
        && (f.pending.Some? || f.notFound.Some? || f.exists_.Some? || f.canc.Some? || f.unsup.Some?))
  }

  /** The attached fields are those of the reported kind exactly when nothing is outranked. */
  lemma AttachedAgreesWithKind(e: Error)
    ensures var a := Attached(FoundIn(e));
            (if a.None? then KindOf(e) in {KProgramFailed, KConcurrentUpdate, KUnclassified}
             else Own(a.value) == KindOf(e))
            <==> !Outranked(FoundIn(e))
  {
    FoundIsTyped(e);
  }

  lemma AsThroughWrapper(e: Error, k: Kind)
    requires k != KUnclassified
    ensures As(Unclassified(e), k) == As(e, k)
  {
  }

  lemma WrapperIsNotFound(e: Error)
    ensures FoundIn(Unclassified(e)) == FoundIn(e)
  {
    forall k | k != KUnclassified
      ensures As(Unclassified(e), k) == As(e, k)
    {
      AsThroughWrapper(e, k);
    }
  }

  lemma SameKind(a: Error, b: Error)
    requires FoundIn(a) == FoundIn(b)
    ensures KindOf(a) == KindOf(b)
  {
  }

  lemma WireIs(e: Error, f: Found, text: string)
    requires f == FoundIn(e) && text == Text(e)
    ensures WireOf(e) == Encoded(f, text)
  {
  }

  /** Wrapping in `Unclassified` changes nothing on the wire. */
  lemma WrapperIsNotSent(e: Error, wrapped: Error)
    requires wrapped == Unclassified(e)
    ensures WireOf(wrapped) == WireOf(e)
  {
    var f, text := FoundIn(e), Text(e);
    WrapperIsNotFound(e);
    WireIs(e, f, text);
    WireIs(wrapped, f, text);
  }

  /** Nor does it change the kind. */
  lemma UnclassifiedIsTransparent(e: Error)
    ensures KindOf(Unclassified(e)) == KindOf(e)
  {
    WrapperIsNotFound(e);
    SameKind(Unclassified(e), e);
  }
}
