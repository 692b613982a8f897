/**
 Stack outputs as plain JSON-able values, with secrets redacted.
 */
module Redaction {
  import opened Wrappers
  import opened Strings

  /** A resource property value. Numbers stay symbolic: rendering passes them on unchanged. */
  datatype Property =
    | Null
    | Bool(b: bool)
    | Number(n: real)
    | Text(s: string)
    | Array(items: seq<Property>)
    | Object(fields: map<string, Property>)
    | Secret(element: Property)
    | Output(value: Property, known: bool, secret: bool)
    | Asset(hash: string)
    | Archive(hash: string)
    | Computed(element: Property)
    | Reference(urn: string)

  datatype Json =
    | JNull
    | JBool(b: bool)
    | JNumber(n: real)
    | JText(s: string)
    | JArray(items: seq<Json>)
    | JObject(fields: map<string, Json>)

  const REDACTED := JText("[secret]")

  function ToJson(v: Property, show: bool): Json {
    match v
    case Null => JNull
    case Bool(b) => JBool(b)
    case Number(n) => JNumber(n)
    case Text(s) => JText(s)
    case Array(items) => JArray(seq(|items|, i requires 0 <= i < |items| => ToJson(items[i], show)))
    case Object(fields) => JObject(map k | k in fields :: ToJson(fields[k], show))
    case Secret(e) => if show then ToJson(e, show) else REDACTED
    case Output(e, known, secret) =>
      if !known then JNull else if secret && !show then REDACTED else ToJson(e, show)
    case Asset(h) => JObject(map["asset" := JText(h)])
    case Archive(h) => JObject(map["archive" := JText(h)])
    case Computed(_) => JNull
    case Reference(urn) => JText(urn)
  }

  /** `PropertyValue.ContainsSecrets` of the Pulumi SDK: a secret wrapper or secret output anywhere inside. */
  predicate ContainsSecrets(v: Property) {
    match v
    case Secret(_) => true
    case Computed(e) => ContainsSecrets(e)
    case Output(e, _, secret) => secret || ContainsSecrets(e)
    case Array(items) => exists i :: 0 <= i < |items| && ContainsSecrets(items[i])
    case Object(fields) => exists k :: k in fields && ContainsSecrets(fields[k])
    case _ => false
  }

  // ----- What is rendered where -----

  /** Values without wrappers, assets and references: what JSON can say as it is. */
  predicate Plain(v: Property) {
    match v
    case Null => true
    case Bool(_) => true
    case Number(_) => true
    case Text(_) => true
    case Array(items) => forall i :: 0 <= i < |items| ==> Plain(items[i])
    case Object(fields) => forall k :: k in fields ==> Plain(fields[k])
    case _ => false
  }

  /** Reading JSON as a property value. */
  function FromJson(j: Json): Property {
    match j
    case JNull => Null
    case JBool(b) => Bool(b)
    case JNumber(n) => Number(n)
    case JText(s) => Text(s)
    case JArray(items) => Array(seq(|items|, i requires 0 <= i < |items| => FromJson(items[i])))
    case JObject(fields) => Object(map k | k in fields :: FromJson(fields[k]))
  }

  /** Rendering loses nothing of a plain value, under either flag. */
  lemma {:induction false} PlainRoundTrip(v: Property, show: bool)
    requires Plain(v)
    ensures FromJson(ToJson(v, show)) == v
  {
    match v
    case Array(items) =>
      forall i | 0 <= i < |items|
        ensures FromJson(ToJson(items[i], show)) == items[i]
      {
        PlainRoundTrip(items[i], show);
      }
    case Object(fields) =>
      forall k | k in fields
        ensures FromJson(ToJson(fields[k], show)) == fields[k]
      {
        PlainRoundTrip(fields[k], show);
      }
    case _ =>
  }

  /** One step into a value: an element or a field. */
  datatype Step = Item(i: nat) | Field(k: string)

  /** Taking off the wrappers one may look through; a hidden secret and an unknown output stay. */
  function Unwrapped(v: Property, show: bool): Property {
    match v
    case Secret(e) => if show then Unwrapped(e, show) else v
    case Output(e, known, secret) => if known && (show || !secret) then Unwrapped(e, show) else v
    case _ => v
  }

  /** The position of a value a path leads to, or None when there is none. */
  function PropertyAt(v: Property, path: seq<Step>, show: bool): Option<Property>
    decreases |path|
  {
    var w := Unwrapped(v, show);
    if path == [] then Some(w)
    else
      match path[0]
      case Item(i) => if w.Array? && i < |w.items| then PropertyAt(w.items[i], path[1..], show) else None
      case Field(k) => if w.Object? && k in w.fields then PropertyAt(w.fields[k], path[1..], show) else None
  }

  function JsonAt(j: Json, path: seq<Step>): Option<Json>
    decreases |path|
  {
    if path == [] then Some(j)
    else
      match path[0]
      case Item(i) => if j.JArray? && i < |j.items| then JsonAt(j.items[i], path[1..]) else None
      case Field(k) => if j.JObject? && k in j.fields then JsonAt(j.fields[k], path[1..]) else None
  }

  /** How the value at one position shows. */
  ghost predicate ShowsAs(w: Property, j: Json) {
    match w
    case Null => j.JNull?
    case Bool(b) => j.JBool? && j.b == b
    case Number(n) => j.JNumber? && j.n == n
    case Text(s) => j.JText? && j.s == s
    case Array(items) => j.JArray? && |j.items| == |items|
    case Object(fields) => j.JObject? && j.fields.Keys == fields.Keys
    case Secret(_) => j == JText("[secret]")
    case Output(_, known, _) => j == if known then JText("[secret]") else JNull
    case Asset(hash) => j == JObject(map["asset" := JText(hash)])
    case Archive(hash) => j == JObject(map["archive" := JText(hash)])
    case Computed(_) => j.JNull?
    case Reference(urn) => j == JText(urn)
  }

  lemma {:induction false} UnwrappedRendersAlike(v: Property, show: bool)
    ensures ToJson(v, show) == ToJson(Unwrapped(v, show), show)
    ensures ShowsAs(Unwrapped(v, show), ToJson(v, show))
  {
    match v
    case Secret(e) =>
      if show {
        UnwrappedRendersAlike(e, show);
      }
    case Output(e, known, secret) =>
      if known && (show || !secret) {
        UnwrappedRendersAlike(e, show);
      }
    case _ =>
  }

  /**
   Position by position: whatever path leads to a place in the value, looking through the wrappers that
   may be looked through, leads to its rendering. Arrays keep their length and order and objects their
   keys, every hidden secret shows as the redaction text, and what is not known as null.
   */
  lemma {:induction false} RenderedAt(v: Property, path: seq<Step>, show: bool)
    requires PropertyAt(v, path, show).Some?
    ensures JsonAt(ToJson(v, show), path).Some?
    ensures ShowsAs(PropertyAt(v, path, show).value, JsonAt(ToJson(v, show), path).value)
    decreases |path|
  {
    UnwrappedRendersAlike(v, show);
    if path != [] {
      var w := Unwrapped(v, show);
      match path[0]
      case Item(i) => RenderedAt(w.items[i], path[1..], show);
      case Field(k) => RenderedAt(w.fields[k], path[1..], show);
    }
  }

  // ----- Noninterference -----

  /** Equal except inside secret wrappers and known secret outputs, at any depth. */
  ghost predicate SameOutsideSecrets(v: Property, w: Property) {
    match v
    case Secret(_) => w.Secret?
    case Output(e, known, secret) =>
      w.Output? && w.known == known && w.secret == secret && (secret || SameOutsideSecrets(e, w.value))
    case Computed(e) => w.Computed? && SameOutsideSecrets(e, w.element)
    case Array(items) =>
      && w.Array? && |w.items| == |items|
      && forall i :: 0 <= i < |items| ==> SameOutsideSecrets(items[i], w.items[i])
    case Object(fields) =>
      && w.Object? && w.fields.Keys == fields.Keys
      && forall k :: k in fields ==> SameOutsideSecrets(fields[k], w.fields[k])
    case _ => v == w
  }

  /** What is rendered without `showSecrets` does not depend on any secret. */
  lemma {:induction false} Noninterference(v: Property, w: Property)
    requires SameOutsideSecrets(v, w)
    ensures ToJson(v, false) == ToJson(w, false)
    ensures ContainsSecrets(v) == ContainsSecrets(w)
  {
    match v
    case Array(items) =>
      forall i | 0 <= i < |items|
        ensures ToJson(items[i], false) == ToJson(w.items[i], false)
        ensures ContainsSecrets(items[i]) == ContainsSecrets(w.items[i])
      {
        Noninterference(items[i], w.items[i]);
      }
    case Object(fields) =>
      forall k | k in fields
        ensures ToJson(fields[k], false) == ToJson(w.fields[k], false)
        ensures ContainsSecrets(fields[k]) == ContainsSecrets(w.fields[k])
      {
        Noninterference(fields[k], w.fields[k]);
      }
    case Output(e, known, secret) =>
      if !secret {
        Noninterference(e, w.value);
      }
    case Computed(e) => Noninterference(e, w.element);
    case _ =>
  }

  /** The value with everything inside secrets blanked out, at any depth. */
  function Masked(v: Property): Property {
    match v
    case Secret(_) => Secret(Null)
    case Output(e, known, secret) => Output(if secret then Null else Masked(e), known, secret)
    case Computed(e) => Computed(Masked(e))
    case Array(items) => Array(seq(|items|, i requires 0 <= i < |items| => Masked(items[i])))
    case Object(fields) => Object(map k | k in fields :: Masked(fields[k]))
    case _ => v
  }

  lemma SameLists(a: seq<Property>, b: seq<Property>)
    requires |a| == |b|
    ensures a == b <==> forall i :: 0 <= i < |a| ==> a[i] == b[i]
  {
  }

  lemma SameMaps(a: map<string, Property>, b: map<string, Property>)
    requires a.Keys == b.Keys
    ensures a == b <==> forall k :: k in a ==> a[k] == b[k]
  {
    if forall k :: k in a ==> a[k] == b[k] {
      assert forall k :: k in a <==> k in a.Keys;
      assert forall k :: k in b <==> k in b.Keys;
    }
  }

  /** Two values are the same outside secrets exactly when they are equal with the secrets blanked out. */
  lemma {:induction false} SameIffMaskedSame(v: Property, w: Property)
    ensures SameOutsideSecrets(v, w) <==> Masked(v) == Masked(w)
  {
    match v
    case Array(items) =>
      if w.Array? && |w.items| == |items| {
        forall i | 0 <= i < |items|
          ensures SameOutsideSecrets(items[i], w.items[i]) <==> Masked(v).items[i] == Masked(w).items[i]
        {
          SameIffMaskedSame(items[i], w.items[i]);
        }
        SameLists(Masked(v).items, Masked(w).items);
      }
    case Object(fields) =>
      if w.Object? && w.fields.Keys == fields.Keys {
        forall k | k in fields
          ensures SameOutsideSecrets(fields[k], w.fields[k]) <==> Masked(v).fields[k] == Masked(w).fields[k]
        {
          SameIffMaskedSame(fields[k], w.fields[k]);
        }
        SameMaps(Masked(v).fields, Masked(w).fields);
      } else if w.Object? {
        assert Masked(v).fields.Keys == fields.Keys && Masked(w).fields.Keys == w.fields.Keys;
      }
    case Output(e, known, secret) =>
      if w.Output? {
        SameIffMaskedSame(e, w.value);
      }
    case Computed(e) =>
      if w.Computed? {
        SameIffMaskedSame(e, w.element);
      }
    case _ =>
  }

  // ----- Showing secrets -----

  /** The value with every secret wrapper taken off and every secret mark cleared. */
  function Strip(v: Property): Property {
    match v
    case Secret(e) => Strip(e)
    case Output(e, known, _) => Output(Strip(e), known, false)
    case Computed(e) => Computed(Strip(e))
    case Array(items) => Array(seq(|items|, i requires 0 <= i < |items| => Strip(items[i])))
    case Object(fields) => Object(map k | k in fields :: Strip(fields[k]))
    case _ => v
  }

  /** Showing secrets renders the stripped value, which holds no secret and renders alike either way. */
  lemma {:induction false} ShowingIsStripping(v: Property, show: bool)
    ensures ToJson(v, true) == ToJson(Strip(v), show)
    ensures !ContainsSecrets(Strip(v))
  {
    match v
    case Secret(e) => ShowingIsStripping(e, show);
    case Output(e, _, _) => ShowingIsStripping(e, show);
    case Computed(e) => ShowingIsStripping(e, show);
    case Array(items) =>
      forall i | 0 <= i < |items|
        ensures ToJson(items[i], true) == ToJson(Strip(items[i]), show) && !ContainsSecrets(Strip(items[i]))
      {
        ShowingIsStripping(items[i], show);
      }
    case Object(fields) =>
      forall k | k in fields
        ensures ToJson(fields[k], true) == ToJson(Strip(fields[k]), show) && !ContainsSecrets(Strip(fields[k]))
      {
        ShowingIsStripping(fields[k], show);
      }
    case _ =>
  }

  /** A value without secrets renders the same under both flags, and stripping leaves it alone. */
  lemma {:induction false} NothingToHide(v: Property)
    requires !ContainsSecrets(v)
    ensures ToJson(v, true) == ToJson(v, false)
    ensures Strip(v) == v
  {
    match v
    case Output(e, _, _) => NothingToHide(e);
    case Computed(e) => NothingToHide(e);
    case Array(items) =>
      forall i | 0 <= i < |items|
        ensures ToJson(items[i], true) == ToJson(items[i], false) && Strip(items[i]) == items[i]
      {
        NothingToHide(items[i]);
      }
    case Object(fields) =>
      forall k | k in fields
        ensures ToJson(fields[k], true) == ToJson(fields[k], false) && Strip(fields[k]) == fields[k]
      {
        NothingToHide(fields[k]);
      }
    case _ =>
  }

  // ----- Sorting keys -----

  ghost predicate Increasing(keys: seq<string>) {
    forall i, j :: 0 <= i < j < |keys| ==> Less(keys[i], keys[j])
  }

  function Insert(keys: seq<string>, k: string): seq<string> {
    if keys == [] then [k]
    else if Less(k, keys[0]) then [k] + keys
    else [keys[0]] + Insert(keys[1..], k)
  }

  function Sorted(keys: seq<string>): seq<string> {
    if keys == [] then [] else Insert(Sorted(keys[1..]), keys[0])
  }

  lemma {:induction false} InsertHolds(keys: seq<string>, k: string)
    ensures forall x :: x in Insert(keys, k) <==> x == k || x in keys
  {
    if keys != [] && !Less(k, keys[0]) {
      InsertHolds(keys[1..], k);
      assert keys == [keys[0]] + keys[1..];
    }
  }

  lemma {:induction false} InsertIncreases(keys: seq<string>, k: string)
    requires Increasing(keys) && k !in keys
    ensures Increasing(Insert(keys, k))
  {
    if keys != [] {
      var rest := keys[1..];
      assert keys == [keys[0]] + rest;
      if Less(k, keys[0]) {
        forall j | 0 <= j < |keys|
          ensures Less(k, keys[j])
        {
          if j > 0 {
            LessIsTransitive(k, keys[0], keys[j]);
          }
        }
      } else {
        LessIsTotal(k, keys[0]);
        InsertIncreases(rest, k);
        InsertHolds(rest, k);
        var tail := Insert(rest, k);
        forall j | 0 <= j < |tail|
          ensures Less(keys[0], tail[j])
        {
          assert tail[j] in tail;
        }
      }
    }
  }

  lemma {:induction false} SortedIncreases(keys: seq<string>)
    requires forall i, j :: 0 <= i < j < |keys| ==> keys[i] != keys[j]
    ensures Increasing(Sorted(keys))
    ensures forall x :: x in Sorted(keys) <==> x in keys
  {
    if keys != [] {
      SortedIncreases(keys[1..]);
      InsertIncreases(Sorted(keys[1..]), keys[0]);
      InsertHolds(Sorted(keys[1..]), keys[0]);
      assert keys == [keys[0]] + keys[1..];
    }
  }

  lemma HeadIsLeast(keys: seq<string>)
    requires Increasing(keys) && keys != []
    ensures forall x :: x in keys[1..] <==> x in keys && x != keys[0]
  {
    forall i | 1 <= i < |keys|
      ensures keys[i] != keys[0]
    {
      LessIsTotal(keys[0], keys[i]);
    }
    assert keys == [keys[0]] + keys[1..];
  }

  /** An increasing list is determined by its elements, so the order of map iteration cannot show. */
  lemma {:induction false} IncreasingIsUnique(a: seq<string>, b: seq<string>)
    requires Increasing(a) && Increasing(b)
    requires forall x :: x in a <==> x in b
    ensures a == b
  {
    if a == [] {
      assert forall i :: 0 <= i < |b| ==> b[i] in b;
    } else {
      assert a[0] in b && b != [] && b[0] in a;
      LessIsTotal(a[0], b[0]);
      assert a[0] == b[0];
      HeadIsLeast(a);
      HeadIsLeast(b);
      forall x
        ensures x in a[1..] <==> x in b[1..]
      {
        assert x in a[1..] <==> x in a && x != a[0];
        assert x in b[1..] <==> x in b && x != b[0];
      }
      IncreasingIsUnique(a[1..], b[1..]);
    }
  }

  // ----- Stack.Outputs -----

  const ROOT_TYPE: string := "pulumi:pulumi:Stack"

  datatype Resource = Resource(ty: string, parent: string, outputs: map<string, Property>)

  datatype Outputs = Outputs(values: map<string, Json>, secretKeys: seq<string>)

  /** A root stack: of the stack type, and without a parent. */
  predicate IsRoot(r: Resource) {
    r.ty == "pulumi:pulumi:Stack" && r.parent == ""
  }

  /** The first root stack of a checkpoint is the one at `i`. */
  ghost predicate FirstRoot(resources: seq<Resource>, i: nat) {
    i < |resources| && IsRoot(resources[i]) && forall j :: 0 <= j < i ==> !IsRoot(resources[j])
  }

  /** The outputs as they are reported: every value rendered, and the keys that hold secrets in order. */
  ghost predicate Reports(out: Outputs, root: map<string, Property>, show: bool) {
    && out.values == (map k | k in root :: ToJson(root[k], show))
    && Increasing(out.secretKeys)
    && forall k :: k in out.secretKeys <==> k in root && ContainsSecrets(root[k])
  }

  /** The loop over one resource's outputs, in whatever order the map yields them. */
  method Render(root: map<string, Property>, show: bool) returns (out: Outputs)
    ensures Reports(out, root, show)
  {
    var values: map<string, Json> := map[];
    var secretKeys: seq<string> := [];
    var todo := root.Keys;
    while todo != {}
      invariant todo <= root.Keys
      invariant values == map k | k in root && k !in todo :: ToJson(root[k], show)
      invariant forall k :: k in secretKeys <==> k in root && k !in todo && ContainsSecrets(root[k])
      invariant forall a, b :: 0 <= a < b < |secretKeys| ==> secretKeys[a] != secretKeys[b]
      decreases |todo|
    {
      var k :| k in todo;
      if ContainsSecrets(root[k]) {
        secretKeys := secretKeys + [k];
      }
      values := values[k := ToJson(root[k], show)];
      todo := todo - {k};
    }
    SortedIncreases(secretKeys);
    out := Outputs(values, Sorted(secretKeys));
  }

  /** `Stack.Outputs` on the latest checkpoint; no snapshot, or no root stack in it, gives no outputs. */
  method StackOutputs(snapshot: Option<seq<Resource>>, show: bool) returns (out: Outputs)
    ensures snapshot.None? ==> out == Outputs(map[], [])
    ensures snapshot.Some? && (forall i :: 0 <= i < |snapshot.value| ==> !IsRoot(snapshot.value[i])) ==>
              out == Outputs(map[], [])
    ensures forall i: nat :: snapshot.Some? && FirstRoot(snapshot.value, i) ==>
                          Reports(out, snapshot.value[i].outputs, show)
  {
    if snapshot.None? {
      return Outputs(map[], []);
    }
    var resources := snapshot.value;
    for i := 0 to |resources|
      invariant forall j :: 0 <= j < i ==> !IsRoot(resources[j])
    {
      if resources[i].ty != ROOT_TYPE || resources[i].parent != "" {
        continue;
      }
      out := Render(resources[i].outputs, show);
      return;
    }
    out := Outputs(map[], []);
  }

  /** A root output that is not listed in `SecretKeys` is reported alike under both flags. */
  lemma UnlistedKeysAgree(root: map<string, Property>, hidden: Outputs, shown: Outputs, k: string)
    requires Reports(hidden, root, false) && Reports(shown, root, true)
    requires k in root
    ensures hidden.secretKeys == shown.secretKeys
    ensures k !in hidden.secretKeys ==> hidden.values[k] == shown.values[k]
    ensures shown.values[k] == ToJson(Strip(root[k]), false)
  {
    IncreasingIsUnique(hidden.secretKeys, shown.secretKeys);
    if k !in hidden.secretKeys {
      NothingToHide(root[k]);
    }
    ShowingIsStripping(root[k], false);
  }

  /** Two checkpoints that differ only inside secrets are reported identically without `showSecrets`. */
  lemma OutputsHideSecrets(a: map<string, Property>, b: map<string, Property>, x: Outputs, y: Outputs)
    requires a.Keys == b.Keys && forall k :: k in a ==> SameOutsideSecrets(a[k], b[k])
    requires Reports(x, a, false) && Reports(y, b, false)
    ensures x == y
  {
    forall k | k in a
      ensures ToJson(a[k], false) == ToJson(b[k], false) && ContainsSecrets(a[k]) == ContainsSecrets(b[k])
    {
      Noninterference(a[k], b[k]);
    }
    IncreasingIsUnique(x.secretKeys, y.secretKeys);
  }
}
