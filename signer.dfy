/**
 * The ECommPay signing protocol (`Helpers/Signer.cs`).
 *
 * A JSON object is flattened into a dictionary of path -> string entries (paths join
 * member names and array indices with `:`), each entry is rendered `key:value`, the
 * renderings are sorted and joined with `;`, and that canonical string is signed with
 * HMAC-SHA512 under the secret key and Base64-encoded. A payload is valid when its
 * top-level `signature` entry equals the signature of its other entries.
 */
module Signer {
  import opened Wrappers
  import opened Text
  import opened Dictionaries
  import opened Sorting
  import opened Json

  /** The library calls the signer makes. */
  datatype Primitives = Primitives(
    /** HMAC-SHA512 of the UTF-8 bytes of the payload (second) under the UTF-8 bytes of the key (first), in Base64. */
    hmacBase64: (string, string) -> string,
    /** The string order of `OrderBy(value => value)`. */
    le: (string, string) -> bool,
    /** `JObject.Parse`; `None` where it throws `JsonReaderException`. */
    parseObject: string -> Option<JsonObject>,
    /** `JsonConvert.SerializeObject` with `NullValueHandling.Ignore`. */
    serialize: Json -> string,
    /** `ToUniversalTime().ToString("yyyy-MM-ddTHH:mm:ss+0000")` of a date token. */
    formatUtc: int -> string)

  const SignatureKey: string := "signature"

  // ---------------------------------------------------------------------------
  // Flattening (AddParameter, GetParametersFromJson)

  function BooleanText(b: bool): string {
    if b then "1" else "0"
  }

  /** The dictionary writes `AddParameter(name, v, ...)` performs, in order. */
  function Writes(p: Primitives, name: string, v: Json): seq<Entry>
    decreases v, 1
  {
    match v
    case JObject(ms) => MemberWrites(p, name + ":", v, |ms|)
    case JArray(items) => if |items| == 0 then [] else ItemWrites(p, name, v, |items|)
    case JText(_, text) => [(name, text)]
    case JBoolean(b) => [(name, BooleanText(b))]
    case JDate(t) => [(name, p.formatUtc(t))]
    case JNull => [(name, "")]
    case JOther(_) => []
  }

  /** The writes for the first `k` members of an object, each named `prefix` + member name. */
  function MemberWrites(p: Primitives, prefix: string, parent: Json, k: nat): seq<Entry>
    requires parent.JObject? && k <= |parent.members|
    decreases parent, 0, k
  {
    if k == 0 then []
    else
      MemberWrites(p, prefix, parent, k - 1)
      + Writes(p, prefix + parent.members[k - 1].0, parent.members[k - 1].1)
  }

  /** The writes for the first `k` items of an array, item `i` named `name:i`. */
  function ItemWrites(p: Primitives, name: string, parent: Json, k: nat): seq<Entry>
    requires parent.JArray? && k <= |parent.items|
    decreases parent, 0, k
  {
    if k == 0 then []
    else ItemWrites(p, name, parent, k - 1) + Writes(p, name + ":" + IntToString(k - 1), parent.items[k - 1])
  }

  /** The writes for a top-level object: each member under its own name. */
  function ObjectWrites(p: Primitives, o: JsonObject): seq<Entry> {
    MemberWrites(p, "", o, |o.members|)
  }

  /**
   * `GetParametersFromJson`: `None` when the text does not parse as an object or the
   * object has no members, otherwise the dictionary the writes build from empty.
   */
  function Flatten(p: Primitives, json: string): (r: Option<seq<Entry>>)
    ensures r.Some? ==> NoDupKeys(r.value)
  {
    match p.parseObject(json)
    case None => None
    case Some(o) =>
      if |o.members| == 0 then None
      else
        PutAllNoDup([], ObjectWrites(p, o));
        Some(PutAll([], ObjectWrites(p, o)))
  }

  method AddParameter(p: Primitives, name: string, v: Json, parameters: StringDictionary)
    requires parameters.Valid()
    modifies parameters
    ensures parameters.Valid()
    ensures parameters.entries == PutAll(old(parameters.entries), Writes(p, name, v))
    decreases v
  {
    match v
    case JObject(ms) =>
      var i := 0;
      while i < |ms|
        invariant 0 <= i <= |ms|
        invariant parameters.Valid()
        invariant parameters.entries == PutAll(old(parameters.entries), MemberWrites(p, name + ":", v, i))
      {
        AddParameter(p, name + ":" + ms[i].0, ms[i].1, parameters);
        PutAllConcat(old(parameters.entries), MemberWrites(p, name + ":", v, i), Writes(p, name + ":" + ms[i].0, ms[i].1));
        i := i + 1;
      }
    case JArray(items) =>
      if |items| == 0 {
        return;
      }
      var i := 0;
      while i < |items|
        invariant 0 <= i <= |items|
        invariant parameters.Valid()
        invariant parameters.entries == PutAll(old(parameters.entries), ItemWrites(p, name, v, i))
      {
        AddParameter(p, name + ":" + IntToString(i), items[i], parameters);
        PutAllConcat(old(parameters.entries), ItemWrites(p, name, v, i), Writes(p, name + ":" + IntToString(i), items[i]));
        i := i + 1;
      }
    case JText(_, text) =>
      parameters.Set(name, text);
    case JBoolean(b) =>
      parameters.Set(name, if b then "1" else "0");
    case JDate(t) =>
      parameters.Set(name, p.formatUtc(t));
    case JNull =>
      parameters.Set(name, "");
    case JOther(_) =>
  }

  method GetParametersFromJson(p: Primitives, json: string) returns (parameters: StringDictionary?)
    ensures parameters == null <==> Flatten(p, json).None?
    ensures parameters != null ==> fresh(parameters) && parameters.Valid() && parameters.entries == Flatten(p, json).value
  {
    var parsed := p.parseObject(json);
    if parsed.None? {
      return null;
    }
    var o := parsed.value;
    if |o.members| == 0 {
      return null;
    }
    parameters := new StringDictionary();
    var i := 0;
    while i < |o.members|
      invariant 0 <= i <= |o.members|
      invariant fresh(parameters) && parameters.Valid()
      invariant parameters.entries == PutAll([], MemberWrites(p, "", o, i))
    {
      var (key, value) := o.members[i];
      assert "" + key == key;
      AddParameter(p, key, value, parameters);
      PutAllConcat([], MemberWrites(p, "", o, i), Writes(p, key, value));
      i := i + 1;
    }
  }

  // ---------------------------------------------------------------------------
  // Canonical string and signature (GenerateSignature over a dictionary)

  function Render(e: Entry): string {
    e.0 + ":" + e.1
  }

  function RenderAll(es: seq<Entry>): seq<string> {
    if |es| == 0 then [] else [Render(es[0])] + RenderAll(es[1..])
  }

  function Join(sep: string, parts: seq<string>): string {
    if |parts| == 0 then ""
    else if |parts| == 1 then parts[0]
    else parts[0] + sep + Join(sep, parts[1..])
  }

  /** The signed text: the sorted `key:value` renderings, separated by `;`. */
  function CanonicalString(le: (string, string) -> bool, es: seq<Entry>): string {
    Join(";", Sort(le, RenderAll(es)))
  }

  /** `GenerateSignature(key, parameters)`. */
  function GenerateSignature(p: Primitives, key: string, parameters: seq<Entry>): string {
    p.hmacBase64(key, CanonicalString(p.le, parameters))
  }

  /** A dictionary is signed when its `signature` entry is the signature of all the other entries. */
  predicate CheckSignature(p: Primitives, key: string, parameters: seq<Entry>) {
    var actual := Lookup(parameters, SignatureKey);
    actual.Some? && actual.value == GenerateSignature(p, key, Without(parameters, SignatureKey))
  }

  /** `ValidateSignature(key, payload)`. */
  predicate SignatureValid(p: Primitives, key: string, payload: Option<string>) {
    !IsNullOrWhiteSpace(payload)
    && var flattened := Flatten(p, payload.value);
       flattened.Some? && CheckSignature(p, key, flattened.value)
  }

  method ValidateSignature(p: Primitives, key: string, payload: Option<string>) returns (valid: bool)
    ensures valid == SignatureValid(p, key, payload)
    ensures IsNullOrWhiteSpace(payload) ==> !valid
    ensures payload.Some? && Flatten(p, payload.value).None? ==> !valid
    ensures valid ==> SignatureKey in Keys(Flatten(p, payload.value).value)
  {
    if payload.None? || IsBlank(payload.value) {
      return false;
    }
    var parametersToSign := GetParametersFromJson(p, payload.value);
    if parametersToSign == null {
      return false;
    }
    var actualSignature := parametersToSign.TryGetValue(SignatureKey);
    LookupSome(parametersToSign.entries, SignatureKey);
    if actualSignature.None? {
      return false;
    }
    parametersToSign.Remove(SignatureKey);
    var expectedSignature := GenerateSignature(p, key, parametersToSign.entries);
    valid := actualSignature.value == expectedSignature;
  }

  // ---------------------------------------------------------------------------
  // Signing an object (GenerateSignature over an object)

  /** `Keys.First(key => key.Contains(sub))`, or `None` when no key contains `sub`. */
  function FirstKeyContaining(es: seq<Entry>, sub: string): (r: Option<string>)
    ensures r.None? <==> forall i :: 0 <= i < |es| ==> !Contains(es[i].0, sub)
    ensures r.Some? ==> exists i :: 0 <= i < |es| && es[i].0 == r.value && Contains(r.value, sub)
                                    && forall j :: 0 <= j < i ==> !Contains(es[j].0, sub)
  {
    if |es| == 0 then None
    else if Contains(es[0].0, sub) then Some(es[0].0)
    else
      var r := FirstKeyContaining(es[1..], sub);
      assert r.Some? ==> exists i :: 0 <= i < |es| - 1 && es[1..][i].0 == r.value && Contains(r.value, sub)
                                     && forall j :: 0 <= j < i ==> !Contains(es[1..][j].0, sub);
      assert r.Some? ==> exists i :: 1 <= i < |es| && es[i].0 == r.value && Contains(r.value, sub)
                                     && forall j :: 0 <= j < i ==> !Contains(es[j].0, sub) by {
        if r.Some? {
          var i :| 0 <= i < |es| - 1 && es[1..][i].0 == r.value && Contains(r.value, sub)
                   && forall j :: 0 <= j < i ==> !Contains(es[1..][j].0, sub);
          assert es[i + 1].0 == r.value;
          forall j | 0 <= j < i + 1 ensures !Contains(es[j].0, sub) {
            if j > 0 {
              assert es[j] == es[1..][j - 1];
            }
          }
        }
      }
      assert r.None? ==> forall i :: 0 <= i < |es| ==> !Contains(es[i].0, sub) by {
        if r.None? {
          forall i | 0 < i < |es| ensures !Contains(es[i].0, sub) {
            assert es[i] == es[1..][i - 1];
          }
        }
      }
      r
  }

  /** The dictionary an object is signed over: its flattening less the first key containing `signature`. */
  function SigningParameters(es: seq<Entry>): seq<Entry> {
    match FirstKeyContaining(es, SignatureKey)
    case None => es
    case Some(k) => Without(es, k)
  }

  /** `GenerateSignature(key, obj)`: `None` when the serialised object does not flatten. */
  function ObjectSignature(p: Primitives, key: string, obj: Json): Option<string> {
    match Flatten(p, p.serialize(obj))
    case None => None
    case Some(es) => Some(GenerateSignature(p, key, SigningParameters(es)))
  }

  method GenerateObjectSignature(p: Primitives, key: string, obj: Json) returns (signature: Option<string>)
    ensures signature == ObjectSignature(p, key, obj)
  {
    var payload := p.serialize(obj);
    var parameters := GetParametersFromJson(p, payload);
    if parameters == null {
      return None;
    }
    var signatureKey := FirstKeyContaining(parameters.entries, SignatureKey);
    if signatureKey.Some? {
      parameters.Remove(signatureKey.value);
    }
    signature := Some(GenerateSignature(p, key, parameters.entries));
  }

  // ---------------------------------------------------------------------------
  // Properties

  /**
   * Round trip over dictionaries: a dictionary without a `signature` entry, given the
   * entry `signature` = its own signature, is accepted under the same key.
   */
  lemma SignedParametersValidate(p: Primitives, key: string, parameters: seq<Entry>)
    requires NoDupKeys(parameters) && SignatureKey !in Keys(parameters)
    ensures CheckSignature(p, key, Put(parameters, SignatureKey, GenerateSignature(p, key, parameters)))
  {
    var signature := GenerateSignature(p, key, parameters);
    PutAbsent(parameters, SignatureKey, signature);
    LookupAppended(parameters, SignatureKey, signature);
    WithoutAppended(parameters, SignatureKey, signature);
  }

  /** Acceptance is exact: a dictionary is accepted exactly under the signature of its other entries. */
  lemma CheckSignatureExact(p: Primitives, key: string, parameters: seq<Entry>, signature: string)
    requires NoDupKeys(parameters) && SignatureKey !in Keys(parameters)
    ensures CheckSignature(p, key, Put(parameters, SignatureKey, signature))
            <==> signature == GenerateSignature(p, key, parameters)
  {
    PutAbsent(parameters, SignatureKey, signature);
    LookupAppended(parameters, SignatureKey, signature);
    WithoutAppended(parameters, SignatureKey, signature);
  }

  lemma {:induction false} RenderAllConcat(a: seq<Entry>, b: seq<Entry>)
    ensures RenderAll(a + b) == RenderAll(a) + RenderAll(b)
  {
    if |a| == 0 {
      assert a + b == b;
    } else {
      assert (a + b)[0] == a[0] && (a + b)[1..] == a[1..] + b;
      RenderAllConcat(a[1..], b);
    }
  }

  lemma {:induction false} RenderAllMultiset(a: seq<Entry>, b: seq<Entry>)
    requires multiset(a) == multiset(b)
    ensures multiset(RenderAll(a)) == multiset(RenderAll(b))
    decreases |a|
  {
    if |a| == 0 {
      assert |b| == |multiset(b)| == 0;
    } else {
      assert a[0] in multiset(b);
      var i :| 0 <= i < |b| && b[i] == a[0];
      var rest := b[..i] + b[i + 1..];
      MultisetRemove(a, b, i);
      RenderAllMultiset(a[1..], rest);
      RenderAllPick(b, i);
      assert RenderAll(a) == [Render(a[0])] + RenderAll(a[1..]);
      assert multiset(RenderAll(a)) == multiset{Render(a[0])} + multiset(RenderAll(a[1..]));
    }
  }

  /** The same entries are left when the first of `a` and an equal entry of `b` are taken away. */
  lemma MultisetRemove(a: seq<Entry>, b: seq<Entry>, i: nat)
    requires multiset(a) == multiset(b) && |a| > 0 && i < |b| && b[i] == a[0]
    ensures multiset(a[1..]) == multiset(b[..i] + b[i + 1..])
  {
    var rest := b[..i] + b[i + 1..];
    SplitAt(b, i);
    assert multiset(b) == multiset(rest) + multiset{b[i]};
    assert a == [a[0]] + a[1..];
    assert multiset(a) == multiset(a[1..]) + multiset{a[0]};
    forall y ensures multiset(a[1..])[y] == multiset(rest)[y] {
      assert multiset(a)[y] == multiset(b)[y];
    }
  }

  /** Rendering commutes with taking one entry out. */
  lemma RenderAllPick(b: seq<Entry>, i: nat)
    requires i < |b|
    ensures multiset(RenderAll(b)) == multiset{Render(b[i])} + multiset(RenderAll(b[..i] + b[i + 1..]))
  {
    SplitAt(b, i);
    RenderAllMiddle(b[..i], b[i], b[i + 1..]);
  }

  lemma SplitAt(b: seq<Entry>, i: nat)
    requires i < |b|
    ensures b == b[..i] + [b[i]] + b[i + 1..]
  {
  }

  lemma RenderAllMiddle(l: seq<Entry>, x: Entry, r: seq<Entry>)
    ensures multiset(RenderAll(l + [x] + r)) == multiset{Render(x)} + multiset(RenderAll(l + r))
  {
    RenderAllConcat(l + [x], r);
    RenderAllConcat(l, [x]);
    RenderAllConcat(l, r);
    assert [x][1..] == [];
    MultisetMiddle(RenderAll(l), Render(x), RenderAll(r));
  }

  lemma MultisetMiddle(a: seq<string>, x: string, c: seq<string>)
    ensures multiset(a + [x] + c) == multiset{x} + multiset(a + c)
  {
  }

  /**
   * The signature depends only on which entries the dictionary holds, not on their
   * enumeration order.
   */
  lemma GenerateSignatureOrderInvariant(p: Primitives, key: string, a: seq<Entry>, b: seq<Entry>)
    requires TotalOrder(p.le)
    requires multiset(a) == multiset(b)
    ensures GenerateSignature(p, key, a) == GenerateSignature(p, key, b)
  {
    RenderAllMultiset(a, b);
    SortPermutationInvariant(p.le, RenderAll(a), RenderAll(b));
  }

  /** Two dictionaries with the same contents have the same signature. */
  lemma SameContentsSameSignature(p: Primitives, key: string, a: seq<Entry>, b: seq<Entry>)
    requires TotalOrder(p.le)
    requires NoDupKeys(a) && NoDupKeys(b) && ToMap(a) == ToMap(b)
    ensures GenerateSignature(p, key, a) == GenerateSignature(p, key, b)
  {
    SameMapSameEntries(a, b);
    GenerateSignatureOrderInvariant(p, key, a, b);
  }

  // Paths

  /** `x` is the path `name` itself or a path below it. */
  predicate PathUnder(name: string, x: string) {
    name <= x && (|x| == |name| || x[|name|] == ':')
  }

  lemma {:induction false} KeysConcat(a: seq<Entry>, b: seq<Entry>)
    ensures Keys(a + b) == Keys(a) + Keys(b)
  {
    if |a| == 0 {
      assert a + b == b;
    } else {
      assert (a + b)[0] == a[0] && (a + b)[1..] == a[1..] + b;
      KeysConcat(a[1..], b);
    }
  }

  lemma PathUnderParent(name: string, rest: string, x: string)
    requires PathUnder(name + ":" + rest, x)
    ensures PathUnder(name, x)
  {
    assert x[..|name + ":" + rest|] == name + ":" + rest;
    assert x[|name|] == (name + ":" + rest)[|name|];
    assert x[..|name|] == (name + ":" + rest)[..|name|] == name;
  }

  /** Every key flattening a value under `name` writes is `name` or a path below it. */
  lemma {:induction false} WritesPaths(p: Primitives, name: string, v: Json)
    ensures forall x :: x in Keys(Writes(p, name, v)) ==> PathUnder(name, x)
    decreases v, 1
  {
    match v
    case JObject(ms) =>
      MemberWritesPaths(p, name + ":", v, |ms|);
      assert Writes(p, name, v) == MemberWrites(p, name + ":", v, |ms|);
      forall x | x in Keys(Writes(p, name, v)) ensures PathUnder(name, x) {
        var j :| 0 <= j < |ms| && PathUnder(name + ":" + ms[j].0, x);
        PathUnderParent(name, ms[j].0, x);
      }
    case JArray(items) =>
      if |items| > 0 {
        ItemWritesPaths(p, name, v, |items|);
      }
    case JText(_, _) =>
    case JBoolean(_) =>
    case JDate(_) =>
    case JNull =>
    case JOther(_) =>
  }

  lemma {:induction false} MemberWritesPaths(p: Primitives, prefix: string, parent: Json, k: nat)
    requires parent.JObject? && k <= |parent.members|
    ensures forall x :: x in Keys(MemberWrites(p, prefix, parent, k)) ==>
              exists j :: 0 <= j < k && PathUnder(prefix + parent.members[j].0, x)
    decreases parent, 0, k
  {
    if k > 0 {
      var m := parent.members[k - 1];
      MemberWritesPaths(p, prefix, parent, k - 1);
      WritesPaths(p, prefix + m.0, m.1);
      KeysConcat(MemberWrites(p, prefix, parent, k - 1), Writes(p, prefix + m.0, m.1));
    }
  }

  lemma {:induction false} ItemWritesPaths(p: Primitives, name: string, parent: Json, k: nat)
    requires parent.JArray? && k <= |parent.items|
    ensures forall x :: x in Keys(ItemWrites(p, name, parent, k)) ==> PathUnder(name, x)
    decreases parent, 0, k
  {
    if k > 0 {
      var item := name + ":" + IntToString(k - 1);
      ItemWritesPaths(p, name, parent, k - 1);
      WritesPaths(p, item, parent.items[k - 1]);
      KeysConcat(ItemWrites(p, name, parent, k - 1), Writes(p, item, parent.items[k - 1]));
      forall x | x in Keys(Writes(p, item, parent.items[k - 1])) ensures PathUnder(name, x) {
        PathUnderParent(name, IntToString(k - 1), x);
      }
    }
  }

  /** `signature` has no `:` in it, so it is below no path but itself. */
  lemma PathUnderSignature(name: string)
    ensures PathUnder(name, SignatureKey) ==> name == SignatureKey
  {
    assert forall i :: 0 <= i < |SignatureKey| ==> SignatureKey[i] != ':';
  }

  /** A top-level path that is exactly `signature` can only come from a top-level member named `signature`. */
  lemma TopLevelSignatureKey(p: Primitives, o: JsonObject)
    requires forall j :: 0 <= j < |o.members| ==> o.members[j].0 != SignatureKey
    ensures SignatureKey !in Keys(PutAll([], ObjectWrites(p, o)))
  {
    PutAllKeys([], ObjectWrites(p, o));
    MemberWritesPaths(p, "", o, |o.members|);
    forall x | x in Keys(ObjectWrites(p, o)) ensures x != SignatureKey {
      var j :| 0 <= j < |o.members| && PathUnder("" + o.members[j].0, x);
      assert "" + o.members[j].0 == o.members[j].0;
      PathUnderSignature(o.members[j].0);
    }
  }

  /**
   * Fail-closed: a payload whose object has no top-level member named `signature` is
   * rejected, whatever nested `...:signature` entries it carries.
   */
  lemma NestedSignatureRejected(p: Primitives, key: string, payload: string)
    requires p.parseObject(payload).Some?
    requires forall j :: 0 <= j < |p.parseObject(payload).value.members| ==>
               p.parseObject(payload).value.members[j].0 != SignatureKey
    ensures !SignatureValid(p, key, Some(payload))
  {
    var o := p.parseObject(payload).value;
    TopLevelSignatureKey(p, o);
    LookupSome(PutAll([], ObjectWrites(p, o)), SignatureKey);
  }

  lemma {:induction false} MemberWritesSamePrefix(p: Primitives, prefix: string, a: Json, b: Json, k: nat)
    requires a.JObject? && b.JObject? && k <= |a.members| && k <= |b.members|
    requires a.members[..k] == b.members[..k]
    ensures MemberWrites(p, prefix, a, k) == MemberWrites(p, prefix, b, k)
  {
    if k > 0 {
      assert a.members[..k - 1] == a.members[..k][..k - 1];
      assert b.members[..k - 1] == b.members[..k][..k - 1];
      assert a.members[k - 1] == a.members[..k][k - 1];
      assert b.members[k - 1] == b.members[..k][k - 1];
      MemberWritesSamePrefix(p, prefix, a, b, k - 1);
    }
  }

  /**
   * Round trip over JSON: an object without a top-level `signature` member, sent with a
   * `signature` member holding the signature of its own flattening, is accepted.
   */
  lemma SignedObjectValidates(p: Primitives, key: string, o: JsonObject, payload: string)
    requires |o.members| > 0
    requires forall j :: 0 <= j < |o.members| ==> o.members[j].0 != SignatureKey
    requires !IsBlank(payload)
    requires p.parseObject(payload) ==
             Some(JObject(o.members + [(SignatureKey, Str(GenerateSignature(p, key, PutAll([], ObjectWrites(p, o)))))]))
    ensures SignatureValid(p, key, Some(payload))
  {
    var parameters := PutAll([], ObjectWrites(p, o));
    var signature := GenerateSignature(p, key, parameters);
    var signed := p.parseObject(payload).value;
    var n := |o.members|;
    assert signed.members[..n] == o.members;
    assert o.members[..n] == o.members;
    MemberWritesSamePrefix(p, "", signed, o, n);
    assert |signed.members| == n + 1;
    assert signed.members[n] == (SignatureKey, Str(signature));
    assert "" + SignatureKey == SignatureKey;
    assert Writes(p, "" + SignatureKey, Str(signature)) == [(SignatureKey, signature)];
    assert ObjectWrites(p, signed) == MemberWrites(p, "", signed, n) + Writes(p, "" + SignatureKey, Str(signature));
    assert ObjectWrites(p, signed) == ObjectWrites(p, o) + [(SignatureKey, signature)];
    PutAllConcat([], ObjectWrites(p, o), [(SignatureKey, signature)]);
    assert Flatten(p, payload) == Some(Put(parameters, SignatureKey, signature));
    TopLevelSignatureKey(p, o);
    PutAllNoDup([], ObjectWrites(p, o));
    SignedParametersValidate(p, key, parameters);
  }

  /**
   * Object signing removes at most one entry: the first whose key contains `signature`;
   * every other entry, including later keys containing `signature`, is signed.
   */
  lemma SigningParametersRemoveFirst(es: seq<Entry>)
    requires NoDupKeys(es)
    ensures NoDupKeys(SigningParameters(es))
    ensures FirstKeyContaining(es, SignatureKey).None? ==> SigningParameters(es) == es
    ensures FirstKeyContaining(es, SignatureKey).Some? ==>
              Keys(SigningParameters(es)) == Keys(es) - {FirstKeyContaining(es, SignatureKey).value}
  {
    match FirstKeyContaining(es, SignatureKey)
    case None =>
    case Some(k) =>
      WithoutKeys(es, k);
      WithoutNoDup(es, k);
  }
}
