/** Decision cycles: the canonical arrangement of the evidence and the key under which a
    cycle is cached. */
module Cycle {
  import opened Basics
  import opened Order
  import opened Json
  import opened JsonReader
  import opened CanonicalText
  import opened Contracts

  /** The hash library. The envelope and package digests hash canonical text; sha hashes a
      text and carries the algorithm prefix. */
  datatype Hashing = Hashing(
    envelope: Envelope -> string, package: Package -> string, sha: string -> string, repr: real -> string)

  /** The uuid5 library and the float printer. */
  datatype Naming = Naming(uuid: string -> string, repr: real -> string)

  /** The digests tell the items in play apart. */
  ghost predicate CollisionFree(hash: Hashing, items: seq<Envelope>) {
    forall a, b :: a in items && b in items && hash.envelope(a) == hash.envelope(b) ==> a == b
  }

  function SortKey(hash: Hashing, e: Envelope): seq<string> {
    [e.metadata.producer, e.metadata.id, e.assurance.digest, hash.envelope(e), e.metadata.correlationId]
  }

  function SortKeys(hash: Hashing): Envelope -> seq<string> {
    (e: Envelope) => SortKey(hash, e)
  }

  /** The order in which the kernel looks at the evidence. */
  function Arrange(hash: Hashing, evidence: seq<Envelope>): seq<Envelope> {
    Sort(evidence, ByKey(SortKeys(hash), TupleLe))
  }

  function ScopeJson(s: Scope): Json {
    var tenant: map<string, Json> := map["tenant" := JStr(s.tenant)];
    var namespace: map<string, Json> := if s.namespace.Some? then map["namespace" := JStr(s.namespace.value)] else map[];
    var environment: map<string, Json> := if s.environment.Some? then map["environment" := JStr(s.environment.value)] else map[];
    JObj(tenant + namespace + environment)
  }

  function SubjectJson(s: Subject): Json {
    var fixed: map<string, Json> := map["type" := JStr(s.kind), "id" := JStr(s.id)];
    var version: map<string, Json> := if s.version.Some? then map["version" := JStr(s.version.value)] else map[];
    JObj(fixed + version)
  }

  function TextJson(s: string): Json { JStr(s) }

  function TupleJson(key: seq<string>): Json { JArr(Map(TextJson, key)) }

  function CyclePayload(keys: seq<seq<string>>, scope: Scope): Json {
    JObj(map["scope" := ScopeJson(scope), "evidence" := JArr(Map(TupleJson, keys))])
  }

  function CycleText(hash: Hashing, evidence: seq<Envelope>, scope: Scope): string {
    Print(hash.repr, CyclePayload(Sort(Map(SortKeys(hash), evidence), TupleLe), scope))
  }

  function CycleKey(hash: Hashing, evidence: seq<Envelope>, scope: Scope): string {
    hash.sha(CycleText(hash, evidence, scope))
  }

  // ----- Evidence order is irrelevant -----

  /** The same evidence in any order is one cycle. */
  lemma CycleKeyIgnoresOrder(hash: Hashing, a: seq<Envelope>, b: seq<Envelope>, scope: Scope)
    requires multiset(a) == multiset(b)
    ensures CycleKey(hash, a, scope) == CycleKey(hash, b, scope)
  {
    var key := SortKeys(hash);
    TupleOrder();
    MapPermuted(key, a, b);
    SortCanonical(Map(key, a), Map(key, b), TupleLe);
  }

  lemma {:induction false} MapPermuted<T, U>(f: T -> U, a: seq<T>, b: seq<T>)
    requires multiset(a) == multiset(b)
    ensures multiset(Map(f, a)) == multiset(Map(f, b))
  {
    if a == [] {
      MultisetMembers(a, b);
    } else {
      var i := TakeOutHead(a, b);
      MapPermuted(f, a[1..], b[..i] + b[i + 1..]);
      MapTail(f, a);
      MapTakeOut(f, b, i);
    }
  }

  lemma MapTail<T, U>(f: T -> U, xs: seq<T>)
    requires xs != []
    ensures multiset(Map(f, xs)) == multiset{f(xs[0])} + multiset(Map(f, xs[1..]))
  {
    assert Map(f, xs) == [f(xs[0])] + Map(f, xs[1..]);
  }

  lemma MapTakeOut<T, U>(f: T -> U, xs: seq<T>, i: nat)
    requires i < |xs|
    ensures multiset(Map(f, xs)) == multiset{f(xs[i])} + multiset(Map(f, xs[..i] + xs[i + 1..]))
  {
    var ys := Map(f, xs);
    TakeOut(ys, i);
    assert ys[..i] + ys[i + 1..] == Map(f, xs[..i] + xs[i + 1..]);
  }

  lemma ArrangeAntisymmetric(hash: Hashing, items: seq<Envelope>)
    requires CollisionFree(hash, items)
    ensures TotalPreorder(ByKey(SortKeys(hash), TupleLe))
    ensures AntisymmetricOn(ByKey(SortKeys(hash), TupleLe), items)
  {
    TupleOrder();
    ByKeyPreorder(SortKeys(hash), TupleLe);
    forall x, y | x in items && y in items && TupleLe(SortKey(hash, x), SortKey(hash, y))
                  && TupleLe(SortKey(hash, y), SortKey(hash, x))
      ensures x == y
    {
      assert SortKey(hash, x)[3] == SortKey(hash, y)[3];
    }
  }

  /** Every port sees the same tuple, whatever order the evidence came in; two cycles with
      different evidence show different tuples. */
  lemma ArrangeIgnoresOrder(hash: Hashing, a: seq<Envelope>, b: seq<Envelope>)
    requires CollisionFree(hash, a)
    ensures multiset(a) == multiset(b) <==> Arrange(hash, a) == Arrange(hash, b)
  {
    ArrangeAntisymmetric(hash, a);
    SortCanonical(a, b, ByKey(SortKeys(hash), TupleLe));
  }

  /** Arranging twice is arranging once, so the key of the arranged evidence is the key of
      the evidence. */
  lemma ArrangedKey(hash: Hashing, evidence: seq<Envelope>, scope: Scope)
    ensures CycleKey(hash, Arrange(hash, evidence), scope) == CycleKey(hash, evidence, scope)
  {
    CycleKeyIgnoresOrder(hash, Arrange(hash, evidence), evidence, scope);
  }

  // ----- The key binds the evidence and the scope -----

  lemma ScopeJsonInjective(s: Scope, t: Scope)
    requires ScopeJson(s) == ScopeJson(t)
    ensures s == t
  {
    var m, n := ScopeJson(s).fields, ScopeJson(t).fields;
    assert m["tenant"] == JStr(s.tenant) && n["tenant"] == JStr(t.tenant);
    assert "namespace" in m <==> s.namespace.Some?;
    assert "namespace" in n <==> t.namespace.Some?;
    assert "environment" in m <==> s.environment.Some?;
    assert "environment" in n <==> t.environment.Some?;
    assert s.namespace.Some? ==> m["namespace"] == JStr(s.namespace.value);
    assert t.namespace.Some? ==> n["namespace"] == JStr(t.namespace.value);
    assert s.environment.Some? ==> m["environment"] == JStr(s.environment.value);
    assert t.environment.Some? ==> n["environment"] == JStr(t.environment.value);
  }

  lemma TupleJsonInjective(a: seq<string>, b: seq<string>)
    requires TupleJson(a) == TupleJson(b)
    ensures a == b
  {
    var x, y := Map(TextJson, a), Map(TextJson, b);
    assert x == y;
    assert |a| == |b|;
    forall i | 0 <= i < |a| ensures a[i] == b[i] {
      assert x[i] == JStr(a[i]) && y[i] == JStr(b[i]);
    }
  }

  lemma PayloadInjective(a: seq<seq<string>>, s: Scope, b: seq<seq<string>>, t: Scope)
    requires CyclePayload(a, s) == CyclePayload(b, t)
    ensures a == b && s == t
  {
    var m, n := CyclePayload(a, s).fields, CyclePayload(b, t).fields;
    assert m["scope"] == n["scope"] && m["evidence"] == n["evidence"];
    ScopeJsonInjective(s, t);
    var x, y := Map(TupleJson, a), Map(TupleJson, b);
    assert x == y;
    forall i | 0 <= i < |a| ensures a[i] == b[i] {
      assert x[i] == TupleJson(a[i]) && y[i] == TupleJson(b[i]);
      TupleJsonInjective(a[i], b[i]);
    }
  }

  lemma PayloadHasNoFloats(keys: seq<seq<string>>, scope: Scope)
    ensures Within(CyclePayload(keys, scope), iset{})
  {
    var fields := CyclePayload(keys, scope).fields;
    assert Within(ScopeJson(scope), iset{});
    forall i | 0 <= i < |keys| ensures Within(Map(TupleJson, keys)[i], iset{}) {
      assert Map(TupleJson, keys)[i] == JArr(Map(TextJson, keys[i]));
    }
    assert Within(fields["evidence"], iset{});
  }

  lemma ArrangedKeys(hash: Hashing, evidence: seq<Envelope>)
    ensures Sort(Map(SortKeys(hash), evidence), TupleLe) == Map(SortKeys(hash), Arrange(hash, evidence))
  {
    SortByKey(SortKeys(hash), evidence, TupleLe);
  }

  lemma SameKeysSameItems(hash: Hashing, a: seq<Envelope>, b: seq<Envelope>)
    requires CollisionFree(hash, a + b)
    requires Map(SortKeys(hash), a) == Map(SortKeys(hash), b)
    ensures a == b
  {
    var x, y := Map(SortKeys(hash), a), Map(SortKeys(hash), b);
    assert |a| == |x| == |y| == |b|;
    forall i | 0 <= i < |a| ensures a[i] == b[i] {
      assert x[i] == SortKey(hash, a[i]) && y[i] == SortKey(hash, b[i]);
      assert x[i][3] == y[i][3];
      assert a[i] in a + b && b[i] in a + b;
    }
  }

  /** Two cycles share a key exactly when they have the same evidence and the same scope. */
  lemma CycleKeyBinds(hash: Hashing, a: seq<Envelope>, s: Scope, b: seq<Envelope>, t: Scope)
    requires CollisionFree(hash, a + b)
    requires hash.sha(CycleText(hash, a, s)) == hash.sha(CycleText(hash, b, t))
         ==> CycleText(hash, a, s) == CycleText(hash, b, t)
    ensures CycleKey(hash, a, s) == CycleKey(hash, b, t) <==> multiset(a) == multiset(b) && s == t
  {
    if CycleKey(hash, a, s) == CycleKey(hash, b, t) {
      var key := SortKeys(hash);
      var x, y := Sort(Map(key, a), TupleLe), Sort(Map(key, b), TupleLe);
      PayloadHasNoFloats(x, s);
      PayloadHasNoFloats(y, t);
      CanonicalTextDetermines(hash.repr, iset{}, CyclePayload(x, s), CyclePayload(y, t));
      PayloadInjective(x, s, y, t);
      ArrangedKeys(hash, a);
      ArrangedKeys(hash, b);
      ArrangedMembers(hash, a, b);
      SameKeysSameItems(hash, Arrange(hash, a), Arrange(hash, b));
      assert multiset(a) == multiset(Arrange(hash, a)) == multiset(b);
    } else if multiset(a) == multiset(b) && s == t {
      CycleKeyIgnoresOrder(hash, a, b, s);
    }
  }

  lemma ArrangedMembers(hash: Hashing, a: seq<Envelope>, b: seq<Envelope>)
    requires CollisionFree(hash, a + b)
    ensures CollisionFree(hash, Arrange(hash, a) + Arrange(hash, b))
  {
    var x, y := Arrange(hash, a), Arrange(hash, b);
    SortMembers(a, ByKey(SortKeys(hash), TupleLe));
    SortMembers(b, ByKey(SortKeys(hash), TupleLe));
    assert forall e :: e in x + y ==> e in a + b;
  }

  // ----- What the key is taken over -----

  predicate TextOrAbsent(fields: map<string, Json>, key: string, text: Option<string>) {
    if text.Some? then key in fields && fields[key] == JStr(text.value) else key !in fields
  }

  predicate SaysScope(j: Json, s: Scope) {
    && j.JObj? && j.fields.Keys <= {"tenant", "namespace", "environment"}
    && TextOrAbsent(j.fields, "tenant", Some(s.tenant)) && TextOrAbsent(j.fields, "namespace", s.namespace)
    && TextOrAbsent(j.fields, "environment", s.environment)
  }

  /** What is listed of an item: where it comes from, which it is, and what it and its artifact
      hash to. */
  function RowOf(hash: Hashing, e: Envelope): seq<string> {
    [e.metadata.producer, e.metadata.id, e.assurance.digest, hash.envelope(e), e.metadata.correlationId]
  }

  ghost predicate InRowOrder(hash: Hashing, items: seq<Envelope>) {
    forall i, k :: 0 <= i < k < |items| ==>
      RowOf(hash, items[i]) == RowOf(hash, items[k]) || TuplePrecedes(RowOf(hash, items[i]), RowOf(hash, items[k]))
  }

  /** The rows of all items in lexicographic order, each an array of five texts. */
  ghost predicate SaysEvidence(hash: Hashing, j: Json, evidence: seq<Envelope>) {
    && j.JArr?
    && exists items: seq<Envelope> :: multiset(items) == multiset(evidence) && InRowOrder(hash, items) && |items| == |j.items|
         && forall i :: 0 <= i < |items| ==> j.items[i] == TupleJson(RowOf(hash, items[i]))
  }

  lemma ScopeIsSaid(s: Scope)
    ensures SaysScope(ScopeJson(s), s)
  {
  }

  lemma ArrangedInOrder(hash: Hashing, evidence: seq<Envelope>)
    ensures InRowOrder(hash, Arrange(hash, evidence))
  {
    hide TuplePrecedes, LexLe;
    var items := Arrange(hash, evidence);
    TupleOrder();
    ByKeyPreorder(SortKeys(hash), TupleLe);
    SortSorts(evidence, ByKey(SortKeys(hash), TupleLe));
    hide Sort;
    forall i, k | 0 <= i < k < |items|
      ensures RowOf(hash, items[i]) == RowOf(hash, items[k]) || TuplePrecedes(RowOf(hash, items[i]), RowOf(hash, items[k]))
    {
      assert ByKey(SortKeys(hash), TupleLe)(items[i], items[k]);
      TupleLePrecedes(RowOf(hash, items[i]), RowOf(hash, items[k]));
    }
  }

  lemma RowsAreSaid(hash: Hashing, evidence: seq<Envelope>)
    ensures SaysEvidence(hash, JArr(Map(TupleJson, Sort(Map(SortKeys(hash), evidence), TupleLe))), evidence)
  {
    hide InRowOrder, TupleJson, Sort;
    var items := Arrange(hash, evidence);
    ArrangedKeys(hash, evidence);
    ArrangedInOrder(hash, evidence);
    var rows := Map(TupleJson, Map(SortKeys(hash), items));
    assert forall i :: 0 <= i < |items| ==> rows[i] == TupleJson(RowOf(hash, items[i]));
  }

  /** The cycle key is the hash of a JSON text that says the scope and one row for every item, in
      lexicographic order, and nothing else. */
  lemma CycleKeySays(hash: Hashing, float: FloatReader, evidence: seq<Envelope>, scope: Scope) returns (text: string, said: Json)
    ensures CycleKey(hash, evidence, scope) == hash.sha(text) && ReadText(float, text) == Some(said)
    ensures said.JObj? && said.fields.Keys == {"scope", "evidence"}
    ensures SaysScope(said.fields["scope"], scope) && SaysEvidence(hash, said.fields["evidence"], evidence)
  {
    hide Print, ReadText, ScopeJson, SaysEvidence, SaysScope;
    text := CycleText(hash, evidence, scope);
    var keys := Sort(Map(SortKeys(hash), evidence), TupleLe);
    said := CyclePayload(keys, scope);
    PayloadHasNoFloats(keys, scope);
    CanonicalTextReads(hash.repr, iset{}, float, said);
    ScopeIsSaid(scope);
    RowsAreSaid(hash, evidence);
  }
}
