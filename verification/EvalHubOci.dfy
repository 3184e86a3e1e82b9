/** Strict OCI mode: the binder that asks a verifier about every artifact and writes the
    receipts into the evidence, and the exact condition under which the policy accepts them. */
module EvalHubOci {
  import opened Basics
  import opened Order
  import opened Json
  import opened Contracts
  import opened Cycle
  import opened EvalHub
  import opened EvalHubPolicy
  import opened EvalHubAgreement

  // ----- What the policy checks -----

  /** The verification names the artifact, and its receipt is for that artifact's content. */
  ghost predicate BoundTo(codec: Codec, trusted: set<string>, e: Envelope, artifact: Json, verification: Json) {
    && IdentityOfEntry(artifact).Some? && IdentityOfEntry(verification) == IdentityOfEntry(artifact)
    && verification.JObj?
    && var id, receipt := IdentityOfEntry(artifact).value, codec.load(Get(verification.fields, "receipt"));
       && receipt.Some? && receipt.value.verifier in trusted
       && receipt.value.artifactUri == id.reference && receipt.value.artifactDigest == id.digest
       && receipt.value.content != []
       && e.metadata.observedAt <= receipt.value.verifiedAt <= e.metadata.expiresAt
  }

  /** A one-to-one correspondence between artifacts and verifications. */
  ghost predicate Pairing(codec: Codec, trusted: set<string>, e: Envelope, artifacts: seq<Json>, verifications: seq<Json>, partner: seq<nat>) {
    && |partner| == |artifacts| == |verifications| && Distinct(partner)
    && forall i :: 0 <= i < |artifacts| ==>
         partner[i] < |verifications| && BoundTo(codec, trusted, e, artifacts[i], verifications[partner[i]])
  }

  ghost predicate StrictlyVerified(codec: Codec, trusted: set<string>, e: Envelope) {
    var artifacts, verifications := Get(e.extensions, OciArtifacts()), Get(e.extensions, OciVerifications());
    && artifacts.JArr? && artifacts.items != [] && verifications.JArr? && Distinct(Identities(artifacts.items))
    && exists partner :: Pairing(codec, trusted, e, artifacts.items, verifications.items, partner)
  }

  // ----- Sorting identities is canonical -----

  lemma IdentityOrder()
    ensures TotalPreorder(IdentityLe)
    ensures forall a, b :: IdentityLe(a, b) && IdentityLe(b, a) ==> a == b
  {
    StringOrder();
    TupleOrder();
    hide StringLe, TupleLe;
    forall a: Identity, b: Identity, c: Identity | IdentityLe(a, b) && IdentityLe(b, c) ensures IdentityLe(a, c) {
      IdentityTransitive(a, b, c);
    }
    forall a: Identity, b: Identity | IdentityLe(a, b) && IdentityLe(b, a) ensures a == b {
      IdentityAntisymmetric(a, b);
    }
  }

  lemma IdentityTransitive(a: Identity, b: Identity, c: Identity)
    requires IdentityLe(a, b) && IdentityLe(b, c)
    ensures IdentityLe(a, c)
  {
    StringOrder();
    TupleOrder();
    hide StringLe, TupleLe;
  }

  lemma IdentityAntisymmetric(a: Identity, b: Identity)
    requires IdentityLe(a, b) && IdentityLe(b, a)
    ensures a == b
  {
    StringOrder();
    TupleOrder();
    hide StringLe, TupleLe;
    var x, y := [a.providerId, a.reference, a.digest], [b.providerId, b.reference, b.digest];
    assert a.benchmarkId == b.benchmarkId && a.index == b.index && x == y;
    assert x[0] == y[0] && x[1] == y[1] && x[2] == y[2];
  }

  lemma SortedIdentitiesSame(a: seq<Json>, b: seq<Json>)
    requires AllIdentified(a) && AllIdentified(b)
    ensures SortedIdentities(a) == SortedIdentities(b) <==> multiset(Identities(a)) == multiset(Identities(b))
  {
    hide IdentityOfEntry, IdentityLe, Sort;
    IdentityOrder();
    SortCanonical(Map(Named, Identities(a)), Map(Named, Identities(b)), IdentityLe);
    if multiset(Identities(a)) == multiset(Identities(b)) {
      MapPermuted(Named, Identities(a), Identities(b));
    }
    if multiset(Map(Named, Identities(a))) == multiset(Map(Named, Identities(b))) {
      MapPermuted(Wrap, Map(Named, Identities(a)), Map(Named, Identities(b)));
      Rewrapped(a);
      Rewrapped(b);
    }
  }

  function Wrap(x: Identity): Option<Identity> { Some(x) }

  lemma Rewrapped(entries: seq<Json>)
    requires AllIdentified(entries)
    ensures Map(Wrap, Map(Named, Identities(entries))) == Identities(entries)
  {
    hide IdentityOfEntry;
    var ids := Identities(entries);
    forall i | 0 <= i < |ids| ensures Wrap(Named(ids[i])) == ids[i] {
      assert ids[i] in ids;
    }
  }

  // ----- Strict admission is a one-to-one correspondence -----

  /** Two sequences of one length, one without repetitions, that can be paired off one to one
      have the same elements equally often. */
  lemma PairedOff<T>(xs: seq<T>, ys: seq<T>, partner: seq<nat>)
    requires |xs| == |ys| == |partner| && Distinct(xs)
    requires forall i :: 0 <= i < |xs| ==> partner[i] < |ys| && xs[i] == ys[partner[i]]
    ensures multiset(xs) == multiset(ys)
  {
    DistinctOnce(xs);
    forall x ensures multiset(xs)[x] <= multiset(ys)[x] {
      if x in multiset(xs) {
        var i :| 0 <= i < |xs| && xs[i] == x;
        assert ys[partner[i]] in multiset(ys);
      }
    }
    SameSize(multiset(xs), multiset(ys));
  }

  lemma SameSize<T>(a: multiset<T>, b: multiset<T>)
    requires a <= b && |a| == |b|
    ensures a == b
  {
    assert b == a + (b - a);
    assert |b - a| == 0;
  }

  ghost function Partner<T>(x: T, ys: seq<T>): (k: nat)
    requires x in ys
    ensures k < |ys| && ys[k] == x
  {
    var k: nat :| k < |ys| && ys[k] == x;
    k
  }

  /** The pairing by equal elements. */
  lemma PairOff<T>(xs: seq<T>, ys: seq<T>) returns (partner: seq<nat>)
    requires multiset(xs) == multiset(ys) && Distinct(xs)
    ensures |partner| == |xs| == |ys| && Distinct(partner)
    ensures forall i :: 0 <= i < |xs| ==> partner[i] < |ys| && ys[partner[i]] == xs[i]
  {
    MultisetMembers(xs, ys);
    partner := seq(|xs|, i requires 0 <= i < |xs| => Partner(xs[i], ys));
  }

  lemma ReceiptAccepted(codec: Codec, trusted: set<string>, e: Envelope, artifact: Json, verification: Json)
    requires IdentityOfEntry(artifact).Some? && IdentityOfEntry(verification) == IdentityOfEntry(artifact)
    ensures ReceiptProblem(codec, trusted, e, verification).None? <==> BoundTo(codec, trusted, e, artifact, verification)
  {
    hide Get;
  }

  lemma BoundEntries(codec: Codec, trusted: set<string>, e: Envelope, a: seq<Json>, v: seq<Json>, partner: seq<nat>)
    requires Pairing(codec, trusted, e, a, v, partner) && Distinct(Identities(a))
    ensures AllIdentified(a) && AllIdentified(v) && multiset(Identities(a)) == multiset(Identities(v))
    ensures FirstReceiptProblem(codec, trusted, e, v).None?
  {
    hide IdentityOfEntry, ReceiptProblem;
    var x, y := Identities(a), Identities(v);
    forall i | 0 <= i < |a| ensures x[i] == y[partner[i]] && x[i].Some? {
      assert BoundTo(codec, trusted, e, a[i], v[partner[i]]);
    }
    PairedOff(x, y, partner);
    MultisetMembers(x, y);
    forall entry | entry in v ensures ReceiptProblem(codec, trusted, e, entry).None? {
      var k :| 0 <= k < |v| && v[k] == entry;
      EveryPartner(partner, |v|, k);
      var j :| 0 <= j < |partner| && partner[j] == k;
      ReceiptAccepted(codec, trusted, e, a[j], v[k]);
    }
    NoReceiptProblem(codec, trusted, e, v);
  }

  /** Distinct indices below n, n of them, are all the indices below n. */
  lemma EveryPartner(partner: seq<nat>, n: nat, k: nat)
    requires |partner| == n && Distinct(partner) && k < n && forall i :: 0 <= i < n ==> partner[i] < n
    ensures k in partner
  {
    var all := seq(n, i requires 0 <= i < n => i);
    DistinctOnce(partner);
    forall x ensures multiset(partner)[x] <= multiset(all)[x] {
      if x in multiset(partner) {
        var i :| 0 <= i < n && partner[i] == x;
        assert all[x] in multiset(all);
      }
    }
    SameSize(multiset(partner), multiset(all));
    assert all[k] in multiset(all);
  }

  /** The policy accepts the verifications exactly if artifacts and receipts are in one-to-one
      correspondence, each receipt bound to its artifact's reference and digest, from a trusted
      verifier, with verified content, inside the validity window. */
  lemma StrictAdmission(codec: Codec, trusted: set<string>, e: Envelope)
    ensures VerificationProblem(codec, trusted, e).None? <==> StrictlyVerified(codec, trusted, e)
  {
    hide OciArtifacts, OciVerifications, Get, Distinct, Identities, AllIdentified, SortedIdentities;
    var artifacts, verifications := Get(e.extensions, OciArtifacts()), Get(e.extensions, OciVerifications());
    if VerificationProblem(codec, trusted, e).None? {
      AcceptedArePaired(codec, trusted, e, artifacts.items, verifications.items);
    }
    if StrictlyVerified(codec, trusted, e) {
      var partner :| Pairing(codec, trusted, e, artifacts.items, verifications.items, partner);
      BoundEntries(codec, trusted, e, artifacts.items, verifications.items, partner);
      SortedIdentitiesSame(artifacts.items, verifications.items);
    }
  }

  lemma AcceptedArePaired(codec: Codec, trusted: set<string>, e: Envelope, a: seq<Json>, v: seq<Json>)
    requires Matching(a, v) && FirstReceiptProblem(codec, trusted, e, v).None?
    ensures exists partner :: Pairing(codec, trusted, e, a, v, partner)
  {
    hide IdentityOfEntry, ReceiptProblem, SortedIdentities, BoundTo;
    SortedIdentitiesSame(a, v);
    var x, y := Identities(a), Identities(v);
    var partner := PairOff(x, y);
    NoReceiptProblem(codec, trusted, e, v);
    forall i | 0 <= i < |a| ensures BoundTo(codec, trusted, e, a[i], v[partner[i]]) {
      assert x[i] in x && v[partner[i]] in v;
      ReceiptAccepted(codec, trusted, e, a[i], v[partner[i]]);
    }
    assert Pairing(codec, trusted, e, a, v, partner);
  }

  // ----- The binder -----

  /** The verifier is deterministic: it answers a reference and a digest always alike. */
  type Verifier = (string, string) -> Answer<Receipt>

  /** What the request model demands before a verifier is asked. */
  predicate Askable(reference: string, digest: string) {
    Sized(reference, 2048) && IsDigest(digest)
  }

  function ReceiptFor(verify: Verifier, reference: string, digest: string): Answer<Receipt> {
    if !Askable(reference, digest) then Raise("ValidationError")
    else
      var answer := verify(reference, digest);
      if answer.Ok? && (answer.value.artifactUri != reference || answer.value.artifactDigest != digest) then Raise("EvalHubAdapterError")
      else answer
  }

  function VerificationJson(codec: Codec, entry: map<string, Json>, receipt: Receipt): Json {
    JObj(map["benchmark_id" := Get(entry, "benchmark_id"), "benchmark_index" := Get(entry, "benchmark_index"),
             "provider_id" := Get(entry, "provider_id"), "reference" := Get(entry, "reference"), "digest" := Get(entry, "digest"),
             "receipt" := codec.dump(receipt)])
  }

  /** One artifact verified by itself. */
  function VerifiedEntry(codec: Codec, verify: Verifier, entry: Json): Answer<Json> {
    if !entry.JObj? then Raise("EvalHubAdapterError")
    else
      var reference, digest := Get(entry.fields, "reference"), Get(entry.fields, "digest");
      if !reference.JStr? || !digest.JStr? then Raise("EvalHubAdapterError")
      else
        var receipt := ReceiptFor(verify, reference.s, digest.s);
        if receipt.Raise? then Raise(receipt.exception) else Ok(VerificationJson(codec, entry.fields, receipt.value))
  }

  /** The plain loop: every artifact verified by itself, in order. */
  function PlainLoop(codec: Codec, verify: Verifier, entries: seq<Json>): Answer<seq<Json>> {
    if entries == [] then Ok([])
    else
      var front := PlainLoop(codec, verify, entries[..|entries| - 1]);
      if front.Raise? then front
      else
        var last := VerifiedEntry(codec, verify, entries[|entries| - 1]);
        if last.Raise? then Raise(last.exception) else Ok(front.value + [last.value])
  }

  lemma {:induction false} PlainLoopStops(codec: Codec, verify: Verifier, entries: seq<Json>, i: nat)
    requires i <= |entries| && PlainLoop(codec, verify, entries[..i]).Raise?
    ensures PlainLoop(codec, verify, entries) == PlainLoop(codec, verify, entries[..i])
    decreases |entries| - i
  {
    hide VerifiedEntry;
    if i == |entries| {
      assert entries[..i] == entries;
    } else {
      assert entries[..i + 1][..i] == entries[..i];
      PlainLoopStops(codec, verify, entries, i + 1);
    }
  }

  /** The reference and digest of a well-formed entry. */
  function PairOf(entry: Json): (string, string) {
    if entry.JObj? && Get(entry.fields, "reference").JStr? && Get(entry.fields, "digest").JStr? then
      (Get(entry.fields, "reference").s, Get(entry.fields, "digest").s)
    else ("", "")
  }

  /** The envelope with the receipts bound in. */
  function Bound(codec: Codec, verify: Verifier, e: Envelope): Answer<Envelope> {
    if Get(e.extensions, ProvenanceMode()) != JStr("oci-manifest") then Raise("EvalHubAdapterError")
    else
      var artifacts := Get(e.extensions, OciArtifacts());
      if !artifacts.JArr? || artifacts.items == [] then Raise("EvalHubAdapterError")
      else
        var receipts := PlainLoop(codec, verify, artifacts.items);
        if receipts.Raise? then Raise(receipts.exception)
        else Ok(e.(extensions := e.extensions[OciVerifications() := JArr(receipts.value)]))
  }

  /** The memo holds what the verifier answered, for exactly the pairs that it was asked about. */
  ghost predicate Remembers(verify: Verifier, memo: map<(string, string), Receipt>, asked: seq<(string, string)>) {
    && (forall k :: k in memo <==> k in asked)
    && forall k :: k in memo ==> ReceiptFor(verify, k.0, k.1) == Ok(memo[k])
  }

  /** The loop of the source, which asks about no pair twice: it returns what the plain loop
      returns, and on success it has asked once about every distinct pair, in order of first
      occurrence. */
  method VerifyEntries(codec: Codec, verify: Verifier, entries: seq<Json>)
    returns (receipts: Answer<seq<Json>>, asked: seq<(string, string)>)
    ensures receipts == PlainLoop(codec, verify, entries)
    ensures Distinct(asked)
    ensures receipts.Ok? ==> asked == Dedup(Map(PairOf, entries))
  {
    hide VerificationJson, ReceiptFor, Dedup, Get, PlainLoop;
    asked := [];
    EmptyLoop(codec, verify);
    var found: seq<Json> := [];
    var memo: map<(string, string), Receipt> := map[];
    assert entries[..0] == [];
    for i := 0 to |entries|
      invariant PlainLoop(codec, verify, entries[..i]) == Ok(found)
      invariant Remembers(verify, memo, asked) && asked == Dedup(Map(PairOf, entries[..i]))
    {
      PrefixGrows(codec, verify, entries, i);
      var entry := entries[i];
      if !entry.JObj? {
        PlainLoopStops(codec, verify, entries, i + 1);
        return Raise("EvalHubAdapterError"), asked;
      }
      var reference, digest := Get(entry.fields, "reference"), Get(entry.fields, "digest");
      if !reference.JStr? || !digest.JStr? {
        PlainLoopStops(codec, verify, entries, i + 1);
        return Raise("EvalHubAdapterError"), asked;
      }
      var key := (reference.s, digest.s);
      if key !in memo {
        var answer := AskVerifier(verify, reference.s, digest.s);
        if answer.Raise? {
          PlainLoopStops(codec, verify, entries, i + 1);
          return Raise(answer.exception), asked;
        }
        memo := memo[key := answer.value];
        asked := asked + [key];
      }
      found := found + [VerificationJson(codec, entry.fields, memo[key])];
    }
    assert entries[..|entries|] == entries;
    receipts := Ok(found);
  }

  lemma EmptyLoop(codec: Codec, verify: Verifier)
    ensures PlainLoop(codec, verify, []) == Ok([])
    ensures Dedup(Map(PairOf, [])) == []
  {
    DedupOfDistinct<(string, string)>([]);
  }

  method AskVerifier(verify: Verifier, reference: string, digest: string) returns (answer: Answer<Receipt>)
    ensures answer == ReceiptFor(verify, reference, digest)
  {
    if reference == "" || |reference| > 2048 || !IsDigest(digest) {
      return Raise("ValidationError");
    }
    answer := verify(reference, digest);
    if answer.Ok? && (answer.value.artifactUri != reference || answer.value.artifactDigest != digest) {
      answer := Raise("EvalHubAdapterError");
    }
  }

  lemma PrefixGrows(codec: Codec, verify: Verifier, entries: seq<Json>, i: nat)
    requires i < |entries| && PlainLoop(codec, verify, entries[..i]).Ok?
    ensures var before, one := PlainLoop(codec, verify, entries[..i]), VerifiedEntry(codec, verify, entries[i]);
      PlainLoop(codec, verify, entries[..i + 1]) == if one.Raise? then Raise(one.exception) else Ok(before.value + [one.value])
    ensures var before, pair := Dedup(Map(PairOf, entries[..i])), PairOf(entries[i]);
      Dedup(Map(PairOf, entries[..i + 1])) == if pair in before then before else before + [pair]
  {
    hide VerifiedEntry, PairOf;
    assert entries[..i + 1][..i] == entries[..i];
    var pairs := Map(PairOf, entries[..i + 1]);
    assert pairs[..i] == Map(PairOf, entries[..i]);
  }

  method VerifyArtifacts(codec: Codec, verify: Verifier, e: Envelope)
    returns (bound: Answer<Envelope>, asked: seq<(string, string)>)
    ensures bound == Bound(codec, verify, e) && Distinct(asked)
    ensures bound.Ok? ==> asked == Dedup(Map(PairOf, Get(e.extensions, OciArtifacts()).items))
  {
    hide PlainLoop, Get, ProvenanceMode, OciArtifacts, OciVerifications, Dedup, PairOf;
    asked := [];
    if Get(e.extensions, ProvenanceMode()) != JStr("oci-manifest") {
      return Raise("EvalHubAdapterError"), asked;
    }
    var artifacts := Get(e.extensions, OciArtifacts());
    if !artifacts.JArr? || artifacts.items == [] {
      return Raise("EvalHubAdapterError"), asked;
    }
    var receipts;
    receipts, asked := VerifyEntries(codec, verify, artifacts.items);
    if receipts.Raise? {
      return Raise(receipts.exception), asked;
    }
    bound := Ok(e.(extensions := e.extensions[OciVerifications() := JArr(receipts.value)]));
  }

  // ----- The manifest of the adapter -----

  function ArtifactName(a: Artifact): (string, string, int) { (a.providerId, a.benchmarkId, a.index) }

  predicate NamedBy(a: Artifact, b: Benchmark) {
    ArtifactName(a) == (b.providerId, b.id, b.index as int)
  }

  lemma {:induction false} ArtifactNamesDistinct(benchmarks: seq<Benchmark>)
    requires Distinct(Map(BenchmarkIdentity, benchmarks))
    ensures Distinct(Map(ArtifactName, Artifacts(benchmarks)))
  {
    if benchmarks != [] {
      var front, last := benchmarks[..|benchmarks| - 1], benchmarks[|benchmarks| - 1];
      var names := Map(BenchmarkIdentity, benchmarks);
      assert Map(BenchmarkIdentity, front) == names[..|front|];
      ArtifactNamesDistinct(front);
      var kept := Artifacts(front);
      forall i | 0 <= i < |kept| ensures ArtifactName(kept[i]) != (last.providerId, last.id, last.index as int) {
        NamedByBenchmark(front, kept[i]);
        var k :| 0 <= k < |front| && NamedBy(kept[i], front[k]);
        assert names[k] != names[|front|];
      }
      LastArtifact(benchmarks);
    }
  }

  lemma NamedByBenchmark(benchmarks: seq<Benchmark>, a: Artifact)
    requires a in Artifacts(benchmarks)
    ensures exists k :: 0 <= k < |benchmarks| && NamedBy(a, benchmarks[k])
  {
    hide IsDigest, EndsWith, HasSpace;
    ArtifactMembers(benchmarks, a);
    var b :| b in benchmarks && ArtifactOf(b) == Ok(Some(a));
    var k :| 0 <= k < |benchmarks| && benchmarks[k] == b;
  }

  lemma LastArtifact(benchmarks: seq<Benchmark>)
    requires benchmarks != []
    ensures var last := benchmarks[|benchmarks| - 1]; var kept := Artifacts(benchmarks[..|benchmarks| - 1]);
      || Artifacts(benchmarks) == kept
      || exists a :: Artifacts(benchmarks) == kept + [a] && ArtifactName(a) == (last.providerId, last.id, last.index as int)
  {
    hide IsDigest, EndsWith, HasSpace;
  }

  lemma ManifestDistinct(job: Job)
    requires ValidJob(job)
    ensures var entries := ArtifactsJson(Artifacts(Ordered(Benchmarks(job)))).items;
      AllIdentified(entries) && Distinct(Identities(entries))
  {
    hide ArtifactJson, Artifacts, Sort;
    var ordered := Ordered(Benchmarks(job));
    OrderedMembers(Benchmarks(job));
    MapPermuted(BenchmarkIdentity, Benchmarks(job), ordered);
    DistinctPermuted(Map(BenchmarkIdentity, Benchmarks(job)), Map(BenchmarkIdentity, ordered));
    ArtifactNamesDistinct(ordered);
    NamesIdentify(Artifacts(ordered));
  }

  lemma NamesIdentify(artifacts: seq<Artifact>)
    requires Distinct(Map(ArtifactName, artifacts))
    ensures AllIdentified(ArtifactsJson(artifacts).items) && Distinct(Identities(ArtifactsJson(artifacts).items))
  {
    hide ArtifactJson, IdentityOfEntry;
    var ids, names := Identities(ArtifactsJson(artifacts).items), Map(ArtifactName, artifacts);
    forall i | 0 <= i < |artifacts|
      ensures ids[i] == Some(EntryIdentity(artifacts[i]))
    {
      EntryIdentified(artifacts[i]);
    }
    forall i, j | 0 <= i < j < |ids| ensures ids[i] != ids[j] {
      assert names[i] != names[j];
    }
  }

  function EntryIdentity(a: Artifact): Identity {
    Identity(a.benchmarkId, a.index, a.providerId, a.reference, a.digest)
  }

  lemma EntryIdentified(a: Artifact)
    ensures IdentityOfEntry(ArtifactJson(a)) == Some(EntryIdentity(a))
  {
    ArtifactRead(a);
    hide ArtifactJson, Get;
  }

  // ----- When binding succeeds and the policy accepts -----

  lemma VerificationRead(codec: Codec, entry: map<string, Json>, receipt: Receipt)
    ensures var v := VerificationJson(codec, entry, receipt);
      && v.JObj? && Get(v.fields, "receipt") == codec.dump(receipt) && Get(v.fields, "reference") == Get(entry, "reference")
      && Get(v.fields, "digest") == Get(entry, "digest") && IdentityOfEntry(v) == IdentityOfEntry(JObj(entry))
  {
  }

  /** What the binder writes for an artifact. */
  function Verification(codec: Codec, verify: Verifier, a: Artifact): Answer<Json> {
    var receipt := ReceiptFor(verify, a.reference, a.digest);
    if receipt.Raise? then Raise(receipt.exception) else Ok(VerificationJson(codec, ArtifactJson(a).fields, receipt.value))
  }

  lemma EntryVerified(codec: Codec, verify: Verifier, a: Artifact)
    ensures VerifiedEntry(codec, verify, ArtifactJson(a)) == Verification(codec, verify, a)
  {
    ArtifactRead(a);
    hide ArtifactJson, Get, VerificationJson, ReceiptFor;
  }

  lemma {:induction false} LoopSucceeds(codec: Codec, verify: Verifier, entries: seq<Json>)
    ensures PlainLoop(codec, verify, entries).Ok? <==> forall i :: 0 <= i < |entries| ==> VerifiedEntry(codec, verify, entries[i]).Ok?
    ensures PlainLoop(codec, verify, entries).Ok? ==>
      && |PlainLoop(codec, verify, entries).value| == |entries|
      && forall i :: 0 <= i < |entries| ==> VerifiedEntry(codec, verify, entries[i]) == Ok(PlainLoop(codec, verify, entries).value[i])
  {
    hide VerifiedEntry;
    if entries != [] {
      LoopSucceeds(codec, verify, entries[..|entries| - 1]);
    }
  }

  ghost predicate Answered(verify: Verifier, artifacts: seq<Artifact>) {
    forall a :: a in artifacts ==> ReceiptFor(verify, a.reference, a.digest).Ok?
  }

  /** The loop over the manifest succeeds exactly if every artifact is answered. */
  lemma ManifestVerified(codec: Codec, verify: Verifier, artifacts: seq<Artifact>)
    ensures var v := PlainLoop(codec, verify, ArtifactsJson(artifacts).items);
      && (v.Ok? <==> Answered(verify, artifacts))
      && (v.Ok? ==> |v.value| == |artifacts| && forall i :: 0 <= i < |artifacts| ==> Verification(codec, verify, artifacts[i]) == Ok(v.value[i]))
  {
    hide VerifiedEntry, ArtifactJson, ReceiptFor, VerificationJson, PlainLoop;
    var entries := ArtifactsJson(artifacts).items;
    LoopSucceeds(codec, verify, entries);
    forall i | 0 <= i < |artifacts| ensures VerifiedEntry(codec, verify, entries[i]) == Verification(codec, verify, artifacts[i]) {
      EntryVerified(codec, verify, artifacts[i]);
    }
  }

  /** Writing the receipts leaves every other extension alone. */
  lemma ReceiptsRead(x: map<string, Json>, receipts: Json)
    ensures var y := x[OciVerifications() := receipts];
      && Get(y, OciVerifications()) == receipts
      && Get(y, ApiRevision()) == Get(x, ApiRevision()) && Get(y, JobId()) == Get(x, JobId())
      && Get(y, JobStateKey()) == Get(x, JobStateKey()) && Get(y, JobTestPresent()) == Get(x, JobTestPresent())
      && Get(y, OciArtifacts()) == Get(x, OciArtifacts()) && Get(y, ProvenanceMode()) == Get(x, ProvenanceMode())
      && Get(y, RawResponseDigest()) == Get(x, RawResponseDigest()) && Get(y, ResultKind()) == Get(x, ResultKind())
  {
    Marks();
    hide ApiRevision, JobId, JobStateKey, JobTestPresent, OciArtifacts, OciVerifications, ProvenanceMode;
    hide RawResponseDigest, ResultKind, Marked;
  }

  /** What the policy will read back is a receipt for the artifact's content, of a trusted verifier
      and inside the validity window. */
  ghost predicate Convincing(codec: Codec, trusted: set<string>, e: Envelope, a: Artifact, receipt: Receipt) {
    var read := codec.load(codec.dump(receipt));
    && read.Some? && read.value.verifier in trusted
    && read.value.artifactUri == a.reference && read.value.artifactDigest == a.digest && read.value.content != []
    && e.metadata.observedAt <= read.value.verifiedAt <= e.metadata.expiresAt
  }

  ghost predicate AllConvincing(codec: Codec, trusted: set<string>, verify: Verifier, e: Envelope, artifacts: seq<Artifact>) {
    forall a :: a in artifacts ==>
      var receipt := ReceiptFor(verify, a.reference, a.digest);
      receipt.Ok? && Convincing(codec, trusted, e, a, receipt.value)
  }

  lemma EntryConvincing(codec: Codec, trusted: set<string>, verify: Verifier, e: Envelope, f: Envelope, a: Artifact)
    requires ReceiptFor(verify, a.reference, a.digest).Ok? && f.metadata == e.metadata
    ensures var v := Verification(codec, verify, a).value;
      && (ReceiptProblem(codec, trusted, f, v).None? <==>
            Convincing(codec, trusted, e, a, ReceiptFor(verify, a.reference, a.digest).value))
      && IdentityOfEntry(v) == IdentityOfEntry(ArtifactJson(a))
  {
    ArtifactRead(a);
    VerificationRead(codec, ArtifactJson(a).fields, ReceiptFor(verify, a.reference, a.digest).value);
    hide ArtifactJson, Get, VerificationJson, IdentityOfEntry, ReceiptFor;
  }

  ghost predicate HoldsArtifacts(e: Envelope, artifacts: seq<Artifact>) {
    && Get(e.extensions, OciArtifacts()) == ArtifactsJson(artifacts)
    && AllIdentified(ArtifactsJson(artifacts).items) && Distinct(Identities(ArtifactsJson(artifacts).items))
  }

  /** Binding succeeds exactly if the evidence rests on a manifest and every artifact is answered;
      the strict check passes exactly if all answers are convincing. */
  lemma BindingDecides(codec: Codec, trusted: set<string>, verify: Verifier, e: Envelope, artifacts: seq<Artifact>)
    requires HoldsArtifacts(e, artifacts)
    ensures Bound(codec, verify, e).Ok?
      <==> Get(e.extensions, ProvenanceMode()) == JStr("oci-manifest") && artifacts != [] && Answered(verify, artifacts)
    ensures Bound(codec, verify, e).Ok? ==>
      (VerificationProblem(codec, trusted, Bound(codec, verify, e).value).None? <==> AllConvincing(codec, trusted, verify, e, artifacts))
  {
    hide Answered, PlainLoop, ArtifactJson, Get, OciArtifacts, OciVerifications, ReceiptFor, Verification;
    hide ProvenanceMode, VerificationProblem, Identities, AllConvincing;
    ManifestVerified(codec, verify, artifacts);
    if Bound(codec, verify, e).Ok? {
      var receipts := PlainLoop(codec, verify, ArtifactsJson(artifacts).items).value;
      ReceiptsRead(e.extensions, JArr(receipts));
      ReceiptsDecide(codec, trusted, verify, e, Bound(codec, verify, e).value, artifacts, receipts);
    }
  }

  lemma ReceiptsDecide(codec: Codec, trusted: set<string>, verify: Verifier, e: Envelope, f: Envelope,
                       artifacts: seq<Artifact>, receipts: seq<Json>)
    requires HoldsArtifacts(f, artifacts) && artifacts != [] && Answered(verify, artifacts)
    requires Get(f.extensions, OciVerifications()) == JArr(receipts) && f.metadata == e.metadata
    requires |receipts| == |artifacts|
    requires forall i :: 0 <= i < |artifacts| ==> Verification(codec, verify, artifacts[i]) == Ok(receipts[i])
    ensures VerificationProblem(codec, trusted, f).None? <==> AllConvincing(codec, trusted, verify, e, artifacts)
  {
    hide ArtifactJson, Get, OciArtifacts, OciVerifications, ReceiptFor, Verification, IdentityOfEntry, ReceiptProblem;
    hide Convincing, SortedIdentities, FirstReceiptProblem;
    var entries := ArtifactsJson(artifacts).items;
    forall i | 0 <= i < |artifacts|
      ensures IdentityOfEntry(receipts[i]) == IdentityOfEntry(entries[i]) && ReceiptFor(verify, artifacts[i].reference, artifacts[i].digest).Ok?
      ensures ReceiptProblem(codec, trusted, f, receipts[i]).None?
        <==> Convincing(codec, trusted, e, artifacts[i], ReceiptFor(verify, artifacts[i].reference, artifacts[i].digest).value)
    {
      assert artifacts[i] in artifacts;
      EntryConvincing(codec, trusted, verify, e, f, artifacts[i]);
    }
    assert Identities(receipts) == Identities(entries);
    SameSorted(receipts, entries);
    NoReceiptProblem(codec, trusted, f, receipts);
    assert (forall x :: x in receipts ==> ReceiptProblem(codec, trusted, f, x).None?)
      <==> (forall i :: 0 <= i < |receipts| ==> ReceiptProblem(codec, trusted, f, receipts[i]).None?);
  }

  lemma SameSorted(a: seq<Json>, b: seq<Json>)
    requires Identities(a) == Identities(b)
    ensures SortedIdentities(a) == SortedIdentities(b)
  {
    hide Identities, IdentityLe;
  }

  // ----- Adapter, binder and policy together -----

  /** The verifier answers for the artifacts, under a trusted name, with content, and inside the
      validity window; the codec reads back what it wrote. */
  ghost predicate Vouches(codec: Codec, trusted: set<string>, verify: Verifier, artifacts: seq<Artifact>, from: Instant, until: Instant) {
    forall a :: a in artifacts ==>
      var answer := verify(a.reference, a.digest);
      && answer.Ok? && answer.value.artifactUri == a.reference && answer.value.artifactDigest == a.digest
      && answer.value.verifier in trusted && answer.value.content != [] && from <= answer.value.verifiedAt <= until
      && codec.load(codec.dump(answer.value)) == Some(answer.value)
  }

  lemma PinnedIsAskable(reference: string, digest: string)
    requires PinnedReference(reference, digest)
    ensures Askable(reference, digest)
  {
    assert |"@" + digest| > 0;
  }

  lemma VouchedIsConvincing(codec: Codec, trusted: set<string>, verify: Verifier, e: Envelope, artifacts: seq<Artifact>)
    requires Vouches(codec, trusted, verify, artifacts, e.metadata.observedAt, e.metadata.expiresAt)
    requires forall a :: a in artifacts ==> PinnedReference(a.reference, a.digest)
    ensures Answered(verify, artifacts) && AllConvincing(codec, trusted, verify, e, artifacts)
  {
    hide Askable, PinnedReference;
    forall a | a in artifacts ensures ReceiptFor(verify, a.reference, a.digest) == verify(a.reference, a.digest) {
      PinnedIsAskable(a.reference, a.digest);
    }
  }

  lemma AdapterHoldsArtifacts(lib: Libraries, raw: Json, job: Job, request: Request)
    requires ValidJob(job)
    ensures var e := Normalized(lib, raw, job, request);
      HoldsArtifacts(e, Artifacts(Ordered(Benchmarks(job)))) && Get(e.extensions, OciVerifications()) == JNull
  {
    hide ArtifactJson, Artifacts, Ordered, ExtensionsOf, OutcomeOf, CanonicalDigest, SchemaUri, Get, ArtifactOf;
    hide OciArtifacts, OciVerifications, Identities, AllIdentified, ValidJob;
    var artifacts := Artifacts(Ordered(Benchmarks(job)));
    var complete := Benchmarks(job) != [] && FullyReferenced(Benchmarks(job));
    var response := CanonicalDigest(lib.hash, raw);
    ExtensionsRead(job, artifacts, ProvenanceOf(lib.hash, artifacts, complete, response).mode, response, OutcomeOf(job).kind);
    ManifestDistinct(job);
  }

  /** What the adapter made of a job can be bound exactly if its provenance is complete and the
      verifier answers for every artifact. */
  lemma BindingNeedsProvenance(codec: Codec, verify: Verifier, lib: Libraries, raw: Json, job: Job, request: Request)
    requires ValidJob(job)
    ensures Bound(codec, verify, Normalized(lib, raw, job, request)).Ok?
      <==> Benchmarks(job) != [] && FullyReferenced(Benchmarks(job)) && Answered(verify, Artifacts(Ordered(Benchmarks(job))))
  {
    hide Artifacts, Ordered, Normalized, Bound, HoldsArtifacts, Answered, FullyReferenced, Get, ProvenanceMode;
    hide ValidJob, AllConvincing, VerificationProblem;
    AdapterHoldsArtifacts(lib, raw, job, request);
    BindingDecides(codec, {}, verify, Normalized(lib, raw, job, request), Artifacts(Ordered(Benchmarks(job))));
    ModeOf(lib, raw, job, request);
    OrderedMembers(Benchmarks(job));
    ArtifactCount(Ordered(Benchmarks(job)));
  }

  /** Writing receipts changes nothing that the rest of the policy reads. */
  lemma ReceiptsAside(p: Policy, e: Envelope, receipts: Json, scope: Scope)
    ensures var f := e.(extensions := e.extensions[OciVerifications() := receipts]);
      && (PinnedContract(p, f, scope) <==> PinnedContract(p, e, scope)) && (ConsistentResult(f) <==> ConsistentResult(e))
      && ProvenanceProblem(p.hash, f) == ProvenanceProblem(p.hash, e)
      && Get(f.extensions, ProvenanceMode()) == Get(e.extensions, ProvenanceMode())
  {
    hide Get, ApiRevision, JobId, JobStateKey, JobTestPresent, OciArtifacts, OciVerifications, ProvenanceMode;
    hide RawResponseDigest, ResultKind, AtOrBelow, SchemaUri, Revision, IsDigest, FirstEntryProblem;
    hide CanonicalDigest, Truthy;
    ReceiptsRead(e.extensions, receipts);
  }

  /** In strict mode the policy admits nothing that the adapter made as it is. Bound, it is
      admitted exactly if the job failed or was cancelled or has a test, and the receipt of every
      artifact is convincing. */
  lemma StrictPolicyAgrees(p: Policy, verify: Verifier, lib: Libraries, raw: Json, request: Request, scope: Scope)
    requires Trusted(lib) && Acceptable(lib, raw, request) && Configured(p, lib, request, scope) && p.requireVerified
    ensures var job := lib.parse(raw).value; var e := Normalized(lib, raw, job, request); var bound := Bound(p.codec, verify, e);
      && !Admits(p, e, scope)
      && (bound.Ok? ==>
            (Admits(p, bound.value, scope) <==>
              (Aborted(job.state) || OverallTest(job).Some?)
              && AllConvincing(p.codec, p.trusted, verify, e, Artifacts(Ordered(Benchmarks(job))))))
  {
    hide Trusted, Normalized, PinnedContract, ConsistentResult, ProvenanceProblem, Hashable, Configured, Get;
    hide ProvenanceMode, ResultKind, ValidEnvelope, FullyReferenced, WellReferenced, VerificationProblem, PlainLoop;
    hide HoldsArtifacts, AllConvincing, Artifacts, Ordered, OciVerifications, OciArtifacts;
    var job := lib.parse(raw).value;
    var e := Normalized(lib, raw, job, request);
    ParsedIsValid(lib, raw);
    AdapterHoldsArtifacts(lib, raw, job, request);
    UnboundIsRefused(p.codec, p.trusted, e);
    NormalizedHasProvenance(lib, raw, job, request);
    ResultConsistent(lib, raw, job, request);
    ContractPinned(p, lib, raw, job, request, scope);
    SameHash(p, lib, request, scope);
    BindingDecides(p.codec, p.trusted, verify, e, Artifacts(Ordered(Benchmarks(job))));
    var bound := Bound(p.codec, verify, e);
    if bound.Ok? {
      ReceiptsAside(p, e, JArr(PlainLoop(p.codec, verify, Get(e.extensions, OciArtifacts()).items).value), scope);
    }
  }

  lemma ParsedIsValid(lib: Libraries, raw: Json)
    requires Trusted(lib) && lib.parse(raw).Some?
    ensures ValidJob(lib.parse(raw).value)
  {
    hide ValidJob, IsDigest;
  }

  lemma UnboundIsRefused(codec: Codec, trusted: set<string>, e: Envelope)
    requires Get(e.extensions, OciVerifications()) == JNull
    ensures VerificationProblem(codec, trusted, e).Some?
  {
    hide Get, OciVerifications, OciArtifacts, Matching, FirstReceiptProblem;
  }

  /** Whatever the adapter normalized with complete OCI provenance, once bound by a verifier that
      vouches for its artifacts, passes the strict check; before that, nothing from the adapter does. */
  lemma VerifiedEvidenceIsAccepted(codec: Codec, trusted: set<string>, verify: Verifier, lib: Libraries, raw: Json, request: Request)
    requires Trusted(lib) && Acceptable(lib, raw, request)
    ensures var job := lib.parse(raw).value; var e := Normalized(lib, raw, job, request);
      && VerificationProblem(codec, trusted, e).Some?
      && (Benchmarks(job) != [] && FullyReferenced(Benchmarks(job))
            && Vouches(codec, trusted, verify, Artifacts(Ordered(Benchmarks(job))), e.metadata.observedAt, e.metadata.expiresAt) ==>
          Bound(codec, verify, e).Ok? && VerificationProblem(codec, trusted, Bound(codec, verify, e).value).None?)
  {
    hide Vouches, Artifacts, Ordered, Normalized, Bound, HoldsArtifacts, Answered, FullyReferenced, WellReferenced;
    hide AllConvincing, VerificationProblem, PinnedReference, ValidJob, Trusted, ValidEnvelope, Get;
    var job := lib.parse(raw).value;
    var e, artifacts := Normalized(lib, raw, job, request), Artifacts(Ordered(Benchmarks(job)));
    ParsedIsValid(lib, raw);
    AdapterHoldsArtifacts(lib, raw, job, request);
    UnboundIsRefused(codec, trusted, e);
    if Vouches(codec, trusted, verify, artifacts, e.metadata.observedAt, e.metadata.expiresAt) {
      forall a | a in artifacts ensures PinnedReference(a.reference, a.digest) {
        ArtifactsPinned(Ordered(Benchmarks(job)), a);
      }
      VouchedIsConvincing(codec, trusted, verify, e, artifacts);
      BindingNeedsProvenance(codec, verify, lib, raw, job, request);
      BindingDecides(codec, trusted, verify, e, artifacts);
    }
  }
}
