/** The OCI registry verifier: it fetches a digest-pinned manifest and every descriptor in it,
    within a byte budget, and issues a receipt for exactly what it has hashed. The registry and
    the network may answer anything, except more bytes than were asked for. */
module OciRegistry {
  import opened Basics
  import opened Json
  import opened Contracts
  import opened Signature
  import opened EvalHub

  function VerifierName(): string { "https://jkershawrh.github.io/gcl-oss/verifiers/oci-distribution/v1" }

  predicate AllowedManifest(mediaType: string) {
    || mediaType == "application/vnd.oci.image.manifest.v1+json"
    || mediaType == "application/vnd.docker.distribution.manifest.v2+json"
  }

  datatype OciReference = OciReference(scheme: string, registry: string, repository: string, digest: string)

  datatype Response = Response(body: seq<Byte>, headers: map<string, string>)

  /** The verifier's configuration, the libraries, and the registry as an oracle: what a request
      answers may depend on how many requests went before it. */
  datatype RegistryVerifier = RegistryVerifier(
    allowed: set<string>, insecure: bool, maxManifest: nat, maxBlob: nat, maxTotal: nat,
    parse: string -> Option<OciReference>, sha: seq<Byte> -> string, loads: seq<Byte> -> Option<Json>,
    decode: string -> Option<seq<Byte>>, get: (nat, string, nat) -> Answer<Response>, clock: nat -> Answer<Option<Instant>>)

  /** What the constructor checks, and that a response is no longer than was asked for. */
  ghost predicate Limited(v: RegistryVerifier) {
    && 0 < v.maxManifest <= v.maxTotal && 0 < v.maxBlob
    && forall t, url, maximum :: v.get(t, url, maximum).Ok? ==> |v.get(t, url, maximum).value.body| <= maximum
  }

  // ----- Headers -----

  function StripLeft(s: string): string {
    if s != "" && IsSpace(s[0]) then StripLeft(s[1..]) else s
  }

  function StripRight(s: string): string {
    if s != "" && IsSpace(s[|s| - 1]) then StripRight(s[..|s| - 1]) else s
  }

  function Before(s: string, c: char): string {
    if s == "" || s[0] == c then "" else [s[0]] + Before(s[1..], c)
  }

  function Lower(s: string): string {
    if s == "" then ""
    else [if 'A' <= s[0] <= 'Z' then (s[0] as int + 32) as char else s[0]] + Lower(s[1..])
  }

  function ContentType(headers: map<string, string>): string {
    var value := if "Content-Type" in headers then headers["Content-Type"] else "";
    Lower(StripRight(StripLeft(Before(value, ';'))))
  }

  predicate PaddedAt(text: string, i: nat, j: nat) {
    i <= j <= |text| && (forall k :: 0 <= k < i ==> IsSpace(text[k])) && forall k :: j <= k < |text| ==> IsSpace(text[k])
  }

  /** The core stands in the text with white space around it and nothing else. */
  ghost predicate Padded(text: string, core: string) {
    exists i: nat, j: nat :: PaddedAt(text, i, j) && text[i..j] == core
  }

  predicate Trimmed(s: string) {
    s != "" && !IsSpace(s[0]) && !IsSpace(s[|s| - 1])
  }

  lemma {:induction false} StripLeftShape(s: string) returns (i: nat)
    ensures i <= |s| && StripLeft(s) == s[i..] && forall k :: 0 <= k < i ==> IsSpace(s[k])
    ensures i < |s| ==> !IsSpace(s[i])
  {
    hide IsSpace;
    i := 0;
    if s != "" && IsSpace(s[0]) {
      i := StripLeftShape(s[1..]);
      assert forall k :: 0 < k <= i ==> s[k] == s[1..][k - 1];
      assert s[1..][i..] == s[i + 1..];
      i := i + 1;
    }
  }

  lemma {:induction false} StripRightShape(s: string) returns (j: nat)
    ensures j <= |s| && StripRight(s) == s[..j] && forall k :: j <= k < |s| ==> IsSpace(s[k])
    ensures j > 0 ==> !IsSpace(s[j - 1])
  {
    hide IsSpace;
    j := |s|;
    if s != "" && IsSpace(s[|s| - 1]) {
      j := StripRightShape(s[..|s| - 1]);
      assert s[..|s| - 1][..j] == s[..j];
    }
  }

  lemma StrippedAt(s: string) returns (i: nat, j: nat)
    ensures PaddedAt(s, i, j) && StripRight(StripLeft(s)) == s[i..j]
    ensures i < j ==> !IsSpace(s[i]) && !IsSpace(s[j - 1])
  {
    hide IsSpace, StripLeft, StripRight;
    i := StripLeftShape(s);
    var t := s[i..];
    var n := StripRightShape(t);
    j := i + n;
    assert t[..n] == s[i..j];
    assert forall k :: j <= k < |s| ==> s[k] == t[k - i];
    assert n > 0 ==> t[n - 1] == s[j - 1];
  }

  lemma OneCore(s: string, i: nat, j: nat, a: nat, b: nat)
    requires PaddedAt(s, i, j) && PaddedAt(s, a, b) && a < b && !IsSpace(s[a]) && !IsSpace(s[b - 1])
    ensures i <= a && b <= j
  {
    hide IsSpace;
  }

  /** Stripping finds exactly the trimmed core. */
  lemma StripFinds(s: string, core: string)
    requires Trimmed(core)
    ensures StripRight(StripLeft(s)) == core <==> Padded(s, core)
  {
    hide IsSpace, StripLeft, StripRight;
    var i, j := StrippedAt(s);
    if a: nat, b: nat :| PaddedAt(s, a, b) && s[a..b] == core {
      assert core[0] == s[a] && core[|core| - 1] == s[b - 1];
      OneCore(s, i, j, a, b);
      OneCore(s, a, b, i, j);
    }
  }

  /** The registry need not send a digest; one that it sends must be the digest of the bytes. */
  function HeaderDigest(headers: map<string, string>, expected: string, actual: string): (r: Answer<Option<string>>)
    ensures r.Ok? && r.value.Some? ==> r.value.value == expected == actual && IsDigest(expected)
    ensures r.Ok? && r.value.None? <==> "Docker-Content-Digest" !in headers
  {
    if "Docker-Content-Digest" !in headers then Ok(None)
    else
      var value := StripRight(StripLeft(headers["Docker-Content-Digest"]));
      if !IsDigest(value) || value != expected || value != actual then Raise("OCIArtifactVerificationError")
      else Ok(Some(value))
  }

  lemma DigestIsTrimmed(s: string)
    requires IsDigest(s)
    ensures Trimmed(s)
  {
    assert s[..7][0] == 's';
  }

  /** No header passes as no digest. A header passes exactly if it is the expected digest, white
      space around it aside, and that is the digest of the bytes. */
  lemma HeaderDigestExact(headers: map<string, string>, expected: string, actual: string)
    ensures var r := HeaderDigest(headers, expected, actual);
      && (r == Ok(None) <==> "Docker-Content-Digest" !in headers)
      && (r == Ok(Some(expected)) <==>
            "Docker-Content-Digest" in headers && Padded(headers["Docker-Content-Digest"], expected)
            && expected == actual && IsDigest(expected))
      && (r == Ok(None) || r == Ok(Some(expected)) || r.Raise?)
  {
    hide IsDigest, Padded, StripLeft, StripRight;
    if "Docker-Content-Digest" in headers && IsDigest(expected) {
      DigestIsTrimmed(expected);
      StripFinds(headers["Docker-Content-Digest"], expected);
    }
  }

  /** The header, if there is one, is the digest. */
  ghost predicate HeaderAgrees(headers: map<string, string>, digest: string) {
    "Docker-Content-Digest" in headers ==> Padded(headers["Docker-Content-Digest"], digest) && IsDigest(digest)
  }

  predicate SameLetter(c: char, d: char) {
    if 'A' <= c <= 'Z' then d as int == c as int + 32 else d == c
  }

  /** The content type up to the first semicolon, white space around it and case aside. */
  ghost predicate Announces(headers: map<string, string>, mediaType: string) {
    && "Content-Type" in headers
    && exists end, core :: 0 <= end <= |headers["Content-Type"]| && Announced(headers["Content-Type"], end, core, mediaType)
  }

  ghost predicate Announced(value: string, end: nat, core: string, mediaType: string)
    requires end <= |value|
  {
    && (forall k :: 0 <= k < end ==> value[k] != ';') && (end < |value| ==> value[end] == ';')
    && Padded(value[..end], core) && |core| == |mediaType|
    && forall k :: 0 <= k < |core| ==> SameLetter(core[k], mediaType[k])
  }

  lemma {:induction false} BeforeShape(s: string, c: char) returns (end: nat)
    ensures end <= |s| && Before(s, c) == s[..end] && (forall k :: 0 <= k < end ==> s[k] != c)
    ensures end < |s| ==> s[end] == c
  {
    end := 0;
    if s != "" && s[0] != c {
      end := BeforeShape(s[1..], c);
      assert forall k :: 0 < k <= end ==> s[k] == s[1..][k - 1];
      assert s[..end + 1] == [s[0]] + s[1..][..end];
      end := end + 1;
    }
  }

  lemma {:induction false} LowerShape(s: string)
    ensures |Lower(s)| == |s| && forall k :: 0 <= k < |s| ==> SameLetter(s[k], Lower(s)[k])
  {
    if s != "" {
      LowerShape(s[1..]);
      assert forall k :: 0 < k < |s| ==> s[k] == s[1..][k - 1];
    }
  }

  lemma LowerIs(s: string, t: string)
    ensures Lower(s) == t <==> |s| == |t| && forall k :: 0 <= k < |s| ==> SameLetter(s[k], t[k])
  {
    LowerShape(s);
    hide Lower;
    if |s| == |t| && forall k :: 0 <= k < |s| ==> SameLetter(s[k], t[k]) {
      assert forall k :: 0 <= k < |s| ==> Lower(s)[k] == t[k];
    }
  }

  lemma SpacesHaveNoCase(c: char, d: char)
    requires SameLetter(c, d)
    ensures IsSpace(c) <==> IsSpace(d)
  {
  }

  lemma AllowedIsTrimmed(mediaType: string)
    requires AllowedManifest(mediaType)
    ensures Trimmed(mediaType)
  {
    assert "application/vnd.oci.image.manifest.v1+json"[0] == 'a';
    assert "application/vnd.docker.distribution.manifest.v2+json"[0] == 'a';
  }

  lemma SameLettersTrimmed(core: string, mediaType: string)
    requires Trimmed(mediaType) && |core| == |mediaType| && forall k :: 0 <= k < |core| ==> SameLetter(core[k], mediaType[k])
    ensures Trimmed(core)
  {
    hide IsSpace;
    SpacesHaveNoCase(core[0], mediaType[0]);
    SpacesHaveNoCase(core[|core| - 1], mediaType[|core| - 1]);
  }

  lemma ContentTypeExact(headers: map<string, string>, mediaType: string)
    requires Trimmed(mediaType)
    ensures ContentType(headers) == mediaType <==> Announces(headers, mediaType)
  {
    hide IsSpace, StripLeft, StripRight, Before, Lower, Padded, SameLetter;
    if "Content-Type" in headers {
      var value := headers["Content-Type"];
      var end := BeforeShape(value, ';');
      var core := StripRight(StripLeft(value[..end]));
      LowerIs(core, mediaType);
      if Lower(core) == mediaType {
        SameLettersTrimmed(core, mediaType);
        StripFinds(value[..end], core);
        assert Announced(value, end, core, mediaType);
      }
      if Announces(headers, mediaType) {
        var end', core' :| 0 <= end' <= |value| && Announced(value, end', core', mediaType);
        assert end' == end;
        SameLettersTrimmed(core', mediaType);
        StripFinds(value[..end], core');
      }
    } else {
      NothingAnnounced();
    }
  }

  lemma NothingAnnounced()
    ensures Lower(StripRight(StripLeft(Before("", ';')))) == ""
  {
  }

  // ----- Descriptors -----

  /** The digest, the size and the media type are there, well formed and within the blob limit. */
  predicate WellDeclared(v: RegistryVerifier, descriptor: map<string, Json>) {
    var digest, size, mediaType := Get(descriptor, "digest"), Get(descriptor, "size"), Get(descriptor, "mediaType");
    && digest.JStr? && IsDigest(digest.s) && size.JInt? && 0 <= size.i <= v.maxBlob
    && mediaType.JStr? && Sized(mediaType.s, 255) && !HasSpace(mediaType.s)
  }

  /** The descriptor carries its content itself; no request is made for it. */
  predicate Inline(descriptor: Json) {
    descriptor.JObj? && !Get(descriptor.fields, "data").JNull?
  }

  /** The bytes are the descriptor's inline data, or what the registry serves at request t, with
      a digest header that agrees if there is one. */
  ghost predicate Served(v: RegistryVerifier, r: OciReference, descriptor: map<string, Json>, t: nat, bytes: seq<Byte>)
    requires WellDeclared(v, descriptor)
  {
    var data, digest := Get(descriptor, "data"), Get(descriptor, "digest").s;
    if !data.JNull? then data.JStr? && v.decode(data.s) == Some(bytes)
    else
      var response := v.get(t, r.scheme + "://" + r.registry + "/v2/" + r.repository + "/blobs/" + digest, Get(descriptor, "size").i);
      response.Ok? && response.value.body == bytes && HeaderAgrees(response.value.headers, digest)
  }

  /** What it takes for a descriptor to be verified. */
  ghost predicate Verifiable(v: RegistryVerifier, r: OciReference, descriptor: Json, t: nat) {
    && descriptor.JObj? && WellDeclared(v, descriptor.fields)
    && exists bytes :: Served(v, r, descriptor.fields, t, bytes)
         && |bytes| == Get(descriptor.fields, "size").i && v.sha(bytes) == Get(descriptor.fields, "digest").s
  }

  /** The bytes were hashed and measured, and agree with what the descriptor declares. */
  ghost predicate Hashed(v: RegistryVerifier, descriptor: Json, c: Content, bytes: seq<Byte>) {
    && descriptor.JObj?
    && Get(descriptor.fields, "digest") == JStr(c.digest) && IsDigest(c.digest) && v.sha(bytes) == c.digest
    && Get(descriptor.fields, "size") == JInt(c.size) && |bytes| == c.size <= v.maxBlob
    && Get(descriptor.fields, "mediaType") == JStr(c.mediaType) && Sized(c.mediaType, 255) && !HasSpace(c.mediaType)
    && (c.registryDigest.Some? ==> c.registryDigest.value == c.digest)
  }

  /** Inline data needs no request; anything else is fetched, no more than the declared size. */
  method VerifyDescriptor(v: RegistryVerifier, r: OciReference, role: string, descriptor: Json, calls: nat)
    returns (content: Answer<Content>, bytes: seq<Byte>, calls': nat)
    requires descriptor.JObj?
    ensures content.Ok? <==> Verifiable(v, r, descriptor, calls)
    ensures content.Ok? ==> Hashed(v, descriptor, content.value, bytes) && content.value.role == role
    ensures content.Ok? ==> calls' == if Inline(descriptor) then calls else calls + 1
    ensures content.Ok? && Inline(descriptor) ==> content.value.registryDigest.None?
    ensures content.Raise? ==> bytes == []
    ensures calls' == calls || (calls' == calls + 1 && !Inline(descriptor))
  {
    hide IsDigest, HasSpace, HeaderDigest, Get, Padded;
    bytes, calls' := [], calls;
    var fields := descriptor.fields;
    var digest, size, mediaType := Get(fields, "digest"), Get(fields, "size"), Get(fields, "mediaType");
    if !digest.JStr? || !IsDigest(digest.s) {
      return Raise("OCIArtifactVerificationError"), bytes, calls';
    }
    if !size.JInt? || size.i < 0 {
      return Raise("OCIArtifactVerificationError"), bytes, calls';
    }
    if !mediaType.JStr? || mediaType.s == "" || |mediaType.s| > 255 || HasSpace(mediaType.s) {
      return Raise("OCIArtifactVerificationError"), bytes, calls';
    }
    if size.i > v.maxBlob {
      return Raise("OCIArtifactVerificationError"), bytes, calls';
    }
    var data := Get(fields, "data");
    var body, registryDigest := [], None;
    if !data.JNull? {
      if !data.JStr? || v.decode(data.s).None? {
        return Raise("OCIArtifactVerificationError"), bytes, calls';
      }
      body := v.decode(data.s).value;
    } else {
      var url := r.scheme + "://" + r.registry + "/v2/" + r.repository + "/blobs/" + digest.s;
      var response := v.get(calls, url, size.i);
      calls' := calls + 1;
      if response.Raise? {
        return Raise(response.exception), bytes, calls';
      }
      body := response.value.body;
      HeaderDigestExact(response.value.headers, digest.s, v.sha(body));
      var header := HeaderDigest(response.value.headers, digest.s, v.sha(body));
      if header.Raise? {
        return Raise(header.exception), bytes, calls';
      }
      registryDigest := header.value;
    }
    if |body| != size.i || v.sha(body) != digest.s {
      return Raise("OCIArtifactVerificationError"), bytes, calls';
    }
    assert Served(v, r, fields, calls, body);
    bytes := body;
    content := Ok(Content(role, digest.s, mediaType.s, size.i, registryDigest));
  }

  // ----- The manifest -----

  /** A manifest of the supported kind, of the announced media type, with its descriptors. */
  predicate LeafManifest(manifest: Json, mediaType: string) {
    && manifest.JObj? && AllowedManifest(mediaType)
    && (Get(manifest.fields, "schemaVersion") == JInt(2) || Get(manifest.fields, "schemaVersion") == JReal(2.0))
    && Get(manifest.fields, "mediaType") == JStr(mediaType)
    && Get(manifest.fields, "config").JObj? && Get(manifest.fields, "layers").JArr?
    && forall l :: l in Get(manifest.fields, "layers").items ==> l.JObj?
  }

  /** Config first, then every layer in order. */
  function Descriptors(manifest: Json): seq<Json>
    requires manifest.JObj? && Get(manifest.fields, "layers").JArr?
  {
    [Get(manifest.fields, "config")] + Get(manifest.fields, "layers").items
  }

  function ContentSize(content: seq<Content>): nat {
    if content == [] then 0 else ContentSize(content[..|content| - 1]) + content[|content| - 1].size
  }

  /** The contents account for the first descriptors: same order, right role, hashed bytes. */
  ghost predicate Accounted(v: RegistryVerifier, descriptors: seq<Json>, content: seq<Content>, blobs: seq<seq<Byte>>) {
    && |content| == |blobs| <= |descriptors|
    && forall i :: 0 <= i < |content| ==>
         Hashed(v, descriptors[i], content[i], blobs[i]) && content[i].role == if i == 0 then "config" else "layer"
  }

  /** How many requests the descriptors need. */
  function Requests(descriptors: seq<Json>): nat {
    if descriptors == [] then 0
    else Requests(descriptors[..|descriptors| - 1]) + if Inline(descriptors[|descriptors| - 1]) then 0 else 1
  }

  function DeclaredSize(descriptor: Json): nat {
    if descriptor.JObj? && Get(descriptor.fields, "size").JInt? && Get(descriptor.fields, "size").i >= 0 then
      Get(descriptor.fields, "size").i
    else 0
  }

  function DeclaredTotal(descriptors: seq<Json>): nat {
    if descriptors == [] then 0
    else DeclaredTotal(descriptors[..|descriptors| - 1]) + DeclaredSize(descriptors[|descriptors| - 1])
  }

  lemma {:induction false} TotalGrows(descriptors: seq<Json>, i: nat)
    requires i <= |descriptors|
    ensures DeclaredTotal(descriptors[..i]) <= DeclaredTotal(descriptors)
    decreases |descriptors|
  {
    hide DeclaredSize;
    if i == |descriptors| {
      assert descriptors[..i] == descriptors;
    } else {
      TotalGrows(descriptors[..|descriptors| - 1], i);
      assert descriptors[..|descriptors| - 1][..i] == descriptors[..i];
    }
  }

  /** Every descriptor is verified, each at its place in the order of requests. */
  ghost predicate AllVerifiable(v: RegistryVerifier, r: OciReference, descriptors: seq<Json>, calls: nat) {
    forall k :: 0 <= k < |descriptors| ==> Verifiable(v, r, descriptors[k], calls + Requests(descriptors[..k]))
  }

  lemma AccountedSnoc(v: RegistryVerifier, descriptors: seq<Json>, found: seq<Content>, blobs: seq<seq<Byte>>, c: Content, bytes: seq<Byte>)
    requires Accounted(v, descriptors, found, blobs) && |found| < |descriptors| && Hashed(v, descriptors[|found|], c, bytes)
    requires c.role == if |found| == 0 then "config" else "layer"
    ensures Accounted(v, descriptors, found + [c], blobs + [bytes])
    ensures ContentSize(found + [c]) == ContentSize(found) + c.size
  {
    hide Hashed;
    var content, more := found + [c], blobs + [bytes];
    assert content[..|found|] == found;
    forall i | 0 <= i < |content|
      ensures Hashed(v, descriptors[i], content[i], more[i]) && content[i].role == if i == 0 then "config" else "layer"
    {
      if i < |found| {
        assert content[i] == found[i] && more[i] == blobs[i];
      }
    }
  }

  lemma OneMore(descriptors: seq<Json>, i: nat)
    requires i < |descriptors|
    ensures Requests(descriptors[..i + 1]) == Requests(descriptors[..i]) + if Inline(descriptors[i]) then 0 else 1
    ensures DeclaredTotal(descriptors[..i + 1]) == DeclaredTotal(descriptors[..i]) + DeclaredSize(descriptors[i])
  {
    hide Inline, DeclaredSize;
    assert descriptors[..i + 1][..i] == descriptors[..i];
  }

  /** The loop over the descriptors. It succeeds exactly if every descriptor is verified and the
      declared sizes stay within the budget. At every point, and however it ends, the bytes it has
      accepted are within the budget and one blob. */
  method VerifyContents(v: RegistryVerifier, r: OciReference, descriptors: seq<Json>, manifestSize: nat, calls: nat)
    returns (contents: Answer<seq<Content>>, ghost accepted: nat, calls': nat)
    requires manifestSize <= v.maxTotal && forall d :: d in descriptors ==> d.JObj?
    ensures contents.Ok? <==> AllVerifiable(v, r, descriptors, calls) && manifestSize + DeclaredTotal(descriptors) <= v.maxTotal
    ensures accepted <= v.maxTotal + v.maxBlob
    ensures contents.Ok? ==>
      && |contents.value| == |descriptors| && (exists blobs :: Accounted(v, descriptors, contents.value, blobs))
      && accepted == manifestSize + ContentSize(contents.value) <= v.maxTotal
      && calls' == calls + Requests(descriptors)
  {
    hide Hashed, Verifiable, Inline, DeclaredSize, Accounted, ContentSize, DeclaredTotal, Requests;
    StartsEmpty(v, descriptors);
    var total, found := manifestSize, [];
    ghost var blobs: seq<seq<Byte>> := [];
    calls' := calls;
    for i := 0 to |descriptors|
      invariant |found| == i && Accounted(v, descriptors, found, blobs)
      invariant total == manifestSize + ContentSize(found) == manifestSize + DeclaredTotal(descriptors[..i]) <= v.maxTotal
      invariant calls' == calls + Requests(descriptors[..i])
      invariant forall k :: 0 <= k < i ==> Verifiable(v, r, descriptors[k], calls + Requests(descriptors[..k]))
    {
      assert descriptors[i] in descriptors;
      OneMore(descriptors, i);
      var content, bytes;
      content, bytes, calls' := VerifyDescriptor(v, r, if i == 0 then "config" else "layer", descriptors[i], calls');
      if content.Raise? {
        return Raise(content.exception), total, calls';
      }
      HashedSize(v, descriptors[i], content.value, bytes);
      total := total + |bytes|;
      TotalGrows(descriptors, i + 1);
      if total > v.maxTotal {
        return Raise("OCIArtifactVerificationError"), total, calls';
      }
      AccountedSnoc(v, descriptors, found, blobs, content.value, bytes);
      found, blobs := found + [content.value], blobs + [bytes];
    }
    assert descriptors[..|descriptors|] == descriptors;
    return Ok(found), total, calls';
  }

  lemma StartsEmpty(v: RegistryVerifier, descriptors: seq<Json>)
    ensures Accounted(v, descriptors, [], []) && ContentSize([]) == 0
    ensures Requests(descriptors[..0]) == 0 && DeclaredTotal(descriptors[..0]) == 0
  {
  }

  lemma HashedSize(v: RegistryVerifier, descriptor: Json, c: Content, bytes: seq<Byte>)
    requires Hashed(v, descriptor, c, bytes)
    ensures |bytes| == c.size == DeclaredSize(descriptor) <= v.maxBlob
  {
    hide IsDigest, HasSpace, Get;
  }

  /** What a receipt vouches for: the manifest has the requested digest and size, and config and
      every layer are listed in order with the digest and size of bytes that were hashed; all of
      it together is within the budget. */
  ghost predicate Vouched(v: RegistryVerifier, uri: string, digest: string, r: Receipt, manifest: seq<Byte>) {
    && r.verifier == VerifierName() && r.artifactUri == uri && r.artifactDigest == digest
    && v.sha(manifest) == digest && |manifest| == r.manifestSize && 0 < r.manifestSize <= v.maxManifest
    && (r.registryDigest.Some? ==> r.registryDigest.value == digest)
    && v.loads(manifest).Some? && LeafManifest(v.loads(manifest).value, r.mediaType)
    && var descriptors := Descriptors(v.loads(manifest).value);
       && |r.content| == |descriptors| && (exists blobs :: Accounted(v, descriptors, r.content, blobs))
       && r.manifestSize + ContentSize(r.content) <= v.maxTotal
  }

  /** The reference may be fetched: it names the expected digest, on an allowed registry. */
  predicate Fetchable(v: RegistryVerifier, r: OciReference, expected: string) {
    r.digest == expected && r.registry in v.allowed && (r.scheme == "http" ==> v.insecure)
  }

  function ManifestAt(v: RegistryVerifier, r: OciReference, t: nat): Answer<Response> {
    v.get(t, r.scheme + "://" + r.registry + "/v2/" + r.repository + "/manifests/" + r.digest, v.maxManifest)
  }

  /** The registry serves the manifest of the digest at request t. */
  ghost predicate ManifestServed(v: RegistryVerifier, r: OciReference, t: nat) {
    && ManifestAt(v, r, t).Ok?
    && var response := ManifestAt(v, r, t).value;
       && response.body != [] && v.sha(response.body) == r.digest && HeaderAgrees(response.headers, r.digest)
       && v.loads(response.body).Some?
       && exists mediaType :: Announces(response.headers, mediaType) && LeafManifest(v.loads(response.body).value, mediaType)
  }

  method FetchManifest(v: RegistryVerifier, r: OciReference, calls: nat) returns (manifest: Answer<Response>, registryDigest: Option<string>)
    requires Limited(v)
    ensures manifest.Ok? <==> ManifestServed(v, r, calls)
    ensures manifest.Ok? ==>
      && manifest == ManifestAt(v, r, calls)
      && 0 < |manifest.value.body| <= v.maxManifest && v.sha(manifest.value.body) == r.digest
      && registryDigest == (if "Docker-Content-Digest" in manifest.value.headers then Some(r.digest) else None)
      && v.loads(manifest.value.body).Some?
      && LeafManifest(v.loads(manifest.value.body).value, ContentType(manifest.value.headers))
  {
    hide ContentType, AllowedManifest, IsDigest, HeaderDigest, Announces, Get, Padded;
    registryDigest := None;
    var response := ManifestAt(v, r, calls);
    if response.Raise? {
      return response, registryDigest;
    }
    var body := response.value.body;
    if body == [] || v.sha(body) != r.digest {
      return Raise("OCIArtifactVerificationError"), registryDigest;
    }
    HeaderDigestExact(response.value.headers, r.digest, v.sha(body));
    var header := HeaderDigest(response.value.headers, r.digest, v.sha(body));
    if header.Raise? {
      return Raise(header.exception), registryDigest;
    }
    var mediaType := ContentType(response.value.headers);
    LeafAnnounced(v, response.value);
    if !AllowedManifest(mediaType) {
      return Raise("OCIArtifactVerificationError"), registryDigest;
    }
    var parsed := v.loads(body);
    if parsed.None? || !parsed.value.JObj? {
      return Raise("OCIArtifactVerificationError"), registryDigest;
    }
    var fields := parsed.value.fields;
    if Get(fields, "schemaVersion") != JInt(2) && Get(fields, "schemaVersion") != JReal(2.0) {
      return Raise("OCIArtifactVerificationError"), registryDigest;
    }
    if Get(fields, "mediaType") != JStr(mediaType) {
      return Raise("OCIArtifactVerificationError"), registryDigest;
    }
    if !Get(fields, "config").JObj? || !Get(fields, "layers").JArr? {
      return Raise("OCIArtifactVerificationError"), registryDigest;
    }
    if exists l :: l in Get(fields, "layers").items && !l.JObj? {
      return Raise("OCIArtifactVerificationError"), registryDigest;
    }
    return response, header.value;
  }

  lemma LeafAnnounced(v: RegistryVerifier, response: Response)
    ensures v.loads(response.body).Some? ==>
      var document := v.loads(response.body).value;
      (exists mediaType :: Announces(response.headers, mediaType) && LeafManifest(document, mediaType))
      <==> LeafManifest(document, ContentType(response.headers))
  {
    hide ContentType, AllowedManifest, Announces, Get;
    if v.loads(response.body).Some? {
      var document, mediaType := v.loads(response.body).value, ContentType(response.headers);
      if LeafManifest(document, mediaType) {
        AllowedIsTrimmed(mediaType);
        ContentTypeExact(response.headers, mediaType);
      }
      if other :| Announces(response.headers, other) && LeafManifest(document, other) {
        AllowedIsTrimmed(other);
        ContentTypeExact(response.headers, other);
      }
    }
  }

  /** What it takes for an artifact to get a receipt, the requests starting at `calls`. */
  ghost predicate Authentic(v: RegistryVerifier, uri: string, expected: string, calls: nat) {
    && v.parse(uri).Some? && Fetchable(v, v.parse(uri).value, expected)
    && var r := v.parse(uri).value;
       && ManifestServed(v, r, calls)
       && var body := ManifestAt(v, r, calls).value.body;
          && v.loads(body).value.JObj? && Get(v.loads(body).value.fields, "layers").JArr?
          && var descriptors := Descriptors(v.loads(body).value);
             && AllVerifiable(v, r, descriptors, calls + 1) && |body| + DeclaredTotal(descriptors) <= v.maxTotal
             && v.clock(calls + 1 + Requests(descriptors)).Ok? && v.clock(calls + 1 + Requests(descriptors)).value.Some?
  }

  /** A receipt is issued exactly for authentic artifacts. */
  method Verify(v: RegistryVerifier, uri: string, expected: string, calls: nat)
    returns (receipt: Answer<Receipt>, ghost accepted: nat)
    requires Limited(v)
    ensures receipt.Ok? <==> Authentic(v, uri, expected, calls)
    ensures accepted <= v.maxTotal + v.maxBlob
    ensures receipt.Ok? ==>
      && (exists manifest :: Vouched(v, uri, expected, receipt.value, manifest))
      && v.parse(uri).Some? && Fetchable(v, v.parse(uri).value, expected)
      && exists t :: calls < t && v.clock(t) == Ok(Some(receipt.value.verifiedAt))
  {
    hide Accounted, LeafManifest, ContentType, VerifierName, ManifestServed, ManifestAt, AllVerifiable, DeclaredTotal, Requests;
    hide Descriptors, Get;
    accepted := 0;
    var reference := v.parse(uri);
    if reference.None? {
      return Raise("OCIArtifactVerificationError"), accepted;
    }
    var r := reference.value;
    if r.digest != expected || r.registry !in v.allowed || (r.scheme == "http" && !v.insecure) {
      return Raise("OCIArtifactVerificationError"), accepted;
    }
    var response, registryDigest := FetchManifest(v, r, calls);
    if response.Raise? {
      return Raise(response.exception), accepted;
    }
    var document := v.loads(response.value.body).value;
    var mediaType := ContentType(response.value.headers);
    LeafDescriptors(document, mediaType);
    var contents, calls';
    contents, accepted, calls' := VerifyContents(v, r, Descriptors(document), |response.value.body|, calls + 1);
    if contents.Raise? {
      return Raise(contents.exception), accepted;
    }
    var now := v.clock(calls');
    if now.Raise? || now.value.None? {
      return Raise("OCIArtifactVerificationError"), accepted;
    }
    receipt := Ok(Receipt(VerifierName(), uri, r.digest, mediaType, |response.value.body|, registryDigest,
                          now.value.value, contents.value));
    assert Vouched(v, uri, expected, receipt.value, response.value.body);
  }

  lemma LeafDescriptors(manifest: Json, mediaType: string)
    requires LeafManifest(manifest, mediaType)
    ensures manifest.JObj? && Get(manifest.fields, "layers").JArr?
    ensures forall d :: d in Descriptors(manifest) ==> d.JObj?
  {
    hide AllowedManifest, Get;
  }
}
