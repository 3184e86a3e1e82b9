/** What the package validator asks for, written out item by item, and that it accepts exactly the
    packages that are so. */
module PackageRules {
  import opened Basics
  import opened Contracts

  // ----- Evidence -----

  /** No two references have one identity or one envelope digest; the digests listed are those of
      the artifacts, once each. */
  ghost predicate SoundReferences(p: Package) {
    && p.evidence != []
    && (forall i, j :: 0 <= i < j < |p.evidence| ==>
          && (p.evidence[i].producer != p.evidence[j].producer || p.evidence[i].id != p.evidence[j].id)
          && p.evidence[i].envelopeDigest != p.evidence[j].envelopeDigest)
    && Distinct(p.evidenceRefs)
    && forall x :: x in p.evidenceRefs <==> exists r :: r in p.evidence && r.artifactDigest == x
  }

  lemma EvidenceExactly(p: Package)
    ensures CoherentEvidence(p) <==> SoundReferences(p)
  {
    DistinctExact(ReferenceIdentity, p.evidence);
    DistinctExact(ReferenceEnvelope, p.evidence);
    forall x ensures x in Map(ReferenceArtifact, p.evidence) <==> exists r :: r in p.evidence && r.artifactDigest == x {
      MemberExact(ReferenceArtifact, p.evidence, x);
    }
    hide Map, Distinct;
    if SoundReferences(p) {
      assert p.evidence[0] in p.evidence;
      assert p.evidence[0].artifactDigest in p.evidenceRefs;
      forall x ensures x in Elements(Map(ReferenceArtifact, p.evidence)) <==> x in Elements(p.evidenceRefs) {
      }
    }
    if CoherentEvidence(p) {
      forall x ensures x in p.evidenceRefs <==> exists r :: r in p.evidence && r.artifactDigest == x {
        assert x in Elements(p.evidenceRefs) <==> x in Elements(Map(ReferenceArtifact, p.evidence));
      }
    }
  }

  // ----- Gates -----

  ghost predicate SoundGates(p: Package) {
    && (forall i, j :: 0 <= i < j < |p.policies| ==> p.policies[i].checkId != p.policies[j].checkId)
    && (forall r :: r in p.policies ==> r.allowed)
    && p.constraints != [] && (forall i, j :: 0 <= i < j < |p.constraints| ==> p.constraints[i].id != p.constraints[j].id)
    && forall x :: x in p.objective.constraintIds <==> exists c :: c in p.constraints && c.id == x
  }

  lemma GatesExactly(p: Package)
    ensures CoherentGates(p) <==> SoundGates(p)
  {
    DistinctExact(CheckId, p.policies);
    DistinctExact(ConstraintId, p.constraints);
    forall x ensures x in Map(ConstraintId, p.constraints) <==> exists c :: c in p.constraints && c.id == x {
      MemberExact(ConstraintId, p.constraints, x);
    }
    hide Map, Distinct;
    var cited, known := Elements(p.objective.constraintIds), Elements(Map(ConstraintId, p.constraints));
    if SoundGates(p) {
      forall x ensures x in cited <==> x in known {
      }
    }
    if CoherentGates(p) {
      forall x ensures x in p.objective.constraintIds <==> exists c :: c in p.constraints && c.id == x {
        assert x in cited <==> x in known;
      }
    }
  }

  // ----- Selection -----

  /** The candidate covers the hard constraints, and none of the candidates, all of them priced, is
      cheaper. */
  ghost predicate BestChoice(p: Package, c: Candidate) {
    && c in p.candidates && c.id == p.selectedId
    && (forall k :: k in p.constraints && k.hard ==> k.id in c.constraintRefs)
    && forall other :: other in p.candidates ==>
         Cost(p.objective, other).Some? && Cost(p.objective, c).Some? && Cost(p.objective, c).value <= Cost(p.objective, other).value
  }

  /** The alternatives are the candidates that were not selected, unchanged and once each. */
  ghost predicate SoundAlternatives(p: Package) {
    && (forall i, j :: 0 <= i < j < |p.rejected| ==> p.rejected[i].candidate.id != p.rejected[j].candidate.id)
    && (forall r :: r in p.rejected ==> r.candidate in p.candidates && r.candidate.id != p.selectedId)
    && forall c :: c in p.candidates && c.id != p.selectedId ==> exists r :: r in p.rejected && r.candidate == c
  }

  ghost predicate SoundChoice(p: Package) {
    && (forall i, j :: 0 <= i < j < |p.candidates| ==> p.candidates[i].id != p.candidates[j].id)
    && (forall c, x :: c in p.candidates && x in c.constraintRefs ==> exists k :: k in p.constraints && k.id == x)
    && (exists c :: BestChoice(p, c))
    && SoundAlternatives(p)
  }

  lemma OneById(cs: seq<Candidate>, a: Candidate, b: Candidate)
    requires forall i, j :: 0 <= i < j < |cs| ==> cs[i].id != cs[j].id
    requires a in cs && b in cs && a.id == b.id
    ensures a == b
  {
    var i :| 0 <= i < |cs| && cs[i] == a;
    var j :| 0 <= j < |cs| && cs[j] == b;
  }

  lemma AlternativesExactly(p: Package)
    requires forall i, j :: 0 <= i < j < |p.candidates| ==> p.candidates[i].id != p.candidates[j].id
    ensures AlternativesMatch(p.candidates, p.selectedId, p.rejected) <==> SoundAlternatives(p)
  {
    DistinctExact(RejectedId, p.rejected);
    forall x
      ensures x in Map(RejectedId, p.rejected) <==> exists r :: r in p.rejected && r.candidate.id == x
      ensures x in Map(CandidateId, p.candidates) <==> exists c :: c in p.candidates && c.id == x
    {
      MemberExact(RejectedId, p.rejected, x);
      MemberExact(CandidateId, p.candidates, x);
    }
    hide Map, Distinct;
    var ids, rejectedIds := Elements(Map(CandidateId, p.candidates)), Elements(Map(RejectedId, p.rejected));
    if AlternativesMatch(p.candidates, p.selectedId, p.rejected) {
      forall r | r in p.rejected ensures r.candidate in p.candidates && r.candidate.id != p.selectedId {
        assert r.candidate.id in rejectedIds;
      }
      forall c | c in p.candidates && c.id != p.selectedId ensures exists r :: r in p.rejected && r.candidate == c {
        assert c.id in ids;
        assert c.id in rejectedIds;
      }
    }
    if SoundAlternatives(p) {
      forall x ensures x in rejectedIds <==> x in ids - {p.selectedId} {
      }
      forall r, c | r in p.rejected && c in p.candidates && c.id == r.candidate.id ensures r.candidate == c {
        OneById(p.candidates, c, r.candidate);
      }
    }
  }

  lemma ChoiceExactly(p: Package)
    ensures CoherentSelection(p) <==> SoundChoice(p)
  {
    DistinctExact(CandidateId, p.candidates);
    forall x
      ensures x in Map(CandidateId, p.candidates) <==> exists c :: c in p.candidates && c.id == x
      ensures x in Map(ConstraintId, p.constraints) <==> exists k :: k in p.constraints && k.id == x
    {
      MemberExact(CandidateId, p.candidates, x);
      MemberExact(ConstraintId, p.constraints, x);
    }
    if forall i, j :: 0 <= i < j < |p.candidates| ==> p.candidates[i].id != p.candidates[j].id {
      AlternativesExactly(p);
    }
    hide Map, Distinct, Cost, AlternativesMatch, SoundAlternatives, Selected;
    if CoherentSelection(p) {
      assert BestChoice(p, Selected(p.candidates, p.selectedId));
    }
    if c :| BestChoice(p, c) {
      if SoundChoice(p) {
        OneById(p.candidates, c, Selected(p.candidates, p.selectedId));
      }
    }
  }

  // ----- Findings -----

  ghost predicate SoundFindings(p: Package) {
    && (forall i, j :: 0 <= i < j < |p.findings| ==>
          p.findings[i].candidateId != p.findings[j].candidateId || p.findings[i].checkId != p.findings[j].checkId)
    && (forall f :: f in p.findings ==> exists c :: c in p.candidates && c.id == f.candidateId)
    && (exists f :: f in p.findings && f.candidateId == p.selectedId)
    && forall f :: f in p.findings && f.candidateId == p.selectedId ==> f.verdict.Survives?
  }

  lemma FindingsExactly(p: Package)
    ensures CoherentFindings(p) <==> SoundFindings(p)
  {
    DistinctExact(FindingKey, p.findings);
    forall x ensures x in Map(CandidateId, p.candidates) <==> exists c :: c in p.candidates && c.id == x {
      MemberExact(CandidateId, p.candidates, x);
    }
    hide Map, Distinct;
  }

  // ----- Citations -----

  /** Whatever is cited anywhere in the package is evidence of the package. */
  ghost predicate CitesItsEvidence(p: Package) {
    && (forall r, x :: r in p.policies && x in r.evidenceRefs ==> x in p.evidenceRefs)
    && (forall c, x :: c in p.constraints && x in c.evidenceRefs ==> x in p.evidenceRefs)
    && (forall x :: x in p.objective.evidenceRefs ==> x in p.evidenceRefs)
    && (forall c, x :: c in p.candidates && x in c.evidenceRefs ==> x in p.evidenceRefs)
    && forall f, x :: f in p.findings && x in f.evidenceRefs ==> x in p.evidenceRefs
  }

  lemma CitationsExactly(p: Package)
    ensures CoherentReferences(p) <==> CitesItsEvidence(p)
  {
  }

  /** All that the validator asks. */
  ghost predicate SoundPackage(p: Package) {
    && p.createdAt < p.expiresAt && SoundReferences(p) && SoundGates(p) && SoundChoice(p) && SoundFindings(p)
    && CitesItsEvidence(p)
  }

  /** The validator accepts exactly the sound packages. */
  lemma CoherentExactly(p: Package)
    ensures Coherent(p) <==> SoundPackage(p)
  {
    hide CoherentEvidence, CoherentGates, CoherentSelection, CoherentFindings, CoherentReferences;
    hide SoundReferences, SoundGates, SoundChoice, SoundFindings, CitesItsEvidence;
    EvidenceExactly(p);
    GatesExactly(p);
    ChoiceExactly(p);
    FindingsExactly(p);
    CitationsExactly(p);
  }
}
