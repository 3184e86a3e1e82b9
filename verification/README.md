# A verified model of the governance control loop

The repository turns evidence about models into governed decisions. Evidence envelopes come in,
policies admit or refuse them, classifiers derive constraints, an objective is interpreted, a
planner proposes candidates, the selected candidate is challenged, and a decision package is
signed and offered to a proposal sink. The kernel promises that a cycle is decided the same way
however its evidence is ordered, that no cycle is proposed twice, and that once something was
offered the outcome is never lost. Around the kernel stand adapters that turn responses of other
services into envelopes, and policy packs that check such envelopes again from scratch.

This project models that behaviour in Dafny and proves it for every input, every run and every
interleaving.

## How the model is built

- `Basics`, `Order`, `Json`, `JsonReader`, `CanonicalText`: options and answers, lexicographic
  sorting, JSON values, a reader for canonical JSON after RFC 8259, and the canonical text that all
  digests are taken over.
- `Contracts`, `PackageRules`, `Costs`, `Signature`, `Registry`, `Cycle`, `EnvelopeText`: the
  contract models with their validators, what the package validator asks item by item, the weighted
  objective, the signature text, the action registry, the cycle key, the canonical text of envelopes.
- `KernelMachine`: one call of the kernel as a state machine. A step is silent or consumes what
  one port answered; a port may answer any value that its own validator accepts, or raise.
- `OneWayDoor`, `Gates`, `Trail`: three invariants of every step. What the run has done to the
  cache, the signer and the sink; what the gates it has passed established; which proof events
  it has written with which receipts.
- `Runs`, `Guarantees`, `Answers`: complete calls, driven by ports whose answers may depend on
  everything that went before, what a caller can rely on, and which answer each part of a package
  and of a rejection comes from.
- `Interleaving`: any number of concurrent calls, the lock, and a scheduler that may do anything.
- `Lockstep`, `Kernel`: the kernel as a class with its replay cache and its loops, proved to do
  exactly what the state machine does.
- `Builtin`, `Pipeline`, `Decision`: the built-in ports and the decision table of the kernel that
  is assembled from them.
- `EvalHub`, `EvalHubMeaning`, `EvalHubPolicy`, `EvalHubRules`, `EvalHubAgreement`, `EvalHubOci`,
  `EvalHubConstraints`: the EvalHub adapter and what it writes, its policy and the rules that it
  follows for evidence of any producer, the exact agreement of the two, the binding and checking of
  OCI verification receipts, and the classifier.
- `TrustyAI`, `TrustyAIPolicy`, `TrustyAIRules`: the TrustyAI adapter, its policy and its
  classifier, and the rules that the policy follows.
- `OciRegistry`: the registry client that verifies manifests and blobs within a byte budget.

Conventions:

- Time is an integer, weights and costs are reals.
- Hashes, uuid5, the float printer, JSON Schema evaluation, URL splitting and response parsing are
  parameters. Digests and names are assumed to tell apart only the values that are in play in one
  cycle (`CollisionFree`, `NamesApart`, `ActionsApart`), which a finite digest can satisfy. That
  envelope digests tell envelopes apart follows once the hash tells their canonical texts apart
  (`EnvelopeText.TextsSeparate`).
- Whatever a port returns has passed its own validator (`WellTyped`, `Lawful`).
- `Answer` stands for a returned value or a raised exception. The source's status REJECTED is
  called `Declined`, because the proposal receipt has a status of that name too.
- The kernel's one long method is split by phase in `Kernel`; its local variables are bundled in
  a `Docket`. The number of port calls so far, which a port's answer may depend on, stands for
  all that the host remembers.

## What turned out to be conditional

- The built-in policy and freshness check list the digest of every item and do not remove
  duplicates, while their result models refuse duplicates. Two items with one artifact digest
  make a call with the built-in ports raise; nothing else about well-posed evidence does
  (`Decision.StandaloneDecides`; two reports about one artifact are an instance,
  `Decision.TwoReportsAreAmbiguous`).
- In strict OCI mode nothing that comes straight from the EvalHub adapter is admitted, whatever
  its state. It can be bound exactly if its OCI provenance is complete and the verifier answers
  for every artifact (`EvalHubOci.BindingNeedsProvenance`), and what was bound is admitted exactly
  if the job was aborted or has a test and every receipt is convincing
  (`EvalHubOci.StrictPolicyAgrees`).
- Every text of the right shape decodes to 64 bytes, but not every one is the text of its
  signature: the last character has four spare bits. Two texts stand for one signature exactly if
  they agree but for these bits (`Signature.SameSignature`), and a text is the one its signature
  is written as exactly if they are clear (`Signature.SignatureTextIsCanonical`).

## Model

| member | source | states |
|---|---|---|
| Order.StringLePrecedes | src/gcl_oss/kernel.py:86-86 | Strings are ordered by code point at their first difference, a proper beginning first |
| Order.TupleLePrecedes | src/gcl_oss/kernel.py:75-82 | Tuples of strings are ordered by their first different component |
| CanonicalText.CanonicalTextReads | src/gcl_oss/contracts.py:415-423 | The canonical text of every JSON tree is JSON for that tree: a reader after RFC 8259, which admits no white space between tokens and only ascending names, gets the tree back |
| CanonicalText.CanonicalTextDetermines | src/gcl_oss/contracts.py:415-427 | Two JSON trees have the same canonical text exactly if they are equal, keys in any order; hence equal bytes mean equal values |
| CanonicalText.CanonicalTextIsAscii | src/gcl_oss/contracts.py:415-427 | The canonical text is printable ASCII whatever the strings hold |
| PackageRules.CoherentExactly | src/gcl_oss/contracts.py:299-406 | The package validator accepts exactly the packages that meet every condition written out on their items: identities, digests, gates, selection, alternatives, findings and citations |
| Costs.CostBounds | src/gcl_oss/contracts.py:187-248 | Under the validated weights every cost lies between 0 and 1 plus the tolerance |
| Costs.CostIgnoresTermOrder | src/gcl_oss/contracts.py:244-248 | Rearranging the terms of an objective changes no cost |
| Costs.DominatingIsCheaper | src/gcl_oss/contracts.py:244-248 | A candidate that is at most equal on every term and strictly smaller on a positively weighted one is strictly cheaper |
| Costs.SelectedIsUndominated | src/gcl_oss/contracts.py:349-354 | No candidate of a coherent package dominates the selected one |
| Signature.SignatureRoundTrip | src/gcl_oss/contracts.py:464-496 | For every 64-byte signature the stripped text has 86 characters of the allowed alphabet, and decoding it with the padding restored gives the signature back |
| Signature.AlphabetIsUrlSafe | src/gcl_oss/contracts.py:466-466 | The letters are those of the URL-safe table of RFC 4648 |
| Signature.SignatureTextIsBase64 | src/gcl_oss/contracts.py:464-472 | Read as digits to base 64, the text is the signature read as digits to base 256, times sixteen for the spare bits |
| Signature.SignatureTextDecodes | src/gcl_oss/contracts.py:433-496 | Every text that the signature pattern admits decodes with the padding restored, to 64 bytes; encoding these gives the text with the four spare bits of its last letter cleared |
| Signature.SameSignature | src/gcl_oss/contracts.py:496-496 | Two admitted texts decode to one signature exactly if their first 85 letters are the same and the last ones agree in their upper two bits |
| Signature.SignatureTextIsCanonical | src/gcl_oss/contracts.py:464-496 | An admitted text is the text of the signature it decodes to exactly if the spare bits of its last letter are clear |
| Signature.SignatureTextIsNotUnique | src/gcl_oss/contracts.py:433-433 | A pair of different admitted texts with one signature, so the converse of the round trip fails |
| Registry.ActionRegistry.constructor | src/gcl_oss/registry.py:36-39 | A new registry is empty and well filed |
| Registry.ActionRegistry.Register | src/gcl_oss/registry.py:41-44 | An action is registered once; a second definition is refused and changes nothing |
| Registry.ActionRegistry.Validate | src/gcl_oss/registry.py:46-67 | A candidate is validated exactly if its action is registered, its consequence allowed and its parameters conform; the definition returned is the registered one |
| Order.SortCanonical | src/gcl_oss/kernel.py:86-86 | Sorting under a total order without ties between different items is canonical: equal results exactly for rearrangements |
| Cycle.CycleKeyIgnoresOrder | src/gcl_oss/kernel.py:85-92 | The cycle key does not depend on the order of the evidence |
| Cycle.CycleKeyBinds | src/gcl_oss/kernel.py:85-92 | Two cycles share a key exactly if they have the same evidence, in some order, and the same scope |
| Cycle.CycleKeySays | src/gcl_oss/kernel.py:75-92 | The cycle key is the hash of a JSON text that reads as the scope and one row of five texts for every item, in lexicographic order, and nothing else |
| EnvelopeText.TextsSeparate | src/gcl_oss/contracts.py:415-427 | The digests of envelopes tell them apart if the hash tells their canonical texts apart: the JSON form of an envelope loses nothing, and the canonical text determines it |
| EnvelopeText.EnvelopeTextSays | src/gcl_oss/contracts.py:415-423 | The text that an envelope is hashed as reads, as JSON, as the envelope member by member; what is absent is not mentioned |
| EnvelopeText.CycleKeyBindsTexts | src/gcl_oss/kernel.py:75-92 | The cycle key binds evidence and scope with nothing assumed of the digests but that the hash tells the texts in play apart |
| Cycle.ArrangeIgnoresOrder | src/gcl_oss/kernel.py:75-82 | The arranged evidence is the same tuple exactly for rearrangements of the same evidence, ties included |
| Cycle.ArrangedKey | src/gcl_oss/kernel.py:214-216 | The key of the arranged evidence is the key of the evidence as it came |
| OneWayDoor.StepDone | src/gcl_oss/kernel.py:163-568 | Every step of every run, whatever the ports answer, keeps the account of cache, signer and sink: nothing is cached or offered before delivery, and after it the cache holds a result that accounts for the offer |
| Gates.StepHolds | src/gcl_oss/kernel.py:206-476 | At every program point everything holds that the gates before it check, in particular a rejection has its true cause |
| Gates.GatesImplyCoherence | src/gcl_oss/contracts.py:299-406 | Once all gates are passed, the package satisfies every condition of the package validator |
| Gates.PackageWindow | src/gcl_oss/kernel.py:445-452 | The package lives for a positive time of at most the decision TTL, and whenever it is fresh every envelope is |
| Gates.ExpiryBounds | src/gcl_oss/kernel.py:445-448 | The package expiry is the minimum of the TTL bound and all evidence expiries: a lower bound of them that is attained |
| Trail.StepTracked | src/gcl_oss/kernel.py:152-161 | At every point the proof trail is exactly what the run so far calls for, and the proof receipts are exactly those of the trail, in order |
| Trail.DeliveredTrail | src/gcl_oss/kernel.py:533-568 | A proposed cycle whose final write succeeded wrote accepted, policy, constraint, objective, falsification and proposed events in that order, and has R(N+P+C+F+2) receipts |
| Runs.EveryStepDescends | src/gcl_oss/kernel.py:206-568 | Every step comes closer to the end of the run; so every call ends if its port calls do |
| Guarantees.CallSound | src/gcl_oss/kernel.py:206-568 | At the end of every call all three invariants hold, for the evidence in canonical order and the key of the cycle |
| Guarantees.DeliveryIsAOneWayDoor | src/gcl_oss/kernel.py:476-568 | If a call raises, the cache is unchanged and nothing was offered; once something was offered the call returns and its result is cached, proposed exactly if the receipt names the package, and without a reason exactly if the final proof write succeeded as well; rejected and candidate-less results never reached the signer |
| Guarantees.FinishedCyclesAreFinal | src/gcl_oss/kernel.py:71-72 | A call changes at most the entry of its own cycle and only if there was none; what it returns is what is cached |
| Guarantees.EmptyEvidenceRaises | src/gcl_oss/kernel.py:212-213 | A call without evidence raises and asks no port |
| Guarantees.CachedCyclesReplay | src/gcl_oss/kernel.py:216-219 | A cached cycle returns its entry with only the replay mark set, asks no port and leaves the cache alone |
| Guarantees.ReplayAgreesWithTheFirstCall | src/gcl_oss/kernel.py:61-72 | After a call has returned, every later call with the same evidence in any order returns the same result up to the replay mark, with other ports and any later cache |
| Guarantees.EvidenceOrderIsIrrelevant | src/gcl_oss/kernel.py:214-216 | Calls with rearranged evidence have the same outcome: result, cache, trail and port calls |
| Guarantees.OffersAreJustified | src/gcl_oss/kernel.py:445-477 | Every package that a call offers is coherent, sealed with its own digest under the kernel's key, refers to every envelope and nothing else, is of their scope and correlation, and never outlives them |
| Answers.OffersAreAnswered | src/gcl_oss/kernel.py:220-477 | Every part of an offered package and its signature is what a port answered during the call when asked about the caller's evidence and the parts before it: times, references, policy results, constraints in name and id order, objective, plan, findings; the receipt returned is the sink's answer |
| Answers.OffersAreOnRecord | src/gcl_oss/kernel.py:269-443 | The proof trail of an offer starts with all evidence and then shows every policy result, constraint, the objective and every finding of the package, in order and nothing else |
| Answers.RejectionsAreAnswered | src/gcl_oss/kernel.py:163-189 | A call without a proposal was told so: what its cause rests on was answered during the call; its status follows from the cause, and its reasons list the denying policies or failed checks in order, or are the kernel's own |
| Guarantees.RejectionsAreJustified | src/gcl_oss/kernel.py:163-189 | A cycle without a proposal names the true cause for the caller's own evidence, scope and key, all earlier gates were passed, and its trail and receipts are the matching prefix and the rejection |
| Guarantees.ConstructionNeverFails | src/gcl_oss/kernel.py:445-475 | In every state that a run can be in, once all required checks survived, the package is constructed and goes to the signer |
| Guarantees.NoCallIsRefused | src/gcl_oss/contracts.py:299-406 | Along a whole call, whatever the ports answer, the run never comes to a point where the package validator refuses the package |
| Guarantees.ProposalsAreFullyRecorded | src/gcl_oss/kernel.py:236-568 | If no recorder raises, every proposal has the complete trail about the caller's own evidence, scope and key, and exactly its receipts |
| Interleaving.ExecSafe | src/gcl_oss/kernel.py:191-204 | Every act of the scheduler keeps the invariant of the lock, the tasks, the cache and the offers |
| Interleaving.AtMostOneOfferPerCycle | src/gcl_oss/kernel.py:191-219 | Over every interleaving of any number of calls the sink is offered at most one package per cycle key, none for a cycle cached before, and every offer is accounted for by the call that made it |
| Interleaving.ReturnedCallsAgree | src/gcl_oss/kernel.py:191-219 | Calls with the same evidence and scope that return agree up to the replay mark; no two of them worked the cycle out, and unless it was cached before, some call did |
| Interleaving.SettledResultsAreFinal | src/gcl_oss/kernel.py:61-72 | The entry of a finished cycle never changes afterwards |
| Kernel.InMemoryReplayCache.constructor | src/gcl_oss/kernel.py:62-63 | A new cache is empty |
| Kernel.InMemoryReplayCache.Get | src/gcl_oss/kernel.py:65-69 | A cached result comes back marked as replayed, and nothing else comes back |
| Kernel.InMemoryReplayCache.Put | src/gcl_oss/kernel.py:71-72 | The result is stored under its own key without the replay mark, all other entries stay |
| Kernel.GovernanceKernel.Record | src/gcl_oss/kernel.py:152-161 | The loop over the recorders makes the machine's proof write: one receipt each in order, or the first exception |
| Kernel.GovernanceKernel.Reject | src/gcl_oss/kernel.py:163-189 | A rejection is recorded, cached and returned as the machine does, or ends with the recorder's exception and an unchanged cache |
| Kernel.GovernanceKernel.AcceptEvidence | src/gcl_oss/kernel.py:236-276 | The loop over the evidence walks the machine to the policies or to the end |
| Kernel.GovernanceKernel.EvaluatePolicies | src/gcl_oss/kernel.py:278-305 | The loop over the policy checks walks the machine to the classifiers or to the end |
| Kernel.GovernanceKernel.KeepConstraints | src/gcl_oss/kernel.py:310-313 | The inner loop keeps all constraints in order exactly if every one cites only evidence of the cycle |
| Kernel.GovernanceKernel.ClassifyConstraints | src/gcl_oss/kernel.py:307-334 | The loops over classifiers and constraints walk the machine to the objective or to the end |
| Kernel.GovernanceKernel.InterpretObjective | src/gcl_oss/kernel.py:336-351 | The objective is taken up, checked and recorded as in the machine |
| Kernel.GovernanceKernel.PlanIsSound | src/gcl_oss/kernel.py:369-403 | The loops over the plan succeed exactly if every candidate fits the cycle and the registry and the selected one is cheapest, covers the hard constraints and has its checks configured |
| Kernel.GovernanceKernel.IsCheapest | src/gcl_oss/kernel.py:382-387 | Comparing with the running minimum decides whether every candidate has a cost and none is below the selected one |
| Kernel.GovernanceKernel.ProposePlan | src/gcl_oss/kernel.py:353-403 | The planner's answer walks the machine to the challenges or to the end |
| Kernel.GovernanceKernel.ChallengeSelected | src/gcl_oss/kernel.py:405-475 | The loop over the required checks walks the machine to signing or to the end |
| Kernel.GovernanceKernel.SignAndDeliver | src/gcl_oss/kernel.py:476-543 | Signing and delivery do what the machine does for every answer of signer and sink |
| Kernel.GovernanceKernel.Conclude | src/gcl_oss/kernel.py:490-568 | The final proof write adds its receipts, or leaves the delivery result standing |
| Kernel.GovernanceKernel.Run | src/gcl_oss/kernel.py:191-219 | A call that holds the lock has exactly the outcome of the driven state machine, in result, cache and number of port calls, and delivery is a one-way door |
| Builtin.Classify | src/gcl_oss/builtin.py:169-221 | The loop yields one constraint for every failed or warning item, in order |
| Builtin.ReviewConstraintMembers | src/gcl_oss/builtin.py:181-221 | A constraint is there for every failed or warning item and for no other; it cites the item alone, with its confidence, and is hard exactly for a failure |
| Builtin.ChecksExactly | src/gcl_oss/builtin.py:109-166 | The confidence policy allows, and the freshness check passes, exactly if no item is below the floor or outside its window; both cite every item and raise exactly if two items share a digest |
| Builtin.CheaperIsSelected | src/gcl_oss/builtin.py:329-348 | The planner selects the cheaper of its two candidates, by action name for equal costs, and rejects the other |
| Builtin.ConstraintIdsDistinct | src/gcl_oss/builtin.py:187-205 | Items with distinct producer and id get distinct constraint ids |
| Builtin.ConstraintIdBinds | src/gcl_oss/builtin.py:187-205 | Two constraints of a cycle have one id only if they are about one item: producer, id, digest, subject, measurement, status and confidence |
| Builtin.CandidateNameBinds | src/gcl_oss/builtin.py:290-328 | Two candidates have one id only if they are for one action, in one scope, about the same subjects, an empty version counting as none, and the same evidence |
| Builtin.MemoryProofRecorder.Record | src/gcl_oss/builtin.py:54-70 | The entry is appended and its identifier returned |
| Builtin.NoOpProposalSink.Propose | src/gcl_oss/builtin.py:77-84 | The package is retained and acknowledged under its own digest |
| Pipeline.StandaloneLawful | src/gcl_oss/builtin.py:109-348 | Whatever the built-in ports return satisfies the validators of its contract |
| Pipeline.ObjectiveAccepted | src/gcl_oss/builtin.py:224-254 | The risk objective over any valid constraints is valid and fits the cycle |
| Pipeline.PlanAccepted | src/gcl_oss/builtin.py:329-348 | Under the risk objective a review costs a third and a hold two fifths, so the plan is valid and selects the review as cheapest |
| Pipeline.PlanFitsCycle | src/gcl_oss/builtin.py:270-348 | The built-in plan passes every gate of the kernel against the standalone registry |
| Decision.StandaloneDecides | src/gcl_oss/builtin.py:109-385 | The complete decision table: foreign, stale or unconfident evidence is rejected, repeated digests raise, nothing concerning has no candidate, and otherwise a review is proposed that covers one constraint for every failed or warning item, hard exactly for failures, and cites exactly these items; the alternative is a hold of exactly their subjects, in ascending order |
| Decision.TwoReportsAreAmbiguous | src/gcl_oss/builtin.py:124-137 | Two different passing reports about one artifact are well-posed evidence on which the built-in policy raises |
| EvalHub.CollectArtifacts | src/gcl_oss/adapters/evalhub.py:170-209 | The loop succeeds exactly if every reference is pinned to its digest, lists the artifacts in canonical order, and its flag says that there are benchmarks and all have one |
| EvalHubMeaning.ArtifactExactly | src/gcl_oss/adapters/evalhub.py:179-207 | A benchmark has no artifact exactly if it gives neither reference nor digest, and the artifact it names exactly if the reference is a place, an at sign and the well-formed digest; all else is refused |
| EvalHubMeaning.OrderedExactly | src/gcl_oss/adapters/evalhub.py:175-178 | Benchmarks are taken by index, then provider, then id |
| EvalHubMeaning.SummarySays | src/gcl_oss/adapters/evalhub.py:220-231 | A summary carries the benchmark's identity and, if it was tested, score, threshold and verdict |
| EvalHubMeaning.NormalizedIdentity | src/gcl_oss/adapters/evalhub.py:370-406 | Whose evidence it is, about what, in which scope and with which confidence |
| EvalHub.SummarizeTests | src/gcl_oss/adapters/evalhub.py:212-232 | The loop summarizes every benchmark once, in canonical order |
| EvalHub.NormalizeJob | src/gcl_oss/adapters/evalhub.py:235-406 | A job is accepted exactly under the stated conditions, the unfinished one is told apart, and the envelope is the specified one |
| EvalHubPolicy.ItemReasons | src/gcl_oss/policy_packs/evalhub.py:215-262 | The collected reasons are empty exactly if the policy admits the item |
| EvalHubPolicy.Evaluate | src/gcl_oss/policy_packs/evalhub.py:209-278 | The policy allows exactly the evidence of which it admits every item, and answers exactly for distinct digests and plain states and kinds |
| EvalHubRules.ProvenanceExact | src/gcl_oss/policy_packs/evalhub.py:69-112 | For an envelope of any producer the provenance check passes exactly if the assurance is the raw response's digest without an artifact, or a manifest of pinned entries that the assurance names singly or hashes as a whole |
| EvalHubRules.StrictExact | src/gcl_oss/policy_packs/evalhub.py:135-177 | The strict check passes exactly if every artifact, without repetition, has one verification of its own with equal fields and a trusted, timely receipt with content for its reference and digest |
| EvalHubRules.AdmitsExactly | src/gcl_oss/policy_packs/evalhub.py:209-263 | The policy admits an envelope of any producer exactly if schema, producer prefix, scope, revision, confidence, reported result and provenance are as the rules on its fields say |
| EvalHubRules.TamperedAssurance | src/gcl_oss/policy_packs/evalhub.py:76-112 | A normalized envelope with another digest or artifact in its assurance fails the check in all three modes; the only change that passes is naming the empty artifact where none was named |
| EvalHubAgreement.NormalizedMeasurement | src/gcl_oss/adapters/evalhub.py:325-360 | Value and threshold are the overall test's if the job got that far, and the job's state otherwise; the status follows from state and test |
| EvalHubAgreement.NormalizedHasProvenance | src/gcl_oss/policy_packs/evalhub.py:69-112 | The provenance check finds nothing wrong with what the adapter normalized, with one artifact, several or none |
| EvalHubAgreement.DefaultPolicyAgrees | src/gcl_oss/policy_packs/evalhub.py:209-263 | In default mode the policy admits a normalized job exactly if it failed or was cancelled, or has an overall test and complete artifacts for a non-empty benchmark list |
| EvalHubAgreement.NormalizedWindow | src/gcl_oss/adapters/evalhub.py:355-406 | The envelope is fresh from the last update of the job for exactly the validity asked for, and is about the job's model |
| EvalHubOci.StrictAdmission | src/gcl_oss/policy_packs/evalhub.py:135-177 | The strict check passes exactly if artifacts and receipts are in one-to-one correspondence, each receipt bound to its artifact, trusted, with content, inside the window |
| EvalHubOci.VerifyEntries | src/gcl_oss/adapters/evalhub_oci.py:35-71 | The memoised loop returns what verifying every artifact by itself returns, and asks once about every distinct pair of reference and digest, in order of first occurrence |
| EvalHubOci.VerifyArtifacts | src/gcl_oss/adapters/evalhub_oci.py:23-75 | The bound copy differs from the evidence only in the receipts; without complete OCI provenance the binder refuses |
| EvalHubOci.BindingDecides | src/gcl_oss/adapters/evalhub_oci.py:23-75 | Evidence with a manifest of distinct artifacts is bound exactly if its mode is the OCI manifest and the verifier answers for every artifact; the strict check then passes exactly if every receipt, read back, is convincing |
| EvalHubOci.BindingNeedsProvenance | src/gcl_oss/adapters/evalhub_oci.py:29-33 | Normalized evidence is bound exactly if the job has benchmarks, each with a pinned artifact, and the verifier answers for all of them |
| EvalHubOci.StrictPolicyAgrees | src/gcl_oss/policy_packs/evalhub.py:209-263 | With verification required the policy admits no normalized evidence as it is, and admits the bound copy exactly if the job was aborted or has a test and every receipt is convincing |
| EvalHubOci.VerifiedEvidenceIsAccepted | src/gcl_oss/policy_packs/evalhub.py:135-177 | Normalized evidence with complete provenance, bound by a verifier that vouches for its artifacts, passes the strict check; no normalized evidence passes it before |
| EvalHubConstraints.ClassifyPromotion | src/gcl_oss/policy_packs/evalhub.py:288-350 | The loop yields one constraint for every failed or warning item of the pinned schema, in order, and raises exactly if such an item lacks what the expression cites |
| EvalHubConstraints.OneConstraintIffReviewNeeded | src/gcl_oss/policy_packs/evalhub.py:281-350 | A normalized job yields exactly one constraint citing its digest if it failed, was cancelled, partially failed or missed its test, and none otherwise; it is hard exactly if the job failed or completed without passing, and its expression blocks the promotion exactly then |
| TrustyAI.SchemaNamesContract | src/gcl_oss/policy_packs/trustyai_service.py:46-48 | The schema of each of the six contracts leads back to that contract |
| TrustyAI.ReadResponse | src/gcl_oss/adapters/trustyai_service.py:316-388 | The branches over the response shape find exactly the specified reading, or none for an inconsistent response |
| TrustyAI.NormalizeMetric | src/gcl_oss/adapters/trustyai_service.py:265-450 | An exchange is accepted exactly if source, model, metric name and the response's own verdict are consistent, and the envelope is the specified one |
| TrustyAIPolicy.MetricMeasurement | src/gcl_oss/adapters/trustyai_service.py:318-388 | Value and threshold are those of the response that the metric's kind calls for, and the bounds of a fairness metric are in its extension |
| TrustyAIPolicy.MetricIdentity | src/gcl_oss/adapters/trustyai_service.py:390-450 | The assurance digest is that of the complete exchange, identifies the evidence, and the request is what caused it |
| TrustyAIRules.ContractExact | src/gcl_oss/policy_packs/trustyai_service.py:68-135 | The contract check finds nothing wrong with an envelope of any producer exactly if, for one of the six kinds, its identity, its sources and its numbers and status are as the rules on its fields say |
| TrustyAIRules.AdmitsMetricExactly | src/gcl_oss/policy_packs/trustyai_service.py:159-190 | The policy admits an envelope of any producer exactly if it keeps the contract under the configured prefix, scope and confidence |
| TrustyAIRules.TamperedStatus | src/gcl_oss/policy_packs/trustyai_service.py:132-134 | A normalized metric with another status is refused |
| TrustyAIRules.TamperedIdentity | src/gcl_oss/policy_packs/trustyai_service.py:72-90 | A normalized metric with another revision, kind, family, endpoint, model id or mode is refused |
| TrustyAIPolicy.VerdictRederived | src/gcl_oss/policy_packs/trustyai_service.py:105-134 | For all six metrics the verdict derived from the envelope is the verdict of the service, and so is its status |
| TrustyAIPolicy.AdapterKeepsContract | src/gcl_oss/policy_packs/trustyai_service.py:68-135 | The contract check finds nothing wrong with any normalized metric |
| TrustyAIPolicy.MetricWindow | src/gcl_oss/adapters/trustyai_service.py:423-450 | The envelope is fresh from the observation for exactly the validity asked for, is about the requested model, and its producer is the metric's endpoint |
| TrustyAIPolicy.EvaluateMetrics | src/gcl_oss/policy_packs/trustyai_service.py:159-190 | The policy allows exactly the evidence of which it admits every item |
| TrustyAIPolicy.ClassifyMetrics | src/gcl_oss/policy_packs/trustyai_service.py:200-252 | The loop yields one constraint for every failing item in order, and raises exactly if such an item has no known kind |
| TrustyAIPolicy.OneConstraintIffFailing | src/gcl_oss/policy_packs/trustyai_service.py:200-252 | A normalized metric yields exactly one hard constraint citing its digest if the service found it failing, and none otherwise |
| OciRegistry.HeaderDigestExact | src/gcl_oss/adapters/oci.py:220-229 | A missing digest header passes; one that is there passes exactly if, white space around it aside, it is the expected digest and that of the bytes |
| OciRegistry.ContentTypeExact | src/gcl_oss/adapters/oci.py:232-233 | The content type is what stands before the first semicolon, white space around it and case aside |
| OciRegistry.VerifyDescriptor | src/gcl_oss/adapters/oci.py:428-483 | A descriptor is verified exactly if it is well declared and its inline data, or what the registry serves for it, has the declared size and digest; inline data needs no request |
| OciRegistry.VerifyContents | src/gcl_oss/adapters/oci.py:393-412 | The loop succeeds exactly if every descriptor is verified at its place in the request order and the sizes stay within the budget; the bytes accepted are within the budget, and on every abort within the budget and one blob |
| OciRegistry.FetchManifest | src/gcl_oss/adapters/oci.py:342-391 | A manifest is taken up exactly if the registry serves one that is non-empty, hashes to the requested digest and is a leaf manifest of the announced type |
| OciRegistry.Verify | src/gcl_oss/adapters/oci.py:326-426 | A receipt is issued exactly for artifacts whose reference may be fetched, whose manifest and every descriptor the registry serves as declared, within the budget and under an aware clock; it vouches for config and every layer in order |

## Left out

- HTTP clients, redirects, TLS, bearer tokens and credential files: requests are oracles that answer at most the bytes asked for, or fail.
- Ed25519, SHA-256, uuid5, pydantic parsing and JSON Schema evaluation: parameters with the assumptions stated in the predicates named above.
- Full URL splitting, regular expressions and the parsing of OCI references: parameters; URLs are records of their parts.
- IEEE rounding: weights, costs, scores and thresholds are exact reals.
- The random package id, and rationales and reasons beyond those the kernel writes: free text that no gate reads; length caps on it are ignored.
- Cancellation of tasks, several event loops, several kernels on one cache, processes: the source guarantees nothing for them. The lock is modelled in `Interleaving`, not in the class.
- The checks of the kernel's constructor on declared determinism and unique check ids, beyond a positive TTL and at least one classifier.
- Freshness of replayed results: the cache never expires, so a replay may return an expired package.
- Receipts of earlier recorders when a later recorder of the same write raises: the source drops them, and so does the model.
- Time zones: an aware timestamp is its instant and prints in one way; the source keeps and prints the offset it came with.
- Lower-casing of content types beyond ASCII, which HTTP headers do not use.
- The command line, schema files, fixtures and deployment scripts.
- EvalHubOci.VerifyEntries: assumes a deterministic verifier, because for another one the memo changes the receipts.
- CanonicalText.CanonicalTextDetermines: over the reals that the float printer tells apart, which for Python floats are all of them.
