# Recordlane backend: a verified model

Recordlane is a master-data platform. This project models the parts of its Python backend whose correctness only shows
over whole runs, and proves what they guarantee:

- **Mastering** (`backend/src/recordlane/mastering/service.py`): source objects and their immutable observations,
  entities with version counters, membership history, cannot-link rows, version-bound review work, master drafts,
  merges, splits, remastering, paged ingestion and configuration changes.
- **Jobs** (`backend/src/recordlane/jobs/worker.py`): leases, fences, heartbeats, crashes, cancellation.
- **Publication** (`backend/src/recordlane/publication/service.py` with the demonstration consumer in
  `backend/src/recordlane/demo_services.py`): the outbox relay, lost responses, reconciliation.
- **Policies** (`backend/src/recordlane/policy.py`, `backend/src/recordlane/matching/probabilistic.py`): the policy
  compiler, blocking keys, comparison, fitting.

## How it is organised

Each transaction of the mastering service is a function from a store to a reply: committed, committed and then raised,
or rolled back (`Steps.dfy` over the rows in `Store.dfy`). `Steps.Run` is a run of transactions, in which a step that
raises leaves the store as its transaction left it. The guarantees are lemmas over all runs from an empty store.
`Service.dfy` holds the service in its own form, a class whose methods update the database with the loops of the source;
each method's contract says that it is one of those transactions, so the guarantees hold of the class.

| file | models |
|---|---|
| `Survivorship.dfy`, `MasterRules.dfy` | `_master_values`, and which contribution it lets win, rule by rule |
| `Store.dfy`, `Steps.dfy`, `Effects.dfy` | the tables, the transactions, and how each can end |
| `Grounding.dfy` | referential facts of every run |
| `Observations.dfy`, `Versions.dfy` | what an observation writes and an object shows; when an entity's version rises |
| `Decisions.dfy` | when each proposal and decision commits, and what it announces |
| `Separation.dfy`, `Contradictions.dfy`, `Limits.dfy` | cannot-links and hard contradictions, and exactly where they stop holding |
| `Drafts.dfy`, `Approvals.dfy` | drafts never lag behind the data; what an approval publishes |
| `History.dfy`, `MergeSplit.dfy` | membership history; a merge undone by a split |
| `CandidateIndex.dfy` | the candidate query and the resolution outcome |
| `Delivery.dfy`, `Redelivery.dfy` | delivery order, repetition, webhook retries |
| `FullRuns.dfy`, `Admission.dfy` | paged runs and inferred retirement; which pages a run admits |
| `Activation.dfy` | simulation, configuration approval, replaced sources, remaster jobs |
| `Refilling.dfy` | how an entity without members gets members again |
| `Scenarios.dfy`, `Aftermaths.dfy`, `LateLinks.dfy`, `SnapshotScenario.dfy`, `SourceReplacement.dfy` | runs from an empty store in which a guarantee fails where its condition does |
| `Service.dfy` | the imperative service and the webhook handler |
| `Jobs.dfy`, `Leases.dfy` | the worker, and what a lease is worth |
| `Publication.dfy`, `Responses.dfy` | the relay, and what each answer does to an event |
| `Announcements.dfy` | mastering and relay on one database: what reaches the consumer of what was approved |
| `PolicyCompiler.dfy`, `PolicyCompilation.dfy` | the compiler as functions and as loops |
| `Matcher.dfy`, `PolicyMeaning.dfy`, `Scoring.dfy`, `Wiring.dfy` | normalization, validation, keys and comparison, and what they mean |
| `Agreements.dfy`, `RecordRules.dfy` | what a score means; which definitions compile, and what they do to a record |
| `Guarantees.dfy` | the guarantees of mastering for definitions as they are written |
| `Probabilistic.dfy`, `Evaluation.dfy`, `Statistics.dfy` | fitting and evaluation, and what they count |

## Conventions

- A committed transaction is one atomic step. A worker's handler is split into its begin and its guarded commit; the
  relay is split at its two commits. Database isolation below whole transactions is assumed.
- Hashes are injective, so a payload hash is the payload, a checksum is the canonical document, and the snapshot
  fingerprint is the data it is made from. Floating-point numbers are reals, and `round` is half-to-even on reals.
- Rows are identified by their natural keys: an object by source, domain and local identifier, an observation by its
  object and source version. A duplicate match is filed under the entity that was opened for it, and a master version
  and the approval opened beside it share a row.
- The order in which a query returns rows is left open. In the functions it is the argument `pick` or `order`, admitted
  only when it is an outcome of the query; in the class the loops take rows in any order.
- The methods of the service require the referential facts `Grounding.Grounded`, which hold of a new store and after every
  step; `Service.MasteringService.Perform` restates them for any request except the approval of a configuration, which
  `Activation.dfy` models.
- `Library` holds text normalization, decimals, regular expressions, the sequence ratio, `str`, the logarithm and the
  exponential as uninterpreted functions. Of the last two, `Scoring.Analytic` states what the proofs use.

## What the code does not do

Some guarantees a reader might expect do not hold of the code. Each is stated with the exact condition under which the
code keeps it, or with an input that breaks it:

- An approved merge re-checks neither cannot-links nor contradictions (`Limits.MergeKeepsApartIff`,
  `Limits.MergeKeepsPeaceIff`; runs `Scenarios.ContestedMergeBreaksApart`, `Aftermaths.MergeBreaksPeace`), and an
  in-place update does not re-check contradictions (`Limits.UpdateKeepsPeaceIff`; run `Scenarios.UpdateBreaksPeace`).
- "Merged" is not final: approving a draft of a merged entity that is still open revives it
  (`Limits.MergedIsLeftByApproval`, `Limits.AbsorbedDraftStaysApprovable`; run `Aftermaths.MergedEntityComesBack`), and
  after a link such an approval publishes the values of contributions that have left
  (`Approvals.PublishesCurrentValues`, `Approvals.LinkLeavesStaleApproval`; run `LateLinks.LinkLeavesApproval`).
- Nor is a merged entity empty for good. A link does not look at the status of its target, a merge not at that of its
  primary, so either fills a merged entity when it was proposed before the absorption. `Refilling.EmptyEntityRefillsIff`
  gives the two steps and all their guards; the runs are `LateLinks.LinkFillsAbsorbed` and
  `Aftermaths.MergeFillsAbsorbed`.
- An expired lease is reclaimed without testing the attempt limit (`Jobs.ClaimExceedsLimit`,
  `Jobs.ExpiryIgnoresTheLimit`), and reconciliation returns an event to retry without testing it
  (`Publication.AttemptExceedsLimit`, `Publication.ReconciliationIgnoresTheLimit`).
- An `identity.split` payload carries no entity version, so such an event cannot be verified after a lost response
  (`Announcements.OnlySplitsGetStuck`).
- Records that lack a blocking field are still joined by the prefix alone, exactly when they show the same prefix
  (`PolicyMeaning.PrefixAloneJoins`; two records: `PolicyMeaning.NamesakesJoin`).
- Fitted probabilities can collide after rounding when the training set is large (`Probabilistic.RoundingCanCollide`).
- A tombstone whose version is already on record retires nothing (`FullRuns.CompletionDecides`; run
  `SnapshotScenario.UnshownStaysActive`).
- The snapshot fingerprint omits source priorities, so replacing a source after a simulation can make its prediction
  wrong without making it stale. The prediction holds exactly when no attribute changes its winner's value
  (`Activation.PredictionHoldsIff`); what a caller can check beforehand is whether the priorities order the sources as
  before (`Survivorship.OrderDecides`). The run is `SourceReplacement.ReplacedSourceBreaksPrediction`.

## Model

| member | source | states |
|---|---|---|
| Survivorship.ComputeMasterValues | backend/src/recordlane/mastering/service.py:738-804 | The mastered values hold, for each attribute some contribution offers, the value of its unbeaten contribution, and the provenance is that contribution's: record, source, verification, strategy, observation time and the number of contributions it beat |
| Survivorship.MasterField | backend/src/recordlane/mastering/service.py:750-803 | One attribute has a value exactly when it is mastered, and the value and its provenance come from the same winner |
| Survivorship.BestOption | backend/src/recordlane/mastering/service.py:764-791 | The winner of an attribute holds a value and is beaten by no other contribution that does: trusted before not trusted where the rule asks for it, then the source that stands first, then the later observation, then the later identifier; none exactly when nothing is offered; offers are counted once each |
| Survivorship.OneWinner | backend/src/recordlane/mastering/service.py:789-791 | Record identifiers break every tie, so the winner is unique |
| Survivorship.SupplierIsMastered | backend/src/recordlane/mastering/service.py:764-793 | An attribute is mastered exactly when some contribution is beaten by no other, and its value is that contribution's |
| MasterRules.LatestSupplies | backend/src/recordlane/mastering/service.py:786-791 | Among equally trusted contributions of one source, or of unlisted sources with one number, the latest observation supplies the value, at one time the later record |
| MasterRules.VerifiedSupplies | backend/src/recordlane/mastering/service.py:778-786 | Under a rule that prefers verified values the verified contribution supplies the value, whatever its source and time |
| MasterRules.VerificationIsIgnored | backend/src/recordlane/mastering/service.py:778-786 | Under the other rule the mastered value is the same as if nothing had been verified |
| MasterRules.EarlierSourceSupplies | backend/src/recordlane/mastering/service.py:772-777 | With equal trust the source mentioned first in the precedence list supplies the value, before later and unlisted ones |
| MasterRules.SmallerNumberSupplies | backend/src/recordlane/mastering/service.py:772-777 | With equal trust, among unlisted sources the one with the smaller priority number supplies the value |
| MasterRules.RulesByName | backend/src/recordlane/mastering/service.py:752-785 | Verified values are preferred exactly when the document names that strategy, for the attribute or as the default; the precedence list is the one written beside it |
| MasterRules.DeclaredRulesStay | backend/src/recordlane/policy.py:414-428 | Compilation leaves the survivorship rules as written |
| MasterRules.UndeclaredPrefersVerified | backend/src/recordlane/policy.py:414-416 | A definition without survivorship prefers verified values everywhere |
| Survivorship.ValuesAgreeIff | backend/src/recordlane/mastering/service.py:773-777 | Two tables of source priorities give the same mastered values exactly when no attribute goes to a contribution with another value |
| Survivorship.OrderDecides | backend/src/recordlane/mastering/service.py:773-777 | Positive priorities that order the sources alike give the same mastered values |
| Service.CloseLatest | backend/src/recordlane/mastering/service.py:537-547 | The open tenure with the latest start is closed, every other row stays |
| Service.StaleFirst | backend/src/recordlane/mastering/service.py:708-718 | The open approval goes stale, every other row stays |
| Service.MasteringService.SetMembership | backend/src/recordlane/mastering/service.py:534-557 | The object moves to the entity, its open tenure closes and a new one opens; a member of the entity keeps its row |
| Service.MasteringService.MoveAll | backend/src/recordlane/mastering/service.py:1131-1136 | Moving members one by one moves exactly the given set, each as a single move does |
| Service.MasteringService.DraftMaster | backend/src/recordlane/mastering/service.py:681-736 | The next version holds a fresh survivorship computation, bound to the entity version, and replaces the open approval |
| Service.MasteringService.CandidateQuery | backend/src/recordlane/mastering/service.py:580-615 | The query returns every candidate, or more rows than the limit exactly when there are more |
| Service.MasteringService.ClusterConflict | backend/src/recordlane/mastering/service.py:625-632 | True exactly when some current member of the entity contradicts the record |
| Service.MasteringService.ChooseCandidate | backend/src/recordlane/mastering/service.py:616-634 | The choice is eligible and of the highest score among the eligible; none exactly when none is eligible, whatever the row order and repetitions |
| Service.MasteringService.Resolve | backend/src/recordlane/mastering/service.py:573-666 | The object joins the best automatic candidate's entity with a version bump, or gets a new entity, with a review bound to both versions when the best candidate is for review; more than 200 rows abort |
| Service.MasteringService.Join | backend/src/recordlane/mastering/service.py:635-639 | The entity is bumped before the object joins and its draft is made |
| Service.MasteringService.Create | backend/src/recordlane/mastering/service.py:640-666 | A new entity of the object's domain holds the object and its first draft |
| Service.MasteringService.OpenReview | backend/src/recordlane/mastering/service.py:640-665 | The review names both objects, their records, the target and its version at proposal |
| Service.MasteringService.WriteObservation | backend/src/recordlane/mastering/service.py:343-420 | The observation, its keys and the object row are written; a quarantined or outdated one changes only the latest record |
| Service.MasteringService.ObserveItem | backend/src/recordlane/mastering/service.py:299-434 | One turn of the ingestion loop is the transaction `Steps.Observe`; an error leaves the database as it was |
| Service.MasteringService.IngestRows | backend/src/recordlane/mastering/service.py:299-436 | A page's rows are a run of single observations, or one error undoes them all |
| Service.MasteringService.ListUnseen | backend/src/recordlane/mastering/service.py:268-287 | Exactly the active objects of the source and domain that the run never showed, each once |
| Service.MasteringService.IngestPage | backend/src/recordlane/mastering/service.py:142-476 | A page with its run checkpoint and tombstones is one transaction, and an error changes neither data nor run |
| Service.MasteringService.LinkMatch | backend/src/recordlane/mastering/service.py:1233-1271 | All checks of a link in their order; a committed link moves every member, marks the entity merged, bumps and drafts the target |
| Service.MasteringService.DecideMatchTask | backend/src/recordlane/mastering/service.py:806-876 | Link, keep separate, or stale after a version change; a stale mark is committed before the error |
| Service.MasteringService.AcceptMatch | backend/src/recordlane/mastering/service.py:848-849 | An open, current match is linked and closed as accepted, or one failed check leaves everything as it was |
| Service.MasteringService.KeepSeparate | backend/src/recordlane/mastering/service.py:850-876 | The pair gets its one cannot-link row and the match closes as rejected; a second row is refused |
| Service.MasteringService.DecideMasterTask | backend/src/recordlane/mastering/service.py:877-911 | Approval marks the bound draft approved and publishes its values once |
| Service.MasteringService.ProposeMergeTask | backend/src/recordlane/mastering/service.py:1004-1062 | A proposal needs live entities of one domain and records the versions of all of them |
| Service.MasteringService.AbsorbAll | backend/src/recordlane/mastering/service.py:1119-1149 | Each absorbed entity must be unmerged at its bound version; its members move to the primary; one failure undoes all |
| Service.MasteringService.ApplyMergeTask | backend/src/recordlane/mastering/service.py:1109-1170 | The primary is bumped and drafted, and the event carries the draft's version |
| Service.MasteringService.DecideMergeTask | backend/src/recordlane/mastering/service.py:806-1002 | Staleness, separation of duties and approval of a merge, as one transaction |
| Service.MasteringService.SplitMembersOff | backend/src/recordlane/mastering/service.py:1172-1216 | The members move to a new entity of the same domain, both entities are drafted, and the event carries the original's version |
| Service.MasteringService.ProposeSplitTask | backend/src/recordlane/mastering/service.py:1064-1107 | The proposal lists exactly the members whose current records were named |
| Service.MasteringService.DecideSplitTask | backend/src/recordlane/mastering/service.py:806-1002 | A split applies only while every proposed object is still a member |
| Decisions.SeparationCommitsIff | backend/src/recordlane/mastering/service.py:851-876 | Keeping a pair separate commits exactly for an open, current task whose pair has no row, and adds that row |
| Decisions.MergeProposedIff | backend/src/recordlane/mastering/service.py:1004-1062 | A merge may be proposed of at least one entity, all unmerged and of one domain; the task records primary, absorbed entities and all versions |
| Decisions.SplitProposedIff | backend/src/recordlane/mastering/service.py:1064-1107 | A split may be proposed of an unmerged entity by naming current records of its members, and lists just those |
| Decisions.SplitCommitsIff | backend/src/recordlane/mastering/service.py:1172-1196 | An approved split commits exactly when the task is open, the decider is not the proposer, the entity is at its bound version, and every listed object is listed once and still a member |
| Decisions.StaleSplitIff | backend/src/recordlane/mastering/service.py:812-830 | The decision is refused as stale exactly when the bound entity changed its version, and only the mark is committed |
| Decisions.StaleMergeIff | backend/src/recordlane/mastering/service.py:812-830 | The same for a merge and its primary |
| Decisions.StaleMatchIff | backend/src/recordlane/mastering/service.py:812-830 | The same for a match and the entity it was opened for |
| Decisions.StaleApprovalIff | backend/src/recordlane/mastering/service.py:812-830 | The same for the approval of a version |
| Decisions.MergeRefusedIff | backend/src/recordlane/mastering/service.py:812-850 | A merge is refused exactly while open and current, by anyone but its proposer |
| Decisions.SplitRefusedIff | backend/src/recordlane/mastering/service.py:812-850 | A split is refused exactly while open and current, by anyone but its proposer |
| Decisions.ApprovalRefusedIff | backend/src/recordlane/mastering/service.py:877-911 | An approval is refused exactly while open and current, and the version stays unapproved |
| Decisions.MergeAnnounces | backend/src/recordlane/mastering/service.py:1151-1170 | A merge bumps its primary once, opens one approval, and announces the number of the new version and the absorbed entities |
| Decisions.SplitAnnounces | backend/src/recordlane/mastering/service.py:1197-1231 | A split moves exactly the listed objects to a new candidate of the same domain, bumps the entity once, and announces both |
| Service.MasteringService.RebuildIndex | backend/src/recordlane/jobs/worker.py:95-129 | Object by object, the domain's index becomes the keys of its current records under the active policy |
| Service.MasteringService.RefreshEntities | backend/src/recordlane/jobs/worker.py:131-142 | Entity by entity, each unmerged entity gets one version bump and one fresh draft |
| Service.MasteringService.RemasterDomain | backend/src/recordlane/jobs/worker.py:80-142 | The handler is the transaction `Steps.Remaster` |
| Service.MasteringService.Perform | backend/src/recordlane/mastering/service.py:142-1271 | Any request except the approval of a configuration (lines 912-980, modelled in `Activation.dfy`) is a step of the run, whatever its queries return, so every guarantee over runs holds of the object |
| Service.WebhookInbox.Handle | backend/src/recordlane/api/routes.py:976-1015 | Ingestion commits before the answer is recorded; a repeated event is answered without ingestion, another body under its identifier is refused |
| Observations.ReportedValues | backend/src/recordlane/mastering/service.py:343-349 | A new record holds what the observation carries; a partial one takes every other field from the current record, a full one has no other |
| Observations.ReportedRecord | backend/src/recordlane/mastering/service.py:350-385 | It remembers source, time and verification under a new identifier, holds the normal form of its values, and is deleted, quarantined or valid exactly by the deletion mark, the validation and the order marks |
| Observations.ReportedState | backend/src/recordlane/mastering/service.py:386-420 | An observation that is neither quarantined nor older becomes the object's state, a deletion retires it; any other leaves the state alone and is only the latest |
| Observations.ShowsWhatWasTold | backend/src/recordlane/mastering/service.py:299-434 | In every run, whatever happens in between, an object shows for each field what the observations that took effect said last |
| Observations.LastValueStands | backend/src/recordlane/mastering/service.py:343-349 | A value sent for a field stands as long as only partial observations without the field follow |
| Observations.OnlyTakenOnesPlace | backend/src/recordlane/mastering/service.py:421-434 | A deletion, or an observation that does not take effect, puts the object into no entity |
| Observations.KnownReportsIff | backend/src/recordlane/mastering/service.py:325-342 | An observation already on record is accepted again exactly when it says the same, and then changes nothing |
| Observations.RecordsAreNormal | backend/src/recordlane/mastering/service.py:350-351 | In every run without activations every record is in the normal form of its policy |
| Observations.RemasterNormalizes | backend/src/recordlane/jobs/worker.py:107-125 | After a remaster the current records of its domain are in the normal form of the policy in force |
| Grounding.RunGrounded | backend/src/recordlane/mastering/service.py:299-434 | In every run memberships name existing entities of the object's domain, current records are valid and belong to their unretired object, and identifiers are fresh |
| Separation.CannotLinkHolds | backend/src/recordlane/mastering/service.py:846-863 | In every run without approved merges, the two objects of a cannot-link row never share an entity |
| Separation.CandidateFilterIdle | backend/src/recordlane/mastering/service.py:623-624 | The cannot-link filter of resolution never fires, because an object is resolved once, before any row names it |
| Separation.LinkCheckIdle | backend/src/recordlane/mastering/service.py:1240-1246 | Once the version checks of a link pass, no row joins the left object to any member of the target |
| Contradictions.NoContradictionWithinEntity | backend/src/recordlane/mastering/service.py:625-666 | With fixed policies, and without in-place updates or approved merges, no entity holds two contradicting current contributions: the bound versions carry the cluster check from proposal to link |
| Limits.MergeKeepsApartIff | backend/src/recordlane/mastering/service.py:1109-1150 | A committed merge keeps cannot-linked objects apart exactly when no row joins two of the objects it brings together |
| Limits.MergeKeepsPeaceIff | backend/src/recordlane/mastering/service.py:1109-1150 | A committed merge keeps entities free of contradictions exactly when no two contributions it brings together contradict |
| Aftermaths.MergeBreaksPeace | backend/src/recordlane/mastering/service.py:1109-1150 | A run from an empty store (two sightings with contradicting identifiers, a merge proposed and approved) whose last step commits and puts the contradiction into one entity |
| Limits.UpdateKeepsPeaceIff | backend/src/recordlane/mastering/service.py:421-427 | An in-place update keeps entities free of contradictions exactly when, before it, the new record contradicts no other current contribution of the object's entity |
| Scenarios.UpdateBreaksPeace | backend/src/recordlane/mastering/service.py:421-427 | A run from an empty store in which such an update commits and leaves a contradiction in the entity |
| Limits.MergeOverridesCannotLink | backend/src/recordlane/mastering/service.py:1131-1136 | A ready merge across a cannot-link row commits, and the two objects share an entity while the row remains |
| Scenarios.ContestedMergeBreaksApart | backend/src/recordlane/mastering/service.py:1131-1136 | A run from an empty store (two sightings, a review answered with keep separate, a merge proposed and approved) whose last step commits and joins the two cannot-linked objects |
| Limits.MergedIsLeftByApproval | backend/src/recordlane/mastering/service.py:887-890 | A step takes an entity out of "merged" exactly when it approves a version of that entity whose approval is open, bound to the entity's present version and not yet given |
| Limits.AbsorbedDraftStaysApprovable | backend/src/recordlane/mastering/service.py:1149-1151 | Absorbed entities keep their version, so their open approval still commits after the merge |
| Aftermaths.MergedEntityComesBack | backend/src/recordlane/mastering/service.py:877-911 | A run from an empty store after which the absorbed entity is merged and empty, and the approval of the draft it got before the merge commits and makes it approved |
| Limits.LinkIntoAbsorbedCommits | backend/src/recordlane/mastering/service.py:1233-1271 | If the target of a ready link is absorbed first, the link still commits and its members end in a merged entity |
| Refilling.EmptyEntityRefillsIff | backend/src/recordlane/mastering/service.py:1109-1136 | A step puts a member into an entity without members exactly when it is a link into it from an entity that has some, or a merge into it that absorbs one that has some, each under all its guards, none of which is the status of that entity |
| Refilling.MergedEntityRefills | backend/src/recordlane/mastering/service.py:1233-1271 | Under those guards a merged entity gets members and stays merged |
| Refilling.MergeCommitsIff | backend/src/recordlane/mastering/service.py:1109-1130 | An approved merge commits exactly when its task is open, the decider is not the proposer, the primary is at its bound version, and every absorbed entity is unmerged, at its bound version and named once |
| LateLinks.LinkFillsAbsorbed | backend/src/recordlane/mastering/service.py:1233-1271 | A run from an empty store (a match for review, its target absorbed by a merge, the match accepted) whose last step commits and puts the linked object into the merged entity |
| Aftermaths.MergeFillsAbsorbed | backend/src/recordlane/mastering/service.py:1109-1136 | A run from an empty store (two merges proposed, the first one's primary absorbed by the second, then the first approved) whose last step commits and puts an object into the merged entity |
| Limits.NextKeepsDomains | backend/src/recordlane/mastering/service.py:640-644 | No step removes an entity or changes its domain |
| Drafts.DraftsNeverLag | backend/src/recordlane/mastering/service.py:681-736 | From an empty store, in every run without activations: the latest version of an entity with contributions holds their survivorship values, and no earlier version is open for approval |
| Drafts.RemasterFreshens | backend/src/recordlane/jobs/worker.py:131-142 | Whatever was activated before, a remaster brings every unmerged entity of its domain up to date |
| MasterRules.DraftsShowTheSupplier | backend/src/recordlane/mastering/service.py:681-736 | In every run without activations the latest version shows, attribute by attribute, the value of the contribution that supplies it |
| Versions.VersionsGuardContributions | backend/src/recordlane/mastering/service.py:421-433 | Whatever a step does, no version falls, and an entity whose contributions change has a higher version afterwards, unless it was merged away |
| Versions.SameVersionSameData | backend/src/recordlane/mastering/service.py:812-830 | Over any run in which it is never merged, an entity at the same version has the same contributions, so a task bound to a version is decided on the data it was opened for |
| Versions.UpdateBumps | backend/src/recordlane/mastering/service.py:421-433 | An update that takes effect raises its entity's version by one and opens one new approval bound to it; any other leaves entities and versions alone |
| Versions.RemasterBumps | backend/src/recordlane/jobs/worker.py:143-158 | A remaster raises the version of every unmerged entity of the domain by one, opens an approval for each, and leaves the others alone |
| Approvals.PublishesCurrentValues | backend/src/recordlane/mastering/service.py:877-911 | A committed approval approves the latest version and publishes it; these are the current survivorship values exactly when the entity has a contribution or the version is empty |
| Approvals.AtMostOneOpenApproval | backend/src/recordlane/mastering/service.py:708-735 | In every run an entity has at most one open approval, for its latest version |
| Approvals.OneEventPerApproval | backend/src/recordlane/mastering/service.py:887-905 | In every run one `master.approved` event for each approved version, none for any other |
| Approvals.LinkLeavesStaleApproval | backend/src/recordlane/mastering/service.py:1262-1271 | The exception: a link empties an entity without staling its approval, which still publishes the old values |
| LateLinks.LinkLeavesApproval | backend/src/recordlane/mastering/service.py:1262-1271 | A run from an empty store whose link commits and empties the entity, after which its old approval commits and publishes the values of the contribution that left |
| History.HistoryIsAChain | backend/src/recordlane/mastering/service.py:534-557 | In every run the tenures of an object follow each other without overlap and end at the open one, which names its entity; an object without an entity has none |
| History.OneOpenRow | backend/src/recordlane/mastering/service.py:536-547 | Only the last tenure is open |
| MergeSplit.RoundTripMoves | backend/src/recordlane/mastering/service.py:1004-1196 | Proposing and approving a merge of B into A, then a split of B's current contributions, all commit; no object or record is created or lost, and each object's destination is given |
| MergeSplit.PartitionRestored | backend/src/recordlane/mastering/service.py:1109-1196 | After that round trip two current objects share an entity exactly when they did before |
| CandidateIndex.QueryIsFullScan | backend/src/recordlane/mastering/service.py:580-603 | With an exact index the query returns what a scan of all current, placed records sharing a key would |
| CandidateIndex.NeverTruncated | backend/src/recordlane/mastering/service.py:602-615 | Resolution decides on the whole candidate set or aborts with an overflow |
| CandidateIndex.ResolutionIsComplete | backend/src/recordlane/mastering/service.py:385-434 | The same for a whole observation, from the index before it |
| CandidateIndex.OutcomeByCandidates | backend/src/recordlane/mastering/service.py:616-666 | Linked exactly when some eligible candidate is an automatic link, review exactly when some is eligible and none is, created exactly when none is eligible |
| CandidateIndex.PicksAgree | backend/src/recordlane/mastering/service.py:616-634 | Whatever the row order, the outcome and the score of the choice agree |
| Decisions.ChoiceIsBest | backend/src/recordlane/mastering/service.py:580-634 | The chosen candidate shares a key, is linked or reviewed by the comparison, has no cannot-link row and no contradicting member, and none like it scores higher; without one there is no such candidate |
| Decisions.OverflowIff | backend/src/recordlane/mastering/service.py:610-615 | Resolution is given up exactly when the query has more than 200 rows |
| CandidateIndex.IndexedSinceRemaster | backend/src/recordlane/jobs/worker.py:95-129 | After any run, activations included, a remaster makes the index exact, and it stays exact until another activation of the domain |
| CandidateIndex.IndexedFromTheStart | backend/src/recordlane/mastering/service.py:385-394 | Under the first policy the index is exact at every commit |
| Delivery.ShowsTheLatest | backend/src/recordlane/mastering/service.py:299-434 | For full observations with distinct sequences, after any run the object shows the highest-sequence observation that is not quarantined |
| Delivery.OrderIsIrrelevant | backend/src/recordlane/mastering/service.py:525-532 | Two runs that received the same observations of an object, in any order and with any repetitions, end in the same projection |
| Redelivery.RedeliveryIsIdle | backend/src/recordlane/mastering/service.py:320-342 | After any later steps, delivering a committed observation again commits and changes nothing |
| Redelivery.RetryAfterCrash | backend/src/recordlane/api/routes.py:1002-1015 | A webhook retried after a crash between its two commits only adds the answer, and every later retry changes nothing |
| FullRuns.SeenIsShown | backend/src/recordlane/mastering/service.py:200-267 | A run remembers exactly the identifiers its committed pages showed undeleted |
| FullRuns.NoInferredRetirement | backend/src/recordlane/mastering/service.py:268-287 | A page that does not complete a full run retires only objects one of its rows deletes |
| FullRuns.CompletionDecides | backend/src/recordlane/mastering/service.py:266-287 | At the completing page a shown object is not retired by inference; an unshown one ends active exactly when it was active and its tombstone version was already on record |
| SnapshotScenario.UnshownStaysActive | backend/src/recordlane/mastering/service.py:266-287 | A run from an empty store whose last page completes a full run, and an active object that no page of the run showed stays active |
| FullRuns.EveryActiveObjectWasShown | backend/src/recordlane/mastering/service.py:166-287 | After any trace, when the completing page commits with new tombstone versions, every active object of the source and domain was shown undeleted by a committed page of the run |
| FullRuns.ReplayIsIdle | backend/src/recordlane/mastering/service.py:182-189 | Replaying a committed page of a run, at any later time, changes nothing |
| FullRuns.TraceIsARun | backend/src/recordlane/mastering/service.py:299-470 | Every trace of pages and other steps is a run of single transactions, so the guarantees over runs cover paged ingestion |
| Admission.PageOpensIff | backend/src/recordlane/mastering/service.py:169-236 | A page of a run is admitted exactly when it has the run's mode, an unprocessed cursor that follows the last page, and, when it names a snapshot, is a delta on a finished one |
| Admission.PageOutsideRuns | backend/src/recordlane/mastering/service.py:181-189 | A page without a run claims no completeness; one already processed in its run is a duplicate |
| Admission.CompletionNeedsEvidence | backend/src/recordlane/mastering/service.py:236-239 | A page that claims to complete its run is taken only from a full run whose source declares it complete |
| Admission.DeltaFollowsSnapshot | backend/src/recordlane/mastering/service.py:218-233 | In every trace a delta page that names a snapshot comes after the page by which that full run was completed on the word of its source, and starts at its position |
| Admission.PagesFollowCursors | backend/src/recordlane/mastering/service.py:190-203 | In every trace the next page of a run has the cursor its last page announced |
| Admission.CompleteIff | backend/src/recordlane/mastering/service.py:454-458 | A run counts as complete exactly when one of its pages completed it |
| Admission.PageSparesOthers | backend/src/recordlane/mastering/service.py:266-287 | A page touches only the objects of its rows and, when it completes a full run, active ones of its source and domain |
| Activation.RolloutDrafts | backend/src/recordlane/mastering/service.py:912-980 | After a simulation, any steps, its committed approval, and then any jobs and replaced sources, the domain's job passes its checksum test and drafts every unmerged entity by the simulated definition on the simulated contributions, under the source priorities of the moment |
| Activation.RemasterMatchesSimulation | backend/src/recordlane/mastering/service.py:912-980 | If the priorities are as they were, or still order the sources of the contributions alike, every such entity ends with exactly the predicted values, and one the simulation does not list keeps its own |
| Activation.PredictionHoldsIff | backend/src/recordlane/mastering/service.py:1356-1413 | The fingerprint omits priorities: after any change of them the prediction comes true exactly when no attribute of the entity goes to a contribution with another value |
| SourceReplacement.ReplacedSourceBreaksPrediction | backend/src/recordlane/api/routes.py:903-914 | A trace from an empty desk in which a source is replaced between proposal and approval: the fingerprint still matches, the approval and the job commit, and the prediction fails |
| Activation.SimulationPredicts | backend/src/recordlane/mastering/service.py:1469-1490 | The attribute changes listed determine the proposed values, and an entity is unlisted exactly when its values stay equal |
| Activation.SnapshotFixesFacts | backend/src/recordlane/mastering/service.py:1397-1413 | Between two states of a run with the same fingerprint, every entity has the same contributions |
| Activation.PrimedJob | backend/src/recordlane/jobs/worker.py:91-142 | While the approved definition stands, the remaster job accepts its checksum and drafts every live entity by that definition under the priorities of the moment |
| Activation.TraceSound | backend/src/recordlane/mastering/service.py:956-980 | In every trace the service works with the compiled form of the stored definitions |
| Decisions.ConfigProposedIff | backend/src/recordlane/mastering/service.py:1567-1634 | A configuration is proposed exactly as a draft with its own simulation and unchanged data; older proposals go stale |
| Decisions.ConfigApprovedIff | backend/src/recordlane/mastering/service.py:912-945 | It is approved exactly when the task is open, the decider is not the proposer, draft, simulation, document and data are those proposed, and it compiles |
| Decisions.ActivationReplaces | backend/src/recordlane/mastering/service.py:946-980 | Activation replaces the definitions and policies of the named domains by the compiled ones and leaves those of all others alone |
| Decisions.ActivationKeepsData | backend/src/recordlane/mastering/service.py:946-980 | It touches no data, retires the configuration active before, accepts its task and files its jobs |
| Decisions.SnapshotsAgreeIff | backend/src/recordlane/mastering/service.py:1368-1413 | The fingerprint is the same exactly when records, places, retirements, entity versions and states, cannot-link rows and definitions are the same |
| Decisions.JobRunsIff | backend/src/recordlane/jobs/worker.py:80-106 | A remaster job runs exactly while the stored definition still compiles to the document of the job |
| Decisions.PriorityReplacedIff | backend/src/recordlane/api/routes.py:903-914 | A known source takes a priority from 1 to 10000, and nothing else changes |
| Jobs.OneEffectPerJob | backend/src/recordlane/jobs/worker.py:208-247 | For any interleaving, at most one handler transaction of a job commits, under its last fence, and exactly the complete jobs have one |
| Jobs.LiveFencesDiffer | backend/src/recordlane/jobs/worker.py:186-191 | Running handlers of one job hold different fences, none above the lease version |
| Jobs.OwnedExactlyWhileRunning | backend/src/recordlane/jobs/worker.py:161-261 | A job has an owner and an expiry exactly while running, attempts equal the lease version, and a job up for retry has attempts left |
| Jobs.TerminalIsFinal | backend/src/recordlane/jobs/worker.py:161-261 | Complete, failed and cancelled rows never change again, nor do their effects |
| Jobs.CancelPreventsCompletion | backend/src/recordlane/api/routes.py:1577-1593 | After an accepted cancellation no later step completes the job or commits its handler |
| Jobs.AttemptsCountClaims | backend/src/recordlane/jobs/worker.py:186-191 | Attempts count the claims and exceed the limit by at most the number of reclaimed leases |
| Jobs.FiveClaims | backend/src/recordlane/jobs/worker.py:249-259 | Without reclaimed leases a job is claimed at most five times |
| Jobs.TenStatusChanges | backend/src/recordlane/jobs/worker.py:161-261 | Without reclaimed leases a job changes status at most ten times |
| Jobs.ClaimExceedsLimit | backend/src/recordlane/jobs/worker.py:164-191 | A claim exceeds the limit exactly when it takes over a running job that has used its attempts |
| Jobs.ExpiryIgnoresTheLimit | backend/src/recordlane/jobs/worker.py:164-191 | Any number of claims is reachable by expiring leases |
| Jobs.OneWorkerSuffices | backend/src/recordlane/jobs/worker.py:161-247 | From any reachable state one undisturbed worker that waits for the lease ends the job: complete exactly when it is not cancelled and its kind is known |
| Leases.LeaseHolds | backend/src/recordlane/jobs/worker.py:161-175 | In every run a claim of a job under a live lease changes nothing |
| Leases.ClaimTakes | backend/src/recordlane/jobs/worker.py:178-191 | In every run a claim of a queued, retried or expired job hands it to the worker for thirty seconds under the next fence, or cancels it when that was asked for |
| Leases.LeasedOrWaiting | backend/src/recordlane/jobs/worker.py:161-175 | In every run each job is leased, waiting or terminal, and never both of the first |
| Leases.EnqueuedWaits | backend/src/recordlane/mastering/service.py:956-980 | A new job waits with no attempts, no fence and no cancellation |
| Leases.LeaseExcludes | backend/src/recordlane/jobs/worker.py:35-50 | While the lease lives only its holder changes the row; anyone may ask for cancellation |
| Leases.LeaseProtects | backend/src/recordlane/jobs/worker.py:35-67 | As long as the lease is kept alive the job stays with its worker, under its fence, whatever the others do |
| Leases.HeartbeatExtends | backend/src/recordlane/jobs/worker.py:35-67 | A heartbeat of the holder extends the lease to thirty seconds from now unless cancellation was asked for; any other marks the execution as lost |
| Leases.LostNeverCommits | backend/src/recordlane/jobs/worker.py:228-245 | An execution that found its lease lost commits nothing any more |
| Leases.BeginDecides | backend/src/recordlane/jobs/worker.py:211-226 | Before the handler starts its holder cancels the job when asked and fails one of an unknown kind |
| Leases.FinishCommitsIff | backend/src/recordlane/jobs/worker.py:227-245 | The handler's transaction commits exactly when its execution holds the job, never lost its lease, and no cancellation was asked for |
| Leases.FailureIsCounted | backend/src/recordlane/jobs/worker.py:246-258 | A handler that raises gives the job back: up for retry below five attempts, failed from five on |
| Jobs.JobTable.RenewLease | backend/src/recordlane/jobs/worker.py:35-50 | The lease is extended exactly when this worker generation still owns a running, uncancelled job |
| Jobs.JobTable.OldestClaimable | backend/src/recordlane/jobs/worker.py:164-175 | The oldest claimable job, or none when there is none |
| Jobs.JobTable.ClaimOne | backend/src/recordlane/jobs/worker.py:161-191 | The oldest claimable job is claimed under a new fence, or cancelled when cancellation was requested |
| Jobs.JobTable.Execute | backend/src/recordlane/jobs/worker.py:209-247 | The handler transaction is the begin and the guarded commit of the protocol |
| Jobs.JobTable.GiveBack | backend/src/recordlane/jobs/worker.py:249-259 | A failed handler gives back only a job it still holds, failed at the limit and up for retry below it |
| Jobs.JobTable.RunOnce | backend/src/recordlane/jobs/worker.py:194-261 | One undisturbed round is a run of the protocol for the oldest claimable job |
| Jobs.JobTable.CancelJob | backend/src/recordlane/api/routes.py:1577-1593 | Accepted exactly on a job that is not terminal |
| Publication.DeliveryGuarantees | backend/src/recordlane/publication/service.py:77-143 | At every point of every fair run, crashes included: a pending, retry or dead-letter event is not applied, a delivered one is applied with exactly one receipt of its version, and attempts are numbered without gaps |
| Publication.AppliedAtMostOnce | backend/src/recordlane/demo_services.py:91-107 | Whatever arrives, however late or often, the consumer applies each event at most once |
| Publication.LateArrivalBreaksIt | backend/src/recordlane/publication/service.py:177-183 | With a late arrival, an event up for retry can already be applied |
| Publication.QueryResolves | backend/src/recordlane/publication/service.py:177-201 | An answered query returns an absent event to retry and delivers an applied one exactly when the consumer echoes its version; otherwise it stays |
| Publication.StuckForever | backend/src/recordlane/publication/service.py:187-193 | An applied event whose payload lacks its version stays under reconciliation in every run |
| Publication.LostResponse | backend/src/recordlane/publication/service.py:129-135 | A lost response leaves an event in that state exactly when its payload lacks the version |
| Publication.RecoveryDelivers | backend/src/recordlane/publication/service.py:154-201 | One query and one undisturbed send deliver any event that is not dead-lettered and whose payload carries its version |
| Publication.AttemptsBounded | backend/src/recordlane/publication/service.py:123-142 | At most five attempts, plus one for each reconciliation that returned the event to retry |
| Publication.AttemptExceedsLimit | backend/src/recordlane/publication/service.py:62-89 | An event goes past five attempts exactly when one that has used its five is sent again |
| Publication.ReconciliationIgnoresTheLimit | backend/src/recordlane/publication/service.py:155-210 | In a fair run with crashes, reconciliation returns one event to retry after any number of attempts |
| Responses.SendRecords | backend/src/recordlane/publication/service.py:77-140 | One send counts and numbers the attempt; success delivers, an uncertain answer leaves the event to reconciliation, a refusal puts it up for retry below five attempts and gives it up from five on |
| Responses.RefusalRetriesBelowFive | backend/src/recordlane/publication/service.py:123-127 | After a refused send an event can be sent again exactly when it has fewer than five attempts |
| Responses.DeadLettersHadFiveAttempts | backend/src/recordlane/publication/service.py:123-140 | In every run an event that was given up had at least five attempts |
| Responses.DeliveredAndDeadAreFinal | backend/src/recordlane/publication/service.py:62-71 | In every fair run delivered events and those given up never change again |
| Responses.ReceiptTellsHow | backend/src/recordlane/publication/service.py:26-51 | A delivery is receipted once, as accepted or as reconciled |
| Publication.Sink.ReceiveEvent | backend/src/recordlane/demo_services.py:68-110 | An unsigned request changes nothing; a signed one is inserted unless present, even when the response is then lost |
| Publication.Publisher.WriteReceipt | backend/src/recordlane/publication/service.py:26-51 | The receipt of the event is updated, or added when there is none |
| Publication.Publisher.SendOne | backend/src/recordlane/publication/service.py:77-143 | Both commits of one send: attempt counted and marked uncertain, then the outcome by response class |
| Publication.Publisher.RelayEvents | backend/src/recordlane/publication/service.py:54-152 | The call is a run of the protocol over the first hundred sendable events, keeps the delivery guarantees in a fair network, and counts exactly how many ended delivered, refused and uncertain |
| Publication.Publisher.ReconcileEvents | backend/src/recordlane/publication/service.py:155-210 | The call is a run of the protocol over the first hundred uncertain events, and counts exactly how many ended delivered, up for retry and still uncertain |
| Announcements.OnlySplitsGetStuck | backend/src/recordlane/mastering/service.py:1206-1216 | After a lost response reconciliation delivers every mastering event except an identity split, which stays under reconciliation for good |
| Announcements.UndisturbedDelivery | backend/src/recordlane/publication/service.py:106-116 | Sent undisturbed, any mastering event is applied and delivered |
| Announcements.OutboxGrows | backend/src/recordlane/mastering/service.py:887-905 | Every transaction leaves the announced events as they were and appends what it announces |
| Announcements.ApprovalsArriveOnce | backend/src/recordlane/publication/service.py:77-152 | For any interleaving of mastering, relay, reconciliation and crashes: a version is approved exactly when one outbox row carries it; the consumer inserts it at most once, exactly once when that row is delivered, not at all while it waits or after it is given up, and inserts nothing for other versions |
| PolicyCompiler.CompileIsIdempotent | backend/src/recordlane/policy.py:240-448 | Compiling a canonical document succeeds with the same document, hence the same checksum |
| PolicyCompilation.CompilePolicy | backend/src/recordlane/policy.py:240-448 | The compiler's loops build exactly the canonical document, and fail with the first error in their order |
| PolicyCompilation.CollectValidation | backend/src/recordlane/policy.py:269-280 | The table of validation rules gives each field its last rule |
| PolicyCompilation.CollectAttributes | backend/src/recordlane/policy.py:281-319 | Attributes are canonical one by one, or the first unsupported setting is reported |
| PolicyCompilation.CollectBlocking | backend/src/recordlane/policy.py:360-375 | The short form becomes one strategy; every strategy is checked |
| PolicyCompilation.CollectMatching | backend/src/recordlane/policy.py:346-413 | Weights, comparators, probabilities, prior and thresholds pass their guards, or the first failing one is reported |
| PolicyCompilation.CollectIdentifiers | backend/src/recordlane/policy.py:320-345 | Identifiers, or the namespaces in their place, become canonical with their field, namespace and hardness |
| PolicyCompilation.CheckSurvivorship | backend/src/recordlane/policy.py:414-428 | Every rule is for a known attribute or the default and names a known strategy |
| PolicyMeaning.KeysAreStrategies | backend/src/recordlane/policy.py:137-156 | A key is produced exactly when some strategy with something to say about the record yields it |
| PolicyMeaning.KeysAreDistinct | backend/src/recordlane/policy.py:154-156 | A record's keys are pairwise distinct, because the strategy prefix tells them apart |
| PolicyMeaning.PrefixAloneJoins | backend/src/recordlane/policy.py:141-155 | A strategy with a prefix gives two records that both lack one of its fields a common key exactly when both show the same nonempty prefix |
| PolicyMeaning.NamesakesJoin | backend/src/recordlane/policy.py:141-155 | Two suppliers with different names and no tax number get the same key from a strategy on tax number and name prefix |
| PolicyMeaning.FullKey | backend/src/recordlane/policy.py:141-155 | A supplier that shows both gets one key with both parts, in their written form |
| PolicyMeaning.ShortFormKeepsKeys | backend/src/recordlane/policy.py:360-366 | Rewriting the short blocking form leaves the keys unchanged |
| PolicyMeaning.InheritsTheLastRule | backend/src/recordlane/policy.py:276-318 | An attribute inherits the list of the last validation rule that names it |
| PolicyMeaning.ValidationIsKept | backend/src/recordlane/policy.py:87-106 | A compiled attribute reports a present value exactly when the definition, with its inherited lists, does not allow it |
| PolicyMeaning.RequiredIsKept | backend/src/recordlane/policy.py:93-97 | A blank value of a required attribute is reported alone, and only then |
| PolicyMeaning.ContradictionsAreKept | backend/src/recordlane/policy.py:161-178 | A pair is contradicted exactly when the definition, through flags, hard conflicts or namespaces, declares a hard identifier both carry with different values |
| PolicyMeaning.ContradictionIsSymmetric | backend/src/recordlane/policy.py:161-178 | Contradiction does not depend on the order of the pair |
| PolicyMeaning.ScoresAreKept | backend/src/recordlane/policy.py:346-445 | Compilation changes neither the score nor the thresholds |
| Agreements.ThresholdsDecide | backend/src/recordlane/policy.py:216-226 | A contradicted pair is kept separate; any other is linked, reviewed or left by the thresholds as written, each belonging to the better decision |
| Agreements.ScoreIsShare | backend/src/recordlane/policy.py:179-215 | With exact weighted rules the score is the share of the weights of agreeing fields, a missing field counting its missing score, to four decimals |
| Agreements.RoundIsNearest | backend/src/recordlane/policy.py:213-215 | Rounding returns a multiple of the unit within half a unit, the even one of two |
| Agreements.AgreementScoresOne | backend/src/recordlane/policy.py:186-220 | A pair that agrees on every compared field scores one and is linked when nothing contradicts it and the threshold is at most one |
| Agreements.DisagreementScoresZero | backend/src/recordlane/policy.py:186-215 | A pair that differs on every compared field scores zero |
| Agreements.BlankCountsMissing | backend/src/recordlane/policy.py:187-188 | Fields that a side lacks count their missing score |
| Agreements.LikenessIsTheScore | backend/src/recordlane/policy.py:191-192 | A single rule that compares by likeness scores the likeness of the two texts |
| Agreements.ScoreIsBayes | backend/src/recordlane/policy.py:203-213 | With exact evidence the Fellegi-Sunter score is the probability, given what the comparison shows, that the pair is a match: Bayes' rule with the prior, to six decimals |
| RecordRules.NormalizesByDefinition | backend/src/recordlane/policy.py:58-85 | Each value takes the normal form its last attribute asks for, as the definition writes it; a value without an attribute stays |
| RecordRules.QuarantinedByDefinition | backend/src/recordlane/policy.py:87-135 | A record is quarantined exactly when the definition, as written, misses a required value or finds a present one not allowed, not matching or of the wrong type |
| RecordRules.AcceptedIff | backend/src/recordlane/policy.py:240-448 | The compiler accepts exactly the definitions that meet the written conditions |
| RecordRules.DefaultsAreFilled | backend/src/recordlane/policy.py:240-448 | What a definition leaves out is filled in: entity, mode, algorithm, prior, thresholds and version |
| Matcher.NormalizeRecord | backend/src/recordlane/policy.py:58-85 | The loop normalizes each value by its attribute and leaves nulls and unknown keys alone |
| Matcher.NormalizeIsIdempotent | backend/src/recordlane/policy.py:58-85 | Normalizing twice changes nothing when the library's text and decimal normalizers settle |
| Matcher.ValidateRecord | backend/src/recordlane/policy.py:87-135 | All faults in attribute order; an over-long pattern raises |
| Matcher.CollectFields | backend/src/recordlane/policy.py:139-146 | All field parts of a strategy, or none when one value is blank |
| Matcher.ComputeBlockingKeys | backend/src/recordlane/policy.py:137-156 | The loops produce one key per strategy with parts, in order |
| Matcher.ComparePair | backend/src/recordlane/policy.py:158-234 | The verdict is the rounded weighted mean or posterior of the components, and the decision follows contradictions and thresholds |
| Matcher.FindContradictions | backend/src/recordlane/policy.py:161-178 | Exactly the hard identifiers both records carry with different values |
| Matcher.Accumulate | backend/src/recordlane/policy.py:179-210 | Total weight, weighted sum and log likelihood of the components |
| Scoring.DecisionMonotone | backend/src/recordlane/policy.py:179-227 | For every compiled policy raising components, contradictions unchanged, lowers neither score nor decision, in both algorithms |
| Scoring.BetterAgreementRanksHigher | backend/src/recordlane/policy.py:158-234 | The same for two compared pairs |
| Scoring.AgreementOutweighs | backend/src/recordlane/policy.py:395-404 | The guard `0 < u < m < 1` makes agreement weigh at least as much as disagreement |
| Scoring.ScoreInUnit | backend/src/recordlane/policy.py:211-218 | The score stays between zero and one when the ratio and the missing scores do |
| Wiring.ScoresDecideOutcomes | backend/src/recordlane/policy.py:219-227 | An automatic link outscores every review of the same record |
| Wiring.CompiledPoliciesAreSymmetric | backend/src/recordlane/policy.py:161-178 | Compiled policies meet the assumption of the guarantee against contradictions |
| Wiring.ClashIsDeclared | backend/src/recordlane/policy.py:320-345 | A contradiction inside the service is one the stored definition declares |
| Guarantees.NoContradictionUnderCompiled | backend/src/recordlane/mastering/service.py:625-666 | Under compiled definitions the guarantee against contradictions needs no assumption on the policies |
| Guarantees.NoDeclaredConflictWithinEntity | backend/src/recordlane/policy.py:320-345 | End to end: under any definitions, in a run without approved merges, in-place updates or activations, no two current contributions of an entity differ on an identifier the definition declares hard |
| Guarantees.CompiledOutcome | backend/src/recordlane/mastering/service.py:616-666 | With a compiled policy the pick is an automatic link exactly when some candidate could be linked automatically, and there is none exactly when no candidate is eligible |
| Guarantees.ObservationOutcome | backend/src/recordlane/mastering/service.py:385-434 | With an exact index, a committed first observation joins an existing entity exactly when some record of a full scan is an eligible automatic link, opens a review exactly when some is eligible but none is, and stands alone exactly when none is eligible |
| Guarantees.FirstObservationOutcome | backend/src/recordlane/mastering/service.py:299-434 | The same at every point of every run from an empty store under compiled definitions, with no hypothesis on the index |
| Guarantees.IndexRowsPerRecord | backend/src/recordlane/mastering/service.py:385-394 | A record gets exactly as many index rows as it has keys |
| Wiring.OneRowPerKey | backend/src/recordlane/policy.py:137-156 | A record is indexed once under each of its keys |
| Wiring.QuarantineIsAFault | backend/src/recordlane/policy.py:87-135 | With patterns within the limit validation never raises, and a record is quarantined exactly when some attribute faults it |
| Probabilistic.FitParameters | backend/src/recordlane/matching/probabilistic.py:22-57 | The loops compute the smoothed, rounded shares, and refuse a field that does not discriminate |
| Probabilistic.CountAgreements | backend/src/recordlane/matching/probabilistic.py:38-45 | The number of agreeing pairs, or the error of an unknown comparator |
| Probabilistic.FitRule | backend/src/recordlane/matching/probabilistic.py:35-56 | The two smoothed shares of one rule, rounded, or a refusal when they do not discriminate |
| Probabilistic.FittedParametersAreSound | backend/src/recordlane/matching/probabilistic.py:46-56 | With smoothing 1 and `(M+2)(U+2) < 10^6` every fitted rule passes the compiler's probability guard |
| Probabilistic.RoundedEstimates | backend/src/recordlane/matching/probabilistic.py:46-55 | Under that bound rounding to six decimals keeps `0 < u < m < 1` |
| Probabilistic.RoundingCanCollide | backend/src/recordlane/matching/probabilistic.py:46-55 | A training set beyond the bound whose fitted rule the guard refuses |
| Statistics.FittedShares | backend/src/recordlane/matching/probabilistic.py:22-57 | Fitting gives each rule the smoothed shares of the agreeing pairs among the matches and among the others, to six decimals, and only when the first is the larger |
| Statistics.TrainingNeedsBoth | backend/src/recordlane/matching/probabilistic.py:28-34 | Without a match or without another pair nothing is fitted |
| Evaluation.CountPairs | backend/src/recordlane/matching/probabilistic.py:60-71 | One pass computes the four tallies and the squared error |
| Evaluation.Evaluate | backend/src/recordlane/matching/probabilistic.py:60-83 | The report of the scored pairs |
| Evaluation.ReportIsSound | backend/src/recordlane/matching/probabilistic.py:72-83 | The tallies partition the pairs and add up to the labels; precision and recall are shares |
| Evaluation.BrierInUnit | backend/src/recordlane/matching/probabilistic.py:71-82 | The Brier score stays between zero and one when the ratio and the missing scores do |
| Statistics.ReportCounts | backend/src/recordlane/matching/probabilistic.py:60-83 | The counters are the numbers of pairs with each prediction at one half and each label; precision and recall are the shares of the true positives among the predictions and among the matches |
| Statistics.BrierIsMeanMiss | backend/src/recordlane/matching/probabilistic.py:71-82 | The Brier score is the mean squared distance of the scores from the labels, to six decimals |
| Statistics.PerfectReport | backend/src/recordlane/matching/probabilistic.py:60-83 | A policy that scores matches one and other pairs zero has full precision and recall and no Brier score |

## Left out

- Survivorship.ComputeMasterValues: provenance omits the source's display name, the source version and the policy version, which are copied from rows that decide nothing.
- Survivorship.MasterField: omits the same three parts of provenance.
- Service.MasteringService.DraftMaster: the stored draft keeps its values and its bound version; the provenance written with it is what `Survivorship.ComputeMasterValues` computes.
- Matcher.ComparePair: omits the evidence list; score, decision and contradiction are modelled.
- Activation.SimulationPredicts: the changes of links, of validation and of provenance that a simulation also lists are not modelled.
- Service.MasteringService.Perform: excludes the approval of a configuration, which needs the configuration desk of `Activation.dfy`.
- Agreements.ScoreIsShare: covers exact comparisons; likeness is an uninterpreted ratio, for which `Agreements.LikenessIsTheScore` covers the single rule.
- Agreements.ScoreIsBayes: covers exact comparisons whose missing score is zero; other missing scores interpolate between the two log likelihood ratios and have no reading as a probability.
- Separation.CannotLinkHolds: excludes approved merges, for which the claim is false of the code; `Limits.MergeKeepsApartIff` gives the exact condition for each merge.
- Contradictions.NoContradictionWithinEntity: excludes approved merges, in-place updates of placed objects and policy activations, for which the claim is false of the code; `Limits.MergeKeepsPeaceIff` and `Limits.UpdateKeepsPeaceIff` give the exact conditions.
- Drafts.DraftsNeverLag: excludes policy activations, after which drafts are stale until the remaster job has finished; `Drafts.RemasterFreshens` and `Activation.PrimedJob` cover the job. The sources are those of the start.
- Activation.RemasterMatchesSimulation: needs the priorities to be or to order as before, which the fingerprint does not check; `Activation.PredictionHoldsIff` is the exact condition.
- Publication.DeliveryGuarantees: assumes that relay and reconciliation do not overlap, that no request arrives late, and that a refusal or another transport error means not applied; `Publication.LateArrivalBreaksIt` shows the second is needed.
- Probabilistic.FittedParametersAreSound: gives a bound on the training set, not an exact one; beyond it some fits pass and some do not.
- Wiring.RulesOf: a policy whose pattern exceeds 256 characters raises during validation in the source and quarantines here; `Wiring.QuarantineIsAFault` is about the others.
- A survivorship `default` given as an object compiles but fails in `_master_values`; the default is a strategy name here.
- Python equality of `True` and `1`, floats and objects as attribute values, and role lists beyond the sets they denote.
- Write roles, authentication, signatures, HTTP, secrets, row-level security and the audit chain.
- The copy of an object's entity kept on each observation, relationships, the review opened for downstream repair after a split, counters of an ingestion call, due dates and priorities of reviews.
- The legacy backfill of source objects and its payload comparison: a store begins after migration.
- The adapter for the preview configuration shape, configuration versions and reverts, and secret scanning.
- Creating sources, changing a source's key or connection settings on replacement, replacing sources outside the configuration desk of `Activation.dfy`, deleting jobs, and per-entity ordering of publication, which the source does not promise.
- Objects are updated in the database as values: aliasing of ORM rows inside a transaction is not modelled.
- The worker's claim order is the oldest claimable job in `Jobs.JobTable`; the protocol lets any claimable job be claimed, which covers skipped locks.
