# Consequence Rail, modelled and proved in Dafny

Consequence Rail lets an agent's action happen only behind a signed reservation of recourse, records
every step in a hash-linked event log, and settles with a signed receipt that others can verify without
trusting the rail. This project models that protocol and its periphery and proves what it promises:

- **The rail** (`RailStates`, `EventStore`, `RailModel`, `RailInvariant`, `RailRuns`, `RailTheorems`,
  `RailProgress`, `RailReplies`, `RailOverlap`, `RailWitness`, `ConsequenceRail`). Every lifecycle call is
  a plan of atomic steps, one durable append with the record mutation behind it, or one connector call. An
  async call is split at its `await`, so calls of one action interleave freely; a store that refuses an
  append cuts a plan short anywhere. A *run* is any sequence of such turns with any connector replies. The
  class `ConsequenceRail` holds all records and updates them in place; each of its methods performs a prefix
  of the plan its call has, the whole plan unless the store refused.
- **The verifier** (`Verify`, `VerifySoundness`). Bundle verification over an arbitrary signed event list,
  and what acceptance implies when nobody vouches for the producer.
- **The connectors** (`MockRecourse`, `RefundConnector`, `RefundTruth`, `RefundWorld`, `RefundProof`,
  `RefundEndToEnd`, `InventoryConnector`, `InventoryLaws`, `InventoryWorld`). The two mock services as
  objects, and rail and service together in one world with any number of actions.
- **Recovery drills** (`Recovery`, `RecoveryAdapter`), **reviews** (`Review`), **canonical JSON and its
  parser** (`JsonValues`, `JsonText`, `NumberText`, `JsonInput`, `CanonicalText`, `Canonical`,
  `CanonicalCopy`), **postconditions** (`Postconditions`) and **release metadata** (`Doubles`, `SemVer`,
  `ReleaseMetadata`).

`dafny verify dfyconfig.toml` checks everything.

## What the theorems assume

- Digests and signatures are functions of a `Crypto` value. Nothing is assumed about collisions: where a
  claim depends on one, the collision is part of the conclusion. Theorems about what the rail signs assume
  `SoundSignatures`: what a key signs verifies under that key.
- The clock never runs backwards between the turns of an action (`CanRun`).
- Claims that the verifier accepts an export assume a truthful environment (`Truthful`): a commitment is not
  reserved in the future, a proposal is not requested after the instant its permit is issued, and reported
  facts echo the currency or the SKU of the action. The rail checks none of the three; the verifier checks
  all of them.
- Overlapping calls are allowed throughout. One overlap spoils an export, and the model shows which:
  `RailOverlap.ExportAcceptedExactly` gives the exact condition and `RailWitness.SomeRunSpoilsItsExport`
  a run.
- In the joint worlds of rail and service, the replies that reach the rail are replies the service gave, and
  a store that refuses the EXECUTED event reports an error code of its own.

## Properties that do not hold as one would expect

- Two suspended `reconcileRemedy` calls that hear different answers can close an action while the outcome
  observation is still awaited. The late observation is recorded behind CLOSED and from then on no verifier
  accepts the bundle (`RailOverlap.ExportAcceptedExactly`, both directions).
- An action whose `close()` failed stays in its settling state for good, and so does an authorized action for
  which no recourse can be reserved: in observed mode, or when the rail trusts no connector key. Everything else
  at rest can be moved on (`RailProgress.RestingActions`, both directions).
- The inventory service answers INVENTORY_INSUFFICIENT after it has changed the stock exactly when an
  injected duplicate finds stock for one allocation but not for two (`InventoryLaws.RefusalHidesEffectExactly`).
- `compareSemVer` compares numbers as doubles. `1.0.0-9007199254740993` equals `1.0.0-9007199254740992`
  (`SemVer.NeighboursAreNotTold`), `9007199254740992.2.0` comes after `9007199254740993.1.0`
  (`SemVer.PassedOverMajorsTurnTheOrder`), a number that overflows makes a version differ from itself
  (`SemVer.HugeVersionIsNotItself`), and a changelog that lists one such version twice in a row has no findings
  (`ReleaseMetadata.OverflowHidesARepetition`). `SemVer.ComparatorAgreesExactly` says for all versions when
  the comparator is the precedence of section 11 of Semantic Versioning 2.0.0, `SemVer.NoAnswerExactly` when it
  answers NaN, and `ReleaseMetadata.NoFindingsOrderExactly` when a changelog without findings is in descending
  order: exactly when no two neighbouring releases meet in overflowing numbers.
- Canonical JSON does not write the sign of zero (`CanonicalText.SignOfZeroIsNotWritten`); that and the order
  of members is all it does not write.

## Model

| member | source | states |
|---|---|---|
| RailStates.VisitedAtMostOnce | src/rail-state.js:22-42 | no legal path through the transition table visits a state twice, and the last state outranks none before it |
| EventStore.VerifyEventChain | src/event-store.js:45-90 | the loop accepts exactly the lists in which every link is good, and otherwise reports the error of the first bad link |
| EventStore.AppendKeepsChain | src/event-store.js:16-38 | appending to a verified chain of one action gives a verified chain of that action, one event longer |
| EventStore.MemoryEventStore.Append | src/event-store.js:16-38 | the list of one action grows by the one signed and linked event, every other list is untouched, and every stored list stays a verified chain |
| EventStore.CheckpointProvesPrefix | src/verify.js:407-431 | two verified chains with the same hash at one position are the same up to there, or two different signed events collide under the digest |
| VerifySoundness.CheckpointedBundlesShareHistory | src/verify.js:407-431 | two accepted bundles that extend the same checkpoint share the checkpointed history, or a collision is exhibited |
| Verify.ReplayStates | src/verify.js:658-710 | the loop returns the visited states exactly when every event belongs to the action, times never fall, every transition starts where the last one ended and is allowed, the first event proposes the action and the last one closes it |
| Verify.StateBeforeEvent | src/verify.js:796-807 | the state the events before the one with the sought sequence number leave behind, and nothing when there is no such event |
| VerifySoundness.OutcomeIsTheStateBeforeClosed | src/verify.js:712-728 | the membership tests of deriveOutcome agree on every complete legal path with the state directly before CLOSED and never fail |
| VerifySoundness.AcceptedHistoryIsLawful | src/verify.js:433-656 | acceptance of an audit bundle with an arbitrary event list implies one simple legal path from PROPOSED to CLOSED with one execution, inside the permit's and the proposal's time, at most one remedy, an outcome that is the state before CLOSED, and recourse that covers the action in scope and time |
| VerifySoundness.SettledWasSatisfied | src/verify.js:730-794 | an accepted settled bundle accepted satisfying evidence while verifying, fresh, and was never breached |
| VerifySoundness.CompensatedWasBreachedThenRemedied | src/verify.js:730-794 | an accepted compensated bundle accepted a breach first and a satisfying post-remedy observation strictly later, each fresh and each in its own phase |
| VerifySoundness.RecourseWasSettledLast | src/verify.js:433-656 | in an accepted bundle the one and only recourse event stands directly before CLOSED, in the state that decided the outcome, with the status and time the receipt names |
| RailInvariant.StepKeepsCore | src/rail-class.js:1069-1085 | every step that may be taken keeps the invariant of record, log and calls, whatever is suspended |
| RailInvariant.StepKeepsOrder | src/rail-class.js:1119-1171 | every step of a run in which no observation comes too late keeps what the verifier will ask for: evidence, acceptances, recourse last, times, and which replies may be awaited where |
| RailRuns.RunsAreGood | src/rail-class.js:148-845 | every view of every run, under every interleaving, reply and refused append, keeps the invariant; truthful runs without a late observation keep the stronger one |
| RailTheorems.AtMostOnce | src/rail-class.js:424-520 | in every run one action calls connector.execute at most once and connector.remediate at most once, and no more often than its reservation allows |
| RailTheorems.LogAgreesWithRecord | src/rail-class.js:1069-1085 | in every reachable view the log is a verified chain from which state, counters, accepted evidence and recorded recourse status are reconstructed exactly, and a receipt exists exactly when the state is CLOSED |
| RailTheorems.NoRecourseNoExecution | src/rail-class.js:424-520 | at every call of connector.execute the permit is unexpired and names the signed reservation, the payload is the authorized one up to digest, the connector reports the reservation active, its scope and validity cover the action, and a required drill verifies now as exact, is bound to this reservation, and is the one whose attestation the logged permit event names |
| RailTheorems.RequiredDrillRestored | src/recovery-preflight.js:359-396 | in every run, where policy requires a drill, every call of connector.execute has behind it a drill of a synthetic fixture, current at that moment, that damaged a state and restored it exactly, unless states collide under the digest |
| RailTheorems.ProducerVerifierAgree | src/rail-class.js:897-934 | in every truthful run without a late observation, overlapping calls included, an action with a receipt exports an audit bundle that verifies with semantics and a receipt bundle that verifies |
| RailOverlap.ExportAcceptedExactly | src/rail-class.js:897-934 | in every truthful run, however calls overlap, the exports of an action with a receipt are accepted if and only if no observation was recorded behind the closing decision, equivalently if and only if its log ends in a state transition |
| RailOverlap.ClosedExportSurvivesExactly | src/rail-class.js:773-817 | from an accepted closed action any turn keeps the export acceptable if and only if it records no late observation |
| RailOverlap.OverlapSpoilsExport | src/rail-class.js:730-771 | two suspended reconcileRemedy calls that hear a confirmation and a failure, then the observation, give a closed action with a receipt and a refused export |
| RailWitness.SomeRunSpoilsItsExport | src/rail-class.js:730-817 | for any sound signatures and any digest there is a truthful run from the proposal on that ends with a receipt and a refused export |
| RailProgress.NoStranding | src/rail-class.js:424-817 | if no append is refused, every transient state has the call that will leave it still suspended, so no action without a suspended call is in a transient state |
| RailProgress.RestingActions | src/rail-class.js:148-817 | if no append is refused, an action without a suspended call rests for good exactly when it has ended, its close has failed, or it is authorized and either observed or without any trusted connector key; otherwise some call moves it on |
| RailProgress.AuthorizedMovesOnExactly | src/rail-class.js:286-341 | outside observed mode an authorized action can be moved on exactly when some request, capabilities and signed commitment pass the checks of reserveRecourse at some later time, which for every proposal is exactly when some connector key is trusted |
| RailProgress.CallMovesOn | src/rail-class.js:343-730 | which call that is: for each state a fixed call, from the expiry of the recourse on, that leaves the state or asks the connector whatever it answers |
| RailReplies.RemedyNeedsAcceptance | src/rail-class.js:424-520 | in every run a remedy is asked for only after a reply to the execute call arrived that was not a refusal |
| ConsequenceRails.ConsequenceRail.constructor | src/rail-class.js:85-146 | a well-formed rail without actions |
| ConsequenceRails.ConsequenceRail.Propose | src/rail-class.js:148-182 | refuses an invalid proposal, a known action, a full rail and a refused append, and changes nothing then; otherwise exactly one view is added, the proposed one |
| ConsequenceRails.ConsequenceRail.Authorize | src/rail-class.js:184-225 | performs a prefix of its plan, all of it unless the store refused, on this action alone |
| ConsequenceRails.ConsequenceRail.AcceptRecoveryQualification | src/rail-class.js:227-284 | likewise for the acceptance of a drill |
| ConsequenceRails.ConsequenceRail.ReserveRecourse | src/rail-class.js:286-341 | likewise for the reservation, kept only behind its event |
| ConsequenceRails.ConsequenceRail.IssuePermit | src/rail-class.js:343-422 | likewise for the permit and for the early ends EXPIRED and REVOKED |
| ConsequenceRails.ConsequenceRail.Execute | src/rail-class.js:424-520 | likewise up to the await: the permit is used up in the log before the call leaves |
| ConsequenceRails.ConsequenceRail.ExecuteArrived | src/rail-class.js:424-520 | likewise behind the await, the catch block included, also when the store refuses inside the try block |
| ConsequenceRails.ConsequenceRail.StatusArrived | src/rail-class.js:522-552 | likewise for the answer to a status query |
| ConsequenceRails.ConsequenceRail.OutcomeArrived | src/rail-class.js:554-621 | likewise for the observation: evidence is recorded or rejected, then judged |
| ConsequenceRails.ConsequenceRail.Remediate | src/rail-class.js:623-728 | likewise up to the call of the connector: the attempt is counted in the log first |
| ConsequenceRails.ConsequenceRail.RemedyArrived | src/rail-class.js:623-728 | likewise behind it |
| ConsequenceRails.ConsequenceRail.RemedyStatusArrived | src/rail-class.js:730-771 | likewise for the answer to a remedy status query |
| ConsequenceRails.ConsequenceRail.RemedyOutcomeArrived | src/rail-class.js:773-817 | likewise for the observation behind a remedy |
| ConsequenceRails.ConsequenceRail.Close | src/rail-class.js:1119-1171 | likewise for close(): recourse event, CLOSED, then the signed receipt |
| ConsequenceRails.ConsequenceRail.Call | src/rail-class.js:424-817 | one segment of one call on the object is one turn of that action, no other action is touched, and every action keeps its invariant |
| ConsequenceRails.ConsequenceRail.Export | src/rail-class.js:897-934 | only an action with a receipt has a bundle, and then the bundle of its record and whole log |
| RefundConnectors.MockRefundConnector.ReserveRecourse | src/mock-refund-connector.js:70-121 | a signed commitment and an active entry exactly when capability, connector, action type and amount allow it; otherwise nothing changes |
| RefundConnectors.MockRefundConnector.RecourseStatus | src/mock-refund-connector.js:123-142 | the status at that time, with an expiry recorded; entries only end |
| RefundConnectors.MockRefundConnector.ReleaseRecourse | src/mock-refund-connector.js:144-149 | an active entry is released, nothing else changes |
| RefundConnectors.MockRefundConnector.ExecuteRefund | src/mock-refund-connector.js:181-219 | the state and reply of the execution function: foreign keys refused, known keys answered from the cache, one refund or two with the injected duplicate |
| RefundConnectors.MockRefundConnector.ObserveOrder | src/mock-refund-connector.js:229-259 | count and total of the active refunds of the order, or what the injected evidence fault shows |
| RefundConnectors.MockRefundConnector.RemediateRefund | src/mock-refund-connector.js:261-335 | the state and reply of the remedy function: the duplicate is voided and the reservation consumed, once per key |
| RefundEndToEnd.RefundsComeFromOneExecution | src/mock-refund-connector.js:345-369 | in every reachable world of rails and processor each refund was created in the one execute call of its action, at its time and for its order and amount, and an action created at most two |
| RefundEndToEnd.CompensatedMeansOnlyPrimaryActive | src/mock-refund-connector.js:261-335 | a compensated receipt means the primary refund is active, the duplicate and nothing else of the action is voided, and the reservation is consumed, unless the requests of this and another action are a pair whose token digests differ in what they digest and share their first 24 characters |
| RefundEndToEnd.FailedMeansNoEffect | src/rail-class.js:424-520 | an action in FAILED has created no refund |
| RefundEndToEnd.UnknownIsResolvedTruthfully | src/rail-class.js:522-552 | reconciling an unknown execution with the processor's answer always resolves it, to EXECUTED exactly when a refund was created |
| RefundEndToEnd.RunsExtend | src/mock-refund-connector.js:163-179 | every world run goes on with any genuine event |
| InventoryConnectors.MockInventoryConnector.ExecuteAllocation | src/mock-inventory-connector.js:205-239 | the state and reply of the execution function, the duplicate that does not fit included |
| InventoryConnectors.MockInventoryConnector.RemediateAllocation | src/mock-inventory-connector.js:276-337 | the state and reply of the remedy function |
| InventoryLaws.StockIsConserved | src/mock-inventory-connector.js:145-167 | over every call sequence on-hand stock plus active allocations is the baseline, SKU by SKU, and neither is negative |
| InventoryLaws.ReleasedOnce | src/mock-inventory-connector.js:276-337 | a released allocation is never touched again |
| InventoryLaws.RemedyReleasesOwnAllocation | src/mock-inventory-connector.js:276-337 | a remedy of an action its key is bound to releases at most one allocation, active until then, of its order and made by its own execution, unless proposals or id texts collide |
| InventoryLaws.ForeignKeyReleasesForeignAllocation | src/mock-inventory-connector.js:276-337 | without that binding whatever a remedy releases was made for another action |
| InventoryWorlds.RailReleasesOwnAllocations | src/mock-inventory-connector.js:276-337 | in every run of rails and service, whoever else calls the service with whatever keys, every remedy a rail asks for releases its own allocation or none, unless proposals or id texts collide, and stock is conserved |
| InventoryLaws.RefusalHidesEffectExactly | src/mock-inventory-connector.js:205-239 | an insufficient-stock refusal has changed the stock exactly when an injected duplicate fits once but not twice |
| Recovery.NormalizationIsIdempotent | src/recovery-preflight.js:304-357 | a normalized trace normalizes to itself |
| Recovery.DrillRoundTrip | src/recovery-preflight.js:431-562 | every emitted bundle verifies under its signer and is current on exactly the non-empty interval from the drill to the derived expiry |
| RecoveryAdapter.MockRefundRecoveryAdapter.Run | src/mock-refund-recovery-adapter.js:93-223 | run() on real connector objects gives, for every matching contract, exactly the trace the drill is meant to give under each drill fault |
| RecoveryAdapter.DrillQualifiesExactly | src/mock-refund-recovery-adapter.js:93-223 | the drill without a fault qualifies as exact, and with each of the four faults it does not qualify, unless two states collide |
| RecoveryAdapter.ObservedState | src/mock-refund-recovery-adapter.js:47-66 | the loop gives the object of the oracle paths and their values, and nothing when one is absent |
| Postconditions.ResolvePath | src/postconditions.js:39-53 | the walk finds exactly what the path reaches through own properties |
| Postconditions.EvaluationIsExact | src/postconditions.js:73-128 | an evaluation is satisfied if and only if every clause holds of what its path reaches |
| Postconditions.MissingIsExact | src/postconditions.js:62-71 | a clause is listed as missing if and only if its path reaches nothing |
| Postconditions.SatisfiedMeansReported | src/postconditions.js:73-128 | satisfied evidence reports every path a clause names |
| Review.ReceiptBundle | src/review.js:5-14 | the receipt projection is made if and only if the input and the projection both pass the review they are given to |
| Review.ProjectionAcceptedExactly | src/review.js:5-14 | the projection of an audit bundle of good integrity is accepted as a receipt if and only if its close time fits its CLOSED event |
| Review.ProjectionPreservesAcceptance | src/review.js:5-14 | whenever an audit bundle verifies with semantics its projection verifies with the same outcome and chain head, projecting again changes nothing, and only forcing semantics on the receipt refuses it |
| Review.ProducerExportsProject | src/review.js:5-14 | for every closed action of a truthful run without a late observation the audit export passes the review, its projection is the receipt export, and both reviews give the same outcome and chain head |
| Review.LifecycleTiming | src/review.js:39-66 | the loop gives the intervals between transitions, the per-state totals, and nothing for a refused bundle |
| Review.TimingTelescopes | src/review.js:39-66 | in every accepted bundle no interval is negative, intervals and totals each add up to the time from first to last event, and every state has one visit |
| JsonInput.ParseUniqueJson | src/json-input.js:5-29 | the one-pass loop computes the scan of the text |
| JsonInput.ValueLeavesStackAlone | src/json-input.js:5-29 | behind every complete value the scanner's stack is as it was, whatever its strings contain |
| JsonInput.ScanFindsDuplicates | src/json-input.js:5-29 | a valid text is accepted if and only if no object in its value has two members of one decoded name and nesting is within the limit |
| NumberText.NumeralTextIsExact | src/canonical.js:119-129 | the text of a finite number, in all of the plain, fractional and exponent forms, determines the number up to the sign of zero, and nothing but that is lost |
| CanonicalText.WriteIsExact | src/canonical.js:119-129 | two values are written alike if and only if they are equal up to the sign of zeros |
| CanonicalText.SignOfZeroIsNotWritten | src/canonical.js:119-129 | a value and the same value with its zeros unsigned are written alike, at any depth |
| Canonical.CanonicalJsonIsExact | src/canonical.js:131-133 | two values have the same canonical text if and only if they are the same up to the order of members and the sign of zero |
| Canonical.CanonicalJsonReadsBack | src/canonical.js:131-133 | reading the canonical text back gives the value up to the order of members and the sign of zero |
| Canonical.CanonIsStable | src/canonical.js:66-68 | sorting a second time changes nothing |
| CanonicalCopy.CopyJson | src/canonical.js:70-108 | the recursive copy over one shared, mutable budget gives the copy the threaded specification gives, and has drawn what it says |
| CanonicalCopy.CopyAcceptsExactly | src/canonical.js:70-108 | a value is copied if and only if its depth, node total and string total are within the limits and no member name is reserved, and exactly the totals are drawn |
| CanonicalCopy.SortingDecidesNothing | src/canonical.js:110-117 | a value is accepted sorted exactly when it is accepted unsorted, and is copied as it is or in canonical form |
| CanonicalCopy.OrderDecidesNothing | src/canonical.js:140-142 | values that mean the same are accepted alike |
| Doubles.RoundingIsMonotone | scripts/release-metadata.js:20-27 | rounding a number to a double never turns an order around |
| Doubles.DifferenceIsRight | scripts/release-metadata.js:20-27 | the sign of a difference of doubles is that of the numbers, unless it is zero or NaN, and NaN exactly when both overflow |
| SemVer.CompareSemVer | scripts/release-metadata.js:30-51 | the method throws on anything but versions and otherwise gives the comparison over doubles, NaN included |
| SemVer.RankIsAntisymmetric | scripts/release-metadata.js:30-51 | over any reading of the numbers, comparing the other way round turns the sign |
| SemVer.RankChains | scripts/release-metadata.js:30-51 | over any reading of the numbers, precedence is transitive and equal versions compare alike with everything |
| SemVer.BoundedVersionsAreRanked | scripts/release-metadata.js:30-51 | without overflow the comparator is precedence over the rounded numbers, hence a total preorder |
| SemVer.ComparisonTurns | scripts/release-metadata.js:30-51 | with overflow the comparator turned around gives the turned sign, and NaN stays NaN |
| SemVer.ComparisonsClimb | scripts/release-metadata.js:30-51 | with overflow or without, greater than greater is greater, and a version that compares equal to another compares like it with everything |
| SemVer.NoAnswerExactly | scripts/release-metadata.js:30-51 | the comparator answers NaN if and only if the versions meet two overflowing numbers in one place with nothing the doubles tell apart before it |
| SemVer.ShortVersionsAreBounded | scripts/release-metadata.js:20-27 | no number of at most 300 digits overflows |
| SemVer.SelfComparisonExactly | scripts/release-metadata.js:30-51 | a version equals itself if and only if none of its numbers overflows |
| SemVer.ComparatorAgreesExactly | scripts/release-metadata.js:30-51 | the comparator gives section 11's precedence if and only if VersionsAgree: no overflowing pair is met before the decision, and the first place the doubles tell apart has the sign of the first place where the versions differ |
| SemVer.SafeVersionsAgree | scripts/release-metadata.js:30-51 | with all numbers up to 2^53 it always does |
| SemVer.NeighboursAreNotTold | scripts/release-metadata.js:20-27 | two prerelease numbers one apart that compare as equal |
| SemVer.PassedOverMajorsTurnTheOrder | scripts/release-metadata.js:30-51 | two finite versions the comparator orders the wrong way round |
| SemVer.HugeVersionIsNotItself | scripts/release-metadata.js:30-51 | a version whose comparison with itself is NaN |
| ReleaseMetadata.ReleasesAreHeadings | scripts/release-metadata.js:57-84 | the parsed releases are exactly the release headings in the order they are written, none lost, repeated or made up |
| ReleaseMetadata.ParseChangelog | scripts/release-metadata.js:57-84 | the loop over the lines walks them as the specification does, the open section finished at the end |
| ReleaseMetadata.NoFindingsOrderExactly | scripts/release-metadata.js:94-159 | without findings, every earlier listed release compares as greater than every later one if and only if no two neighbouring releases meet in overflowing numbers |
| ReleaseMetadata.NoFindingsMeansDescending | scripts/release-metadata.js:94-159 | hence, without findings and without a number that overflows, every earlier listed release is greater than every later one and the package version is the greatest |
| ReleaseMetadata.ShortReleasesOverflowNowhere | scripts/release-metadata.js:94-159 | a changelog whose numbers have at most 300 digits meets no overflow |
| ReleaseMetadata.OverflowHidesARepetition | scripts/release-metadata.js:94-159 | a whole input, changelog lines included, that lists one overflowing version twice in a row and has no findings |

## Left out

- Display identifiers: permit, receipt, reservation and attestation ids are derived from digests and decide nothing; they are not modelled.
- The field-by-field shape checks of src/bundle-validation.js and src/rail-schema.js: datatypes make a field that must exist exist; only ranges and cross-field rules are kept. Unknown state names and malformed event payloads have no representation.
- `trust_hint`, signer metadata, key files, PEM and the algorithms behind digest and signature.
- JavaScript object mechanics in src/canonical.js: proxies, getters, symbols, cycles, prototypes, sparse arrays; numbers that are not finite are refused there before anything this model describes.
- `JSON.parse` and the regular expressions are taken as what they are documented to be; the scanner is proved over every text the grammar derives.
- Which double a text of more than 20 digits becomes is left to the engine by ECMA-262; the model rounds correctly.
- Numbers in postcondition facts are the real values of the finite doubles they are, which compare as those do; a number that is not finite has no representation.
- The evaluation error POSTCONDITION_INVALID is folded into the refusal of semantics.
- Transition details of moves that settle nothing are kept as one digest of a few fields each.
- `observed_at` and the other timestamps are numbers; their text form is not modelled.
- The reservation methods of the inventory service are modelled as values in `InventoryLaws`, like those of the refund processor, not again as methods.
- InventoryWorlds.RailReleasesOwnAllocations: the reservations and the status answers of the service are left open, so it says less about compensation than its refund counterpart.
- RailProgress.NoStranding: a refused append can strand an action by design of the store contract; the claim is about stores that refuse none.
- Markdown rendering, batch and scenario runners, HTTP server, command line, artifact files, demos and trust configuration.
- The text surfaces of a release (README and status mentions) enter `ReleaseMetadata` as booleans.
