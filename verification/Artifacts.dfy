/** The records the rail, the verifier and the recovery drill exchange and sign.

    Closed schemas become datatypes, so a field that the schema requires exists by
    construction. Digests and signatures are functions supplied by a `Crypto` value: nothing
    is assumed about collisions, and whatever needs a sound signature scheme says so. */
module Artifacts {
  import opened RailStates
  import opened JsonValues

  type Digest = string
  type Id = string
  type KeyId = string
  type PublicKey = string
  /** Milliseconds since the epoch. */
  type Time = int
  /** Numbers in facts are the values of finite doubles, which compare as these values do. */
  type Facts = Json<string, real>

  const MAX_SAFE_INTEGER: int := 9007199254740991
  const MAX_DURATION_SECONDS: int := MAX_SAFE_INTEGER / 1000

  datatype Result<+T, +E> = Ok(value: T) | Err(error: E)

  // ----- Proposals -----

  datatype Version = V1 | V2
  datatype Mode = Enforced | Cooperative | Observed
  datatype ActionType = RefundIssue | EmailSend | InventoryAllocate
  datatype Parameters =
    | RefundParameters(amountMinor: int, currency: string)
    | EmailParameters(recipientId: string, subject: string)
    | InventoryParameters(sku: string, quantity: int)
  datatype Operator = EQ | GTE | LTE
  datatype Clause = Clause(path: string, op: Operator, expected: Facts)
  datatype Proposal = Proposal(
    version: Version,
    subjectType: string,
    subjectId: string,
    connector: string,
    resourceType: string,
    resourceId: string,
    parameters: Parameters,
    idempotencyKey: string,
    requestedAt: Time,
    expiresAt: Time,
    mode: Mode,
    postcondition: seq<Clause>,
    evidenceSource: string,
    maxAgeSeconds: int)

  function ActionTypeOf(p: Parameters): ActionType {
    match p
    case RefundParameters(_, _) => RefundIssue
    case EmailParameters(_, _) => EmailSend
    case InventoryParameters(_, _) => InventoryAllocate
  }

  // ----- Recourse, permit, evidence, receipt -----

  datatype RemedyKind = Reverse | Compensate | Escalate
  /** `max_amount_minor` or `max_quantity`; exactly one of them is present. */
  datatype RemedyScope = MaxAmountMinor(amount: int) | MaxQuantity(quantity: int)
  datatype RecourseStatus = StatusActive | StatusExpired | StatusReleased | StatusConsumed | StatusUnknown

  /** recourseScopeField: the scope field the action type uses. */
  predicate ScopeFits(actionType: ActionType, scope: RemedyScope) {
    if actionType == InventoryAllocate then scope.MaxQuantity? else scope.MaxAmountMinor?
  }

  function ScopeLimit(scope: RemedyScope): int {
    match scope
    case MaxAmountMinor(n) => n
    case MaxQuantity(n) => n
  }

  /** The scope covers what the parameters ask for; email actions ask for no amount. */
  predicate ScopeCovers(p: Parameters, scope: RemedyScope) {
    match p
    case RefundParameters(amount, _) => scope.MaxAmountMinor? && scope.amount >= amount
    case InventoryParameters(_, quantity) => scope.MaxQuantity? && scope.quantity >= quantity
    case EmailParameters(_, _) => true
  }

  datatype Signature = Signature(keyId: KeyId, value: string)
  datatype Signed<T> = Signed(body: T, sig: Signature)

  datatype CommitmentBody = CommitmentBody(
    token: string,
    actionDigest: Digest,
    connector: string,
    capability: string,
    kind: RemedyKind,
    expiresAt: Time,
    maxAttempts: int,
    scope: RemedyScope,
    reservedAt: Time,
    active: bool)
  datatype Commitment = Commitment(body: CommitmentBody, sig: Signature)

  datatype ReservationBody = ReservationBody(
    actionDigest: Digest,
    kind: RemedyKind,
    connector: string,
    capability: string,
    capabilityReferenceDigest: Digest,
    expiresAt: Time,
    remedyWindowSeconds: int,
    maxAttempts: int,
    scope: RemedyScope,
    idempotencyKeyDigest: Digest,
    commitment: Commitment,
    reservedAt: Time)
  type Reservation = Signed<ReservationBody>

  datatype PermitBody = PermitBody(
    actionId: Id,
    actionDigest: Digest,
    reservationDigest: Digest,
    mode: Mode,
    bypassPossible: bool,
    issuedAt: Time,
    expiresAt: Time,
    maxUses: int)
  type Permit = Signed<PermitBody>

  datatype Phase = Initial | PostRemedy
  datatype ClauseResult = ClauseResult(clause: Clause, actual: Option<Facts>, satisfied: bool)
  datatype Evaluation = Evaluation(satisfied: bool, clauses: seq<ClauseResult>)
  datatype EvidenceBody = EvidenceBody(
    actionDigest: Digest,
    source: string,
    resourceType: string,
    resourceId: string,
    observedAt: Time,
    facts: Facts,
    evaluation: Evaluation,
    phase: Phase)
  type Evidence = Signed<EvidenceBody>

  datatype ReceiptBody = ReceiptBody(
    version: Version,
    proposalVersion: Option<Version>,
    actionId: Id,
    actionDigest: Digest,
    reservationDigest: Digest,
    commitmentDigest: Digest,
    recourseFinalStatus: RecourseStatus,
    permitDigest: Digest,
    mode: Mode,
    bypassPossible: bool,
    outcome: Outcome,
    postconditionSatisfied: bool,
    evidenceDigests: seq<Digest>,
    chainHead: Digest,
    closedAt: Time)
  type Receipt = Signed<ReceiptBody>

  // ----- Events -----

  /** The `details` a transition digests; only the settlement details are ever recomputed. */
  datatype Details =
    | NoDetails
    | PolicyDetails(policyId: string, policyDigest: Digest)
    | ReservationDetails(reservation: Digest, kind: RemedyKind, capability: string, commitment: Digest)
    | PermitDetails(permit: Digest, mode: Mode, bypassPossible: bool, attestation: Option<Digest>)
    | UseDetails(permit: Digest, useNumber: int)
    | ReferenceDetails(reference: Digest)
    | StatusDetails(status: RecourseStatus)
    | EvidenceDetails(evidence: Digest)
    | AttemptDetails(attempt: int, reservation: Digest)
    | KindDetails(kind: RemedyKind)
    | ResultDetails(result: string)
    | OutcomeDetails(outcome: Outcome)

  datatype Payload =
    | ActionProposed(actionDigest: Digest, actionType: ActionType, mode: Mode)
    | StateTransition(from: State, to: State, reason: string, details: Digest)
    | EvidenceAccepted(evidence: Digest, satisfied: bool)
    | RemedyEvidenceAccepted(evidence: Digest, satisfied: bool)
    | EvidenceRejected(code: string)
    | RemedyEvidenceRejected(code: string)
    | RecourseFinalized(commitment: Digest, status: RecourseStatus, reason: string)
    | RecourseStatusRecorded(commitment: Digest, status: RecourseStatus, reason: string)
    | RecoveryPreflightAccepted(attestation: Digest, coverage: Digest, expiresAt: Time)
    | OtherEvent(eventType: string)

  datatype EventBody = EventBody(
    actionId: Id,
    sequence: int,
    previousHash: Option<Digest>,
    actor: string,
    recordedAt: Time,
    payload: Payload)
  datatype Event = Event(signed: Signed<EventBody>, hash: Digest) {
    function Payload(): Payload { signed.body.payload }
    function RecordedAt(): Time { signed.body.recordedAt }
    function ActionId(): Id { signed.body.actionId }
  }

  // ----- Recovery contracts and drills -----

  datatype RecoveryClass = Exact | Compensation | Containment | Escalation
  datatype Fidelity = Synthetic | Staging | ProductionLike
  datatype Qualification = QualifiedExact | ReviewCompensated | NotQualified | NotTestableLocal
  datatype Operation = Operation(kind: string, version: string, parameters: Facts)
  datatype CoverageScope = CoverageScope(
    connector: string,
    resourceType: string,
    mode: Mode,
    parametersDigest: Digest,
    postconditionDigest: Digest,
    evidencePlanDigest: Digest)
  datatype RecourseBinding = RecourseBinding(
    kind: RemedyKind,
    capability: string,
    implementationDigest: Digest,
    reservationDigest: Digest,
    capabilityReferenceDigest: Digest,
    commitmentDigest: Digest)
  datatype RecourseRequest = RecourseRequest(
    actionDigest: Digest,
    kind: RemedyKind,
    connector: string,
    capability: string,
    capabilityReference: string,
    expiresAt: Time,
    remedyWindowSeconds: int,
    maxAttempts: int,
    scope: RemedyScope,
    idempotencyKey: string)
  datatype Fixture = Fixture(
    adapter: string,
    adapterVersion: string,
    adapterDigest: Digest,
    checkpointDigest: Digest,
    fidelity: Fidelity,
    proposal: Proposal,
    request: RecourseRequest)
  datatype Contract = Contract(
    contractId: string,
    actionDigest: Digest,
    actionClass: ActionType,
    scope: CoverageScope,
    recourse: RecourseBinding,
    recoveryClass: RecoveryClass,
    fixture: Fixture,
    fault: Operation,
    procedure: Operation,
    oracle: Operation,
    issuedAt: Time,
    expiresAt: Time,
    maxAgeSeconds: int)
  /** recoveryCoverage: the part of a contract that says what a drill covers. */
  datatype Coverage = Coverage(
    actionDigest: Digest,
    actionClass: ActionType,
    recourse: RecourseBinding,
    scope: CoverageScope,
    adapter: string,
    adapterVersion: string,
    adapterDigest: Digest,
    checkpointDigest: Digest)
  datatype Trace = Trace(
    adapterId: string,
    adapterVersion: string,
    adapterDigest: Digest,
    localTestable: bool,
    checkpointReferenceDigest: Option<Digest>,
    baselineState: Option<Facts>,
    checkpointState: Option<Facts>,
    damagedState: Option<Facts>,
    recoveredState: Option<Facts>,
    faultObserved: bool,
    recoveryAttempted: bool,
    oracleSatisfied: bool,
    notes: seq<string>)
  datatype AttestationCore = AttestationCore(
    contractDigest: Digest,
    coverageDigest: Digest,
    adapterDigest: Digest,
    traceDigest: Digest,
    fixtureDigest: Digest,
    checkpointDigest: Digest,
    faultDigest: Digest,
    damagedStateDigest: Option<Digest>,
    procedureDigest: Digest,
    oracleDigest: Digest,
    recoveredStateDigest: Option<Digest>,
    recoveryClass: RecoveryClass,
    fidelity: Fidelity,
    qualification: Qualification,
    drilledAt: Time,
    expiresAt: Time)
  datatype AttestationBody = AttestationBody(core: AttestationCore, attestationId: string)
  type Attestation = Signed<AttestationBody>
  datatype DrillBundle = DrillBundle(contract: Contract, trace: Trace, attestation: Attestation)

  // ----- Digests and signatures -----

  datatype Body =
    | EventB(event: EventBody)
    | CommitmentB(commitment: CommitmentBody)
    | ReservationB(reservation: ReservationBody)
    | PermitB(permit: PermitBody)
    | EvidenceB(evidence: EvidenceBody)
    | ReceiptB(receipt: ReceiptBody)
    | AttestationB(attestation: AttestationBody)

  datatype Artifact =
    | SignedA(body: Body, sig: Signature)
    | ProposalA(proposal: Proposal)
    | ParametersA(parameters: Parameters)
    | PostconditionA(postcondition: seq<Clause>)
    | EvidencePlanA(source: string, maxAgeSeconds: int)
    | EvaluationA(evaluation: Evaluation)
    | DetailsA(details: Details)
    | TextA(text: string)
    | FactsA(facts: Facts)
    | ContractA(contract: Contract)
    | CoverageA(coverage: Coverage)
    | FixtureA(fixture: Fixture)
    | OperationA(operation: Operation)
    | TraceA(trace: Trace)
    | CoreA(core: AttestationCore)
    | TokenA(actionDigest: Digest, capability: string, expiresAt: Time, scope: RemedyScope)

  /** The cryptographic environment. `representable` says which values fit the canonical
      JSON limits; digesting or signing anything else throws. */
  datatype Crypto = Crypto(
    digest: Artifact -> Digest,
    sign: (PublicKey, Body) -> string,
    check: (PublicKey, Body, string) -> bool,
    representable: Artifact -> bool)

  /** What a key pair signs verifies under its public half. */
  ghost predicate SoundSignatures(c: Crypto) {
    forall k, b :: c.check(k, b, c.sign(k, b))
  }

  datatype Signer = Signer(kid: KeyId, key: PublicKey)

  function MakeSignature(c: Crypto, body: Body, s: Signer): Signature {
    Signature(s.kid, c.sign(s.key, body))
  }

  datatype SignatureCheck = SignatureGood | UntrustedKey | SignatureInvalid

  /** verifyArtifact: the key must be explicitly trusted, then the value must check. */
  function CheckSignature(c: Crypto, body: Body, sig: Signature, keys: map<KeyId, PublicKey>): SignatureCheck {
    if sig.keyId !in keys then UntrustedKey
    else if c.check(keys[sig.keyId], body, sig.value) then SignatureGood
    else SignatureInvalid
  }

  lemma OwnSignatureChecks(c: Crypto, body: Body, s: Signer, keys: map<KeyId, PublicKey>)
    requires SoundSignatures(c)
    requires s.kid in keys && keys[s.kid] == s.key
    ensures CheckSignature(c, body, MakeSignature(c, body, s), keys) == SignatureGood
  {
  }

  function DigestProposal(c: Crypto, p: Proposal): Digest { c.digest(ProposalA(p)) }
  function DigestCommitment(c: Crypto, x: Commitment): Digest { c.digest(SignedA(CommitmentB(x.body), x.sig)) }
  function DigestReservation(c: Crypto, x: Reservation): Digest { c.digest(SignedA(ReservationB(x.body), x.sig)) }
  function DigestPermit(c: Crypto, x: Permit): Digest { c.digest(SignedA(PermitB(x.body), x.sig)) }
  function DigestEvidence(c: Crypto, x: Evidence): Digest { c.digest(SignedA(EvidenceB(x.body), x.sig)) }
  function DigestSignedEvent(c: Crypto, x: Signed<EventBody>): Digest { c.digest(SignedA(EventB(x.body), x.sig)) }
  function DigestAttestation(c: Crypto, x: Attestation): Digest { c.digest(SignedA(AttestationB(x.body), x.sig)) }
  function DigestDetails(c: Crypto, d: Details): Digest { c.digest(DetailsA(d)) }
  function DigestText(c: Crypto, t: string): Digest { c.digest(TextA(t)) }

  function EvidenceDigests(c: Crypto, es: seq<Evidence>): (ds: seq<Digest>)
    ensures |ds| == |es| && forall i :: 0 <= i < |es| ==> ds[i] == DigestEvidence(c, es[i])
  {
    seq(|es|, i requires 0 <= i < |es| => DigestEvidence(c, es[i]))
  }

  /** The first 20 characters, as `slice(0, 20)` takes them. */
  function Prefix20(d: Digest): string { if |d| <= 20 then d else d[..20] }
}
