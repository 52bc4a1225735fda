/** One action of the rail as a value, and every lifecycle call as a plan of atomic steps
    (src/rail-class.js).

    A step is one durable append together with the record mutation that follows it, or one
    connector call, or the arrival of one awaited reply. An async method is split at its
    `await`: a start segment plans the steps up to the call, a resume segment plans the steps
    after the reply. A store that refuses an append cuts a plan short; nothing else does. */
module RailModel {
  import opened RailStates
  import opened Artifacts
  import opened Postconditions
  import opened EventStore
  import opened Verify
  import opened Recovery

  datatype Config = Config(
    crypto: Crypto,
    signer: Signer,
    connectorKeys: map<KeyId, PublicKey>,
    recoveryKeys: map<KeyId, PublicKey>,
    requirePreflight: bool)
  {
    function Keys(): map<KeyId, PublicKey> { map[signer.kid := signer.key] }
  }

  datatype Authorization = Authorization(
    allow: bool, policyId: string, policyDigest: Digest, requirePreflight: bool, decidedAt: Time)

  datatype Record = Record(
    actionId: Id,
    actionDigest: Digest,
    proposal: Proposal,
    state: State,
    permitUses: nat,
    remedyAttempts: nat,
    evidence: seq<Evidence>,
    receipt: Option<Receipt>,
    authorization: Option<Authorization>,
    reservation: Option<Reservation>,
    remedyKey: string,
    permit: Option<Permit>,
    preflight: Option<DrillBundle>,
    recourseRecorded: Option<RecourseStatus>)

  /** What a suspended segment is waiting for. */
  datatype Token = ExecuteReply | StatusReply | ObserveReply | RemediateReply | RemedyStatusReply | RemedyObserveReply

  /** What the rail knew at the moment it called connector.execute. */
  datatype ExecuteCall = ExecuteCall(
    at: Time, proposal: Proposal, key: string, candidate: Proposal,
    permit: Permit, reservation: Reservation, reported: RecourseStatus,
    authorization: Authorization, preflight: Option<DrillBundle>, measured: Option<Digest>)

  datatype RemediateCall = RemediateCall(at: Time, proposal: Proposal, reservation: Reservation, key: string)

  datatype View = View(
    rec: Record,
    log: seq<Event>,
    pending: multiset<Token>,
    executeCalls: seq<ExecuteCall>,
    remediateCalls: seq<RemediateCall>,
    clock: Time)

  // ----- Steps -----

  datatype Step =
    | Move(to: State, reason: string, details: Details)
    | Authorized(authorization: Authorization)
    | Reserved(reservation: Reservation, remedyKey: string)
    | AcceptedPreflight(bundle: DrillBundle, verification: DrillVerification)
    | Permitted(permit: Permit, attestation: Option<Digest>)
    | AcceptedEvidence(evidence: Evidence)
    | RejectedEvidence(phase: Phase, code: string)
    | RecordedRecourse(status: RecourseStatus, reason: string)
    | Settles(outcome: Outcome)
    | CallsExecute(execution: ExecuteCall)
    | CallsRemediate(remedy: RemediateCall)
    | Calls(token: Token)

  /** The state a step moves to, if it moves. */
  function Target(step: Step): Option<State> {
    match step
    case Move(to, _, _) => Some(to)
    case Authorized(a) => Some(if a.allow then AUTHORIZED else DENIED)
    case Reserved(_, _) => Some(RECOURSE_RESERVED)
    case Permitted(_, _) => Some(PERMITTED)
    case Settles(_) => Some(CLOSED)
    case _ => None
  }

  function Moved(c: Crypto, from: State, to: State, reason: string, details: Details): Payload {
    StateTransition(from, to, reason, DigestDetails(c, details))
  }

  function CommitmentDigestOf(c: Crypto, rec: Record): Digest {
    match rec.reservation case Some(r) => DigestCommitment(c, r.body.commitment) case None => ""
  }

  function RecoursePayload(c: Crypto, rec: Record, status: RecourseStatus, reason: string): Payload {
    if status == StatusActive then RecourseStatusRecorded(CommitmentDigestOf(c, rec), status, reason)
    else RecourseFinalized(CommitmentDigestOf(c, rec), status, reason)
  }

  /** The event a step appends, with its actor; calls and replies append none. */
  function StepEvent(c: Crypto, rec: Record, step: Step): Option<(string, Payload)> {
    match step
    case Move(to, reason, details) => Some(("rail", Moved(c, rec.state, to, reason, details)))
    case Authorized(a) =>
      Some(("rail", Moved(c, rec.state, if a.allow then AUTHORIZED else DENIED,
        if a.allow then "POLICY_ALLOWED" else "POLICY_DENIED", PolicyDetails(a.policyId, a.policyDigest))))
    case Reserved(r, _) =>
      Some(("rail", Moved(c, rec.state, RECOURSE_RESERVED, "RECOURSE_VERIFIED",
        ReservationDetails(DigestReservation(c, r), r.body.kind, r.body.capability,
          DigestCommitment(c, r.body.commitment)))))
    case AcceptedPreflight(_, v) =>
      Some(("recovery-preflight", RecoveryPreflightAccepted(v.attestationDigest, v.coverageDigest, v.expiresAt)))
    case Permitted(p, attestation) =>
      Some(("rail", Moved(c, rec.state, PERMITTED, "PERMIT_ISSUED",
        PermitDetails(DigestPermit(c, p), p.body.mode, p.body.bypassPossible, attestation))))
    case AcceptedEvidence(e) =>
      Some(("rail", if e.body.phase == PostRemedy
        then RemedyEvidenceAccepted(DigestEvidence(c, e), e.body.evaluation.satisfied)
        else EvidenceAccepted(DigestEvidence(c, e), e.body.evaluation.satisfied)))
    case RejectedEvidence(phase, code) =>
      Some(("rail", if phase == PostRemedy then RemedyEvidenceRejected(code) else EvidenceRejected(code)))
    case RecordedRecourse(status, reason) => Some(("connector", RecoursePayload(c, rec, status, reason)))
    case Settles(o) => Some(("rail", Moved(c, rec.state, CLOSED, SettlementReason(o), OutcomeDetails(o))))
    case _ => None
  }

  /** The mutation that follows the append; `log` already ends in the appended event. */
  function Mutate(cfg: Config, rec: Record, log: seq<Event>, step: Step): Record {
    match step
    case Move(to, _, _) =>
      rec.(state := to,
           permitUses := if to == EXECUTING then rec.permitUses + 1 else rec.permitUses,
           remedyAttempts := if to == REMEDIATING then rec.remedyAttempts + 1 else rec.remedyAttempts)
    case Authorized(a) => rec.(state := if a.allow then AUTHORIZED else DENIED, authorization := Some(a))
    case Reserved(r, key) => rec.(state := RECOURSE_RESERVED, reservation := Some(r), remedyKey := key)
    case AcceptedPreflight(b, _) => rec.(preflight := Some(b))
    case Permitted(p, _) => rec.(state := PERMITTED, permit := Some(p))
    case AcceptedEvidence(e) => rec.(evidence := rec.evidence + [e])
    case RecordedRecourse(status, _) => rec.(recourseRecorded := Some(status))
    case Settles(o) =>
      var closed := rec.(state := CLOSED);
      if CanSettle(closed, log) then closed.(receipt := Some(MakeReceipt(cfg, closed, log, o))) else closed
    case _ => rec
  }

  predicate CanSettle(rec: Record, log: seq<Event>) {
    rec.reservation.Some? && rec.permit.Some? && rec.recourseRecorded.Some? && |log| > 0
  }

  /** The receipt close() signs behind the CLOSED event. */
  function MakeReceipt(cfg: Config, rec: Record, log: seq<Event>, outcome: Outcome): Receipt
    requires CanSettle(rec, log)
  {
    var c := cfg.crypto;
    var closed := log[|log| - 1];
    var body := ReceiptBody(
      rec.proposal.version,
      if rec.proposal.version == V2 then Some(V2) else None,
      rec.actionId,
      rec.actionDigest,
      DigestReservation(c, rec.reservation.value),
      DigestCommitment(c, rec.reservation.value.body.commitment),
      rec.recourseRecorded.value,
      DigestPermit(c, rec.permit.value),
      rec.proposal.mode,
      rec.proposal.mode != Enforced,
      outcome,
      outcome != Disputed,
      EvidenceDigests(c, rec.evidence),
      closed.hash,
      closed.RecordedAt());
    Signed(body, MakeSignature(c, ReceiptB(body), cfg.signer))
  }

  function Apply(cfg: Config, v: View, step: Step): View {
    match StepEvent(cfg.crypto, v.rec, step)
    case Some((actor, payload)) =>
      var log := v.log + [NextEvent(cfg.crypto, cfg.signer, v.log, v.rec.actionId, actor, v.clock, payload)];
      v.(log := log, rec := Mutate(cfg, v.rec, log, step))
    case None =>
      match step
      case CallsExecute(call) => v.(executeCalls := v.executeCalls + [call],
        pending := v.pending + multiset{ExecuteReply})
      case CallsRemediate(call) => v.(remediateCalls := v.remediateCalls + [call],
        pending := v.pending + multiset{RemediateReply})
      case Calls(token) => v.(pending := v.pending + multiset{token})
      case _ => v
  }

  function ApplyAll(cfg: Config, v: View, steps: seq<Step>): View {
    if steps == [] then v
    else Apply(cfg, ApplyAll(cfg, v, steps[..|steps| - 1]), steps[|steps| - 1])
  }

  lemma ApplyOne(cfg: Config, v: View, steps: seq<Step>, step: Step)
    ensures ApplyAll(cfg, v, steps + [step]) == Apply(cfg, ApplyAll(cfg, v, steps), step)
  {
    assert (steps + [step])[..|steps|] == steps;
  }

  lemma {:induction false} ApplyConcat(cfg: Config, v: View, pre: seq<Step>, post: seq<Step>)
    ensures ApplyAll(cfg, v, pre + post) == ApplyAll(cfg, ApplyAll(cfg, v, pre), post)
    decreases |post|
  {
    hide Apply;
    if post == [] {
      assert pre + post == pre;
    } else {
      var init := post[..|post| - 1];
      var both := pre + post;
      ApplyConcat(cfg, v, pre, init);
      assert both[..|both| - 1] == pre + init && both[|both| - 1] == post[|post| - 1];
      assert ApplyAll(cfg, v, both) == Apply(cfg, ApplyAll(cfg, v, pre + init), post[|post| - 1]);
    }
  }

  // ----- What the environment answers -----

  datatype ErrorKind = IdempotencyConflict | InventoryInsufficient | OtherFailure

  /** A malformed answer counts as a throw: the rail's own checks turn it into one. */
  datatype StatusAnswer = StatusThrew | StatusReport(token: string, status: RecourseStatus)

  datatype ReplyStatus = Executed | NoEffect | Unresolved | Remediated | Failed | NoChange | Unsupported
  datatype ConnectorReply =
    | Threw(error: ErrorKind)
    | Replied(status: ReplyStatus, key: string, externalId: Option<string>)

  datatype Observation =
    | ObserveThrew
    | EvidenceMalformed
    | Reported(actionDigest: Digest, source: string, resourceType: string, resourceId: string,
               facts: Facts, observedAt: Option<Time>)

  datatype Capabilities = Capabilities(connector: string, exclusiveCustody: bool, remedies: seq<string>)

  /** The synchronous connector answers one segment may ask for: the status read by the method
      itself, and the release and status read inside finalizeRecourse. */
  datatype Answers = Answers(probe: StatusAnswer, releaseOk: bool, final: StatusAnswer)

  datatype Decision = Decision(allow: bool, policyId: string, policyDigest: Digest, requirePreflight: bool)

  // ----- Checks -----

  /** assertConnectorResult: bound to the requested key, with a supported status. */
  function AcceptedStatus(reply: ConnectorReply, key: string, allowed: set<ReplyStatus>): Option<ReplyStatus> {
    if reply.Replied? && reply.key == key && reply.status in allowed then Some(reply.status) else None
  }

  const EXECUTION_RESULTS: set<ReplyStatus> := {Executed}
  const EXECUTION_STATUSES: set<ReplyStatus> := {Executed, NoEffect, Unresolved}
  const REMEDY_RESULTS: set<ReplyStatus> := {Remediated, Failed, NoEffect, NoChange}
  const REMEDY_STATUSES: set<ReplyStatus> := {Remediated, Failed, NoEffect, NoChange, Unresolved}

  function ErrorCode(e: ErrorKind): string {
    match e
    case IdempotencyConflict => "IDEMPOTENCY_CONFLICT"
    case InventoryInsufficient => "INVENTORY_INSUFFICIENT"
    case OtherFailure => "OTHER"
  }

  /** readRecourseStatus: the answer must be about the reserved token. */
  function ReadStatus(rec: Record, answer: StatusAnswer): Option<RecourseStatus> {
    if rec.reservation.Some? && answer.StatusReport? && answer.token == rec.reservation.value.body.commitment.body.token
    then Some(answer.status) else None
  }

  predicate ProposalValid(p: Proposal, now: Time) {
    && ProposalShape(p)
    && PostconditionValid(p.postcondition)
    && p.expiresAt > p.requestedAt
    && p.expiresAt > now
  }

  /** validateReservation. */
  predicate RequestValid(rec: Record, r: RecourseRequest, caps: Option<Capabilities>, now: Time) {
    && ScopeShape(ActionTypeOf(rec.proposal.parameters), r.scope)
    && r.actionDigest == rec.actionDigest
    && r.connector == rec.proposal.connector
    && caps.Some?
    && caps.value.connector == r.connector
    && r.capability in caps.value.remedies
    && 1 <= r.maxAttempts <= MAX_SAFE_INTEGER
    && r.capabilityReference != ""
    && 0 <= r.remedyWindowSeconds <= MAX_DURATION_SECONDS
    && r.idempotencyKey != ""
    && r.expiresAt > now
    && r.expiresAt >= rec.proposal.expiresAt + r.remedyWindowSeconds * 1000
    && ScopeCovers(rec.proposal.parameters, r.scope)
  }

  /** validateConnectorCommitment. */
  predicate CommitmentMatches(r: RecourseRequest, m: CommitmentBody) {
    && m.active
    && m.token != ""
    && m.actionDigest == r.actionDigest
    && m.connector == r.connector
    && m.capability == r.capability
    && m.kind == r.kind
    && m.expiresAt == r.expiresAt
    && m.maxAttempts == r.maxAttempts
    && m.scope == r.scope
  }

  function MakeReservation(cfg: Config, r: RecourseRequest, m: Commitment, now: Time): Reservation {
    var body := ReservationBody(
      r.actionDigest, r.kind, r.connector, r.capability, DigestText(cfg.crypto, r.capabilityReference), r.expiresAt,
      r.remedyWindowSeconds, r.maxAttempts, r.scope, DigestText(cfg.crypto, r.idempotencyKey), m, now);
    Signed(body, MakeSignature(cfg.crypto, ReservationB(body), cfg.signer))
  }

  function MakePermit(cfg: Config, rec: Record, reservation: Reservation, now: Time): Permit {
    var body := PermitBody(
      rec.actionId, rec.actionDigest, DigestReservation(cfg.crypto, reservation), rec.proposal.mode,
      rec.proposal.mode != Enforced, now, rec.proposal.expiresAt, 1);
    Signed(body, MakeSignature(cfg.crypto, PermitB(body), cfg.signer))
  }

  /** assertRecoveryBinding: the contract names exactly this reservation, this commitment and
      the implementation measured now. */
  predicate RecoveryBound(cfg: Config, reservation: Reservation, k: Contract, measured: Option<Digest>) {
    var c := cfg.crypto;
    && CheckSignature(c, ReservationB(reservation.body), reservation.sig, cfg.Keys()) == SignatureGood
    && CheckSignature(c, CommitmentB(reservation.body.commitment.body), reservation.body.commitment.sig,
         cfg.connectorKeys) == SignatureGood
    && k.recourse.kind == reservation.body.kind
    && k.recourse.capability == reservation.body.capability
    && k.recourse.reservationDigest == DigestReservation(c, reservation)
    && k.recourse.capabilityReferenceDigest == reservation.body.capabilityReferenceDigest
    && k.recourse.commitmentDigest == DigestCommitment(c, reservation.body.commitment)
    && measured == Some(k.recourse.implementationDigest)
  }

  /** The coverage check of acceptRecoveryQualification. */
  predicate CoversAction(c: Crypto, rec: Record, k: Contract) {
    var p := rec.proposal;
    && k.actionDigest == rec.actionDigest
    && k.actionClass == ActionTypeOf(p.parameters)
    && k.scope.connector == p.connector
    && k.scope.resourceType == p.resourceType
    && k.scope.mode == p.mode
    && k.scope.parametersDigest == c.digest(ParametersA(p.parameters))
    && k.scope.postconditionDigest == c.digest(PostconditionA(p.postcondition))
    && k.scope.evidencePlanDigest == c.digest(EvidencePlanA(p.evidenceSource, p.maxAgeSeconds))
  }

  /** assertAcceptedRecoveryPreflight for an accepted bundle; `now` is given when the drill
      must still be current. */
  predicate PreflightHolds(cfg: Config, reservation: Reservation, b: DrillBundle, now: Option<Time>,
      measured: Option<Digest>) {
    var r := VerifyPreflight(cfg.crypto, b, cfg.recoveryKeys, now);
    r.Ok? && r.value.qualification == QualifiedExact && RecoveryBound(cfg, reservation, b.contract, measured)
  }

  // ----- Evidence -----

  datatype Assessment = Accept(evidence: Evidence) | RejectAs(code: string) | Unavailable

  function SignEvidence(cfg: Config, body: EvidenceBody): Evidence {
    Signed(body, MakeSignature(cfg.crypto, EvidenceB(body), cfg.signer))
  }

  /** validateEvidence, then acceptEvidence. A code that starts with EVIDENCE_ is a rejection
      of the evidence; any other failure means it could not be obtained. */
  function Assess(cfg: Config, rec: Record, now: Time, o: Observation, phase: Phase): Assessment {
    match o
    case ObserveThrew => Unavailable
    case EvidenceMalformed => RejectAs("EVIDENCE_SCHEMA_INVALID")
    case Reported(actionDigest, source, resourceType, resourceId, facts, observedAt) =>
      var p := rec.proposal;
      if actionDigest != rec.actionDigest then RejectAs("EVIDENCE_ACTION_MISMATCH")
      else if source != p.evidenceSource then RejectAs("EVIDENCE_SOURCE_UNTRUSTED")
      else if resourceType != p.resourceType || resourceId != p.resourceId then RejectAs("EVIDENCE_RESOURCE_MISMATCH")
      else if !facts.Obj? then RejectAs("EVIDENCE_SCHEMA_INVALID")
      else if !cfg.crypto.representable(FactsA(facts)) then Unavailable
      else if Missing(p.postcondition, facts) != [] then RejectAs("EVIDENCE_FACT_MISSING")
      else if observedAt == None then RejectAs("EVIDENCE_SCHEMA_INVALID")
      else if now - observedAt.value < 0 then RejectAs("EVIDENCE_FROM_FUTURE")
      else if now - observedAt.value > p.maxAgeSeconds * 1000 then RejectAs("EVIDENCE_STALE")
      else
        var body := EvidenceBody(actionDigest, source, resourceType, resourceId, observedAt.value, facts,
                                 Evaluate(p.postcondition, facts), phase);
        if !cfg.crypto.representable(SignedA(EvidenceB(body), MakeSignature(cfg.crypto, EvidenceB(body), cfg.signer)))
        then RejectAs("EVIDENCE_UNREPRESENTABLE")
        else Accept(SignEvidence(cfg, body))
  }

  // ----- Plans -----

  /** transition() followed by `rest`; an illegal transition throws and ends the plan. */
  function MoveThen(v: View, to: State, reason: string, details: Details, rest: seq<Step>): seq<Step> {
    if Allowed(v.rec.state, to) then [Move(to, reason, details)] + rest else []
  }

  datatype Finalized = NoReservation | FinalStatus(status: RecourseStatus) | FinalizeThrew

  function FinalizeResult(v: View, release: bool, a: Answers): Finalized {
    if v.rec.reservation.None? then NoReservation
    else if v.rec.recourseRecorded.Some? then FinalStatus(v.rec.recourseRecorded.value)
    else if release && !a.releaseOk then FinalizeThrew
    else match ReadStatus(v.rec, a.final)
      case None => FinalizeThrew
      case Some(s) => FinalStatus(s)
  }

  function FinalizePlan(v: View, release: bool, reason: string, a: Answers): seq<Step> {
    if FinalizeResult(v, release, a).FinalStatus? && v.rec.recourseRecorded.None?
    then [RecordedRecourse(FinalizeResult(v, release, a).status, reason)] else []
  }

  /** close(): finalize, refuse an unknown final status, settle. */
  function ClosePlan(v: View, a: Answers): seq<Step> {
    match OutcomeOf(v.rec.state)
    case None => []
    case Some(o) =>
      var final := FinalizeResult(v, o != Disputed, a);
      FinalizePlan(v, o != Disputed, SettlementReason(o), a)
      + if final.FinalStatus? && final.status != StatusUnknown then [Settles(o)] else []
  }

  function MoveAndClose(cfg: Config, v: View, to: State, reason: string, details: Details, a: Answers): seq<Step> {
    var move := Move(to, reason, details);
    MoveThen(v, to, reason, details, ClosePlan(Apply(cfg, v, move), a))
  }

  function MoveAndFinalize(cfg: Config, v: View, to: State, reason: string, details: Details, a: Answers): seq<Step> {
    var move := Move(to, reason, details);
    MoveThen(v, to, reason, details, FinalizePlan(Apply(cfg, v, move), true, reason, a))
  }

  function PlanAuthorize(cfg: Config, v: View, d: Decision): seq<Step> {
    if v.rec.state != PROPOSED then []
    else [Authorized(Authorization(d.allow, d.policyId, d.policyDigest, cfg.requirePreflight || d.requirePreflight,
      v.clock))]
  }

  function PlanReserve(cfg: Config, v: View, r: RecourseRequest, caps: Option<Capabilities>,
      m: Option<Commitment>): seq<Step> {
    if v.rec.state != AUTHORIZED || v.rec.proposal.mode == Observed || !RequestValid(v.rec, r, caps, v.clock) then []
    else if m.None? || CheckSignature(cfg.crypto, CommitmentB(m.value.body), m.value.sig,
      cfg.connectorKeys) != SignatureGood
      || !CommitmentMatches(r, m.value.body) then []
    else [Reserved(MakeReservation(cfg, r, m.value, v.clock), r.idempotencyKey)]
  }

  function PlanAcceptPreflight(cfg: Config, v: View, b: DrillBundle, measured: Option<Digest>): seq<Step> {
    if v.rec.state != RECOURSE_RESERVED || v.rec.reservation.None? then []
    else match VerifyPreflight(cfg.crypto, b, cfg.recoveryKeys, Some(v.clock))
      case Err(_) => []
      case Ok(verification) =>
        if verification.qualification != QualifiedExact || !CoversAction(cfg.crypto, v.rec, b.contract)
           || !RecoveryBound(cfg, v.rec.reservation.value, b.contract, measured) then []
        else [AcceptedPreflight(b, verification)]
  }

  /** The drill a permit event names: the accepted one, when policy requires one. */
  function PermittedAttestation(c: Crypto, rec: Record): Option<Digest> {
    if rec.authorization.Some? && rec.authorization.value.requirePreflight && rec.preflight.Some?
    then Some(DigestAttestation(c, rec.preflight.value.attestation)) else None
  }

  function PlanIssuePermit(cfg: Config, v: View, caps: Option<Capabilities>, a: Answers,
      measured: Option<Digest>): seq<Step> {
    if v.rec.state != RECOURSE_RESERVED || v.rec.reservation.None? || v.rec.authorization.None? then []
    else
      var reservation := v.rec.reservation.value;
      if v.rec.proposal.expiresAt <= v.clock then MoveAndFinalize(cfg, v, EXPIRED, "ACTION_EXPIRED", NoDetails, a)
      else if reservation.body.expiresAt <= v.clock
        then MoveAndFinalize(cfg, v, EXPIRED, "RECOURSE_EXPIRED", NoDetails, a)
      else if caps.None? || (v.rec.proposal.mode == Enforced && !caps.value.exclusiveCustody) then []
      else match ReadStatus(v.rec, a.probe)
        case None => []
        case Some(status) =>
          if status != StatusActive then
            MoveAndFinalize(cfg, v, REVOKED, "CONNECTOR_RECOURSE_NOT_ACTIVE", StatusDetails(status), a)
          else if v.rec.authorization.value.requirePreflight
            && (v.rec.preflight.None? || !PreflightHolds(cfg, reservation, v.rec.preflight.value, Some(v.clock),
                 measured)) then []
          else
            [Permitted(MakePermit(cfg, v.rec, reservation, v.clock), PermittedAttestation(cfg.crypto, v.rec))]
  }

  function PlanExecute(cfg: Config, v: View, override: Option<Proposal>, a: Answers,
      measured: Option<Digest>): seq<Step> {
    if v.rec.permitUses != 0 || v.rec.state != PERMITTED || v.rec.permit.None? || v.rec.reservation.None?
      || v.rec.authorization.None? then []
    else
      var permit := v.rec.permit.value;
      var reservation := v.rec.reservation.value;
      var candidate := if override.Some? then override.value else v.rec.proposal;
      if permit.body.expiresAt <= v.clock then MoveAndFinalize(cfg, v, EXPIRED, "PERMIT_EXPIRED", NoDetails, a)
      else if reservation.body.expiresAt <= v.clock
        then MoveAndFinalize(cfg, v, EXPIRED, "RECOURSE_EXPIRED", NoDetails, a)
      else if CheckSignature(cfg.crypto, PermitB(permit.body), permit.sig, cfg.Keys()) != SignatureGood then []
      else if v.rec.preflight.Some? && !PreflightHolds(cfg, reservation, v.rec.preflight.value, Some(v.clock), measured)
        then []
      else if DigestProposal(cfg.crypto, candidate) != v.rec.actionDigest then []
      else PlanConsume(cfg, v, candidate, a, measured)
  }

  /** The end of execute()'s first segment: the recourse must still be active, then the permit
      is used up and the connector is called. */
  function PlanConsume(cfg: Config, v: View, candidate: Proposal, a: Answers, measured: Option<Digest>): seq<Step>
    requires v.rec.permit.Some? && v.rec.reservation.Some? && v.rec.authorization.Some?
  {
    var permit := v.rec.permit.value;
    match ReadStatus(v.rec, a.probe)
    case None => []
    case Some(status) =>
      if status != StatusActive then
        MoveAndFinalize(cfg, v, REVOKED, "CONNECTOR_RECOURSE_NOT_ACTIVE", StatusDetails(status), a)
      else
        [Move(EXECUTING, "PERMIT_CONSUMED", UseDetails(DigestPermit(cfg.crypto, permit), v.rec.permitUses + 1)),
         CallsExecute(ExecuteCall(v.clock, v.rec.proposal, v.rec.proposal.idempotencyKey, candidate, permit,
           v.rec.reservation.value, status, v.rec.authorization.value, v.rec.preflight, measured))]
  }

  function KeyReference(c: Crypto, rec: Record): Details {
    ReferenceDetails(DigestText(c, rec.proposal.idempotencyKey))
  }

  function ReplyReference(c: Crypto, rec: Record, reply: ConnectorReply): Details {
    if reply.Replied? && reply.externalId.Some? then ReferenceDetails(DigestText(c, reply.externalId.value))
      else KeyReference(c, rec)
  }

  /** The catch block of execute(). */
  function PlanExecuteFailure(cfg: Config, v: View, e: ErrorKind, a: Answers): seq<Step> {
    if e != OtherFailure then MoveAndFinalize(cfg, v, FAILED, ErrorCode(e), KeyReference(cfg.crypto, v.rec), a)
    else MoveThen(v, UNKNOWN, "EXECUTION_AMBIGUOUS", KeyReference(cfg.crypto, v.rec), [])
  }

  /** execute() after its await. The append of EXECUTED stands inside the try block, so a store
      that refuses it with error `refusal` lands in the catch block as well. */
  function PlanExecuteReply(cfg: Config, v: View, reply: ConnectorReply, refusal: Option<ErrorKind>,
      a: Answers): seq<Step> {
    if AcceptedStatus(reply, v.rec.proposal.idempotencyKey, EXECUTION_RESULTS).Some? then
      if !Allowed(v.rec.state, EXECUTED) then PlanExecuteFailure(cfg, v, OtherFailure, a)
      else if refusal.Some? then PlanExecuteFailure(cfg, v, refusal.value, a)
      else [Move(EXECUTED, "CONNECTOR_EXECUTED", ReplyReference(cfg.crypto, v.rec, reply))]
    else PlanExecuteFailure(cfg, v, if reply.Threw? then reply.error else OtherFailure, a)
  }

  function PlanReconcile(v: View): seq<Step> { if v.rec.state == UNKNOWN then [Calls(StatusReply)] else [] }

  function PlanReconcileReply(cfg: Config, v: View, reply: ConnectorReply, a: Answers): seq<Step> {
    match AcceptedStatus(reply, v.rec.proposal.idempotencyKey, EXECUTION_STATUSES)
    case None => []
    case Some(Executed) => MoveThen(v, EXECUTED, "STATUS_CONFIRMED_EXECUTED", ReplyReference(cfg.crypto, v.rec, reply),
      [])
    case Some(NoEffect) =>
      MoveAndFinalize(cfg, v, FAILED, "STATUS_CONFIRMED_NO_EFFECT", KeyReference(cfg.crypto, v.rec), a)
    case Some(_) => MoveAndClose(cfg, v, REVIEW_REQUIRED, "STATUS_UNRESOLVED", NoDetails, a)
  }

  function PlanVerifyOutcome(v: View): seq<Step> {
    if v.rec.state == EXECUTED then [Move(VERIFYING, "OUTCOME_VERIFICATION_STARTED", NoDetails), Calls(ObserveReply)]
      else []
  }

  function RejectionPlan(cfg: Config, v: View, phase: Phase, code: string, a: Answers): seq<Step> {
    var reject := RejectedEvidence(phase, code);
    [reject] + MoveAndClose(cfg, Apply(cfg, v, reject),
      if phase == PostRemedy then REMEDY_INCONCLUSIVE else INCONCLUSIVE, code, NoDetails, a)
  }

  function PlanObserved(cfg: Config, v: View, o: Observation, a: Answers): seq<Step> {
    match Assess(cfg, v.rec, v.clock, o, Initial)
    case Unavailable => RejectionPlan(cfg, v, Initial, "EVIDENCE_UNAVAILABLE", a)
    case RejectAs(code) => RejectionPlan(cfg, v, Initial, code, a)
    case Accept(e) => [AcceptedEvidence(e)] + JudgementPlan(cfg, Apply(cfg, v, AcceptedEvidence(e)), e, a)
  }

  /** What follows accepted evidence in VERIFYING. */
  function JudgementPlan(cfg: Config, w: View, e: Evidence, a: Answers): seq<Step> {
    var details := EvidenceDetails(DigestEvidence(cfg.crypto, e));
    if e.body.evaluation.satisfied then MoveAndClose(cfg, w, SATISFIED, "POSTCONDITION_SATISFIED", details, a)
    else
      MoveThen(w, BREACHED, "POSTCONDITION_BREACHED", details,
        [Move(REMEDY_DUE, "RESERVED_REMEDY_DUE", ReservationReference(cfg.crypto, w.rec))])
  }

  function ReservationReference(c: Crypto, rec: Record): Details {
    match rec.reservation case Some(r) => ReferenceDetails(DigestReservation(c, r)) case None => NoDetails
  }

  function PlanRemediate(cfg: Config, v: View, a: Answers, measured: Option<Digest>): seq<Step> {
    if v.rec.state != REMEDY_DUE || v.rec.reservation.None? then []
    else
      var reservation := v.rec.reservation.value;
      if reservation.body.expiresAt <= v.clock
        then MoveAndClose(cfg, v, REVIEW_REQUIRED, "RECOURSE_EXPIRED", NoDetails, a)
      else match ReadStatus(v.rec, a.probe)
        case None => []
        case Some(status) =>
          if status != StatusActive then MoveAndClose(cfg, v, REVIEW_REQUIRED, "RECOURSE_NOT_ACTIVE",
            StatusDetails(status), a)
          else if reservation.body.kind == Escalate then
            MoveAndClose(cfg, v, REVIEW_REQUIRED, "REMEDY_REQUIRES_CHILD_ACTION", KindDetails(Escalate), a)
          else PlanAttempt(cfg, v, measured)
  }

  /** The end of remediate()'s first segment: an attempt must be left and the drill must still
      hold, then the attempt is counted and the connector is called. */
  function PlanAttempt(cfg: Config, v: View, measured: Option<Digest>): seq<Step>
    requires v.rec.reservation.Some?
  {
    var reservation := v.rec.reservation.value;
    if v.rec.remedyAttempts >= reservation.body.maxAttempts then []
    else if v.rec.preflight.Some? && !PreflightHolds(cfg, reservation, v.rec.preflight.value, None, measured) then []
    else
      [Move(REMEDIATING, "REMEDY_STARTED",
        AttemptDetails(v.rec.remedyAttempts + 1, DigestReservation(cfg.crypto, reservation))),
       CallsRemediate(RemediateCall(v.clock, v.rec.proposal, reservation, v.rec.remedyKey))]
  }

  function ResultName(s: ReplyStatus): string {
    match s
    case Executed => "executed" case NoEffect => "no_effect" case Unresolved => "unknown" case Remediated =>
      "remediated"
    case Failed => "failed" case NoChange => "no_change" case Unsupported => "unsupported"
  }

  function RemedyKeyReference(c: Crypto, rec: Record): Details { ReferenceDetails(DigestText(c, rec.remedyKey)) }

  function PlanRemediateReply(cfg: Config, v: View, reply: ConnectorReply, a: Answers): seq<Step> {
    match AcceptedStatus(reply, v.rec.remedyKey, REMEDY_RESULTS)
    case None =>
      if reply == Threw(IdempotencyConflict) then
        MoveAndClose(cfg, v, REMEDY_FAILED, "IDEMPOTENCY_CONFLICT", RemedyKeyReference(cfg.crypto, v.rec), a)
      else MoveThen(v, REMEDY_UNKNOWN, "REMEDY_EXECUTION_AMBIGUOUS", RemedyKeyReference(cfg.crypto, v.rec), [])
    case Some(Remediated) =>
      MoveThen(v, REMEDY_VERIFYING, "REMEDY_EXECUTION_CONFIRMED", RemedyKeyReference(cfg.crypto, v.rec),
        [Calls(RemedyObserveReply)])
    case Some(status) => MoveAndClose(cfg, v, REMEDY_FAILED, "REMEDY_CONNECTOR_FAILED",
      ResultDetails(ResultName(status)), a)
  }

  function PlanReconcileRemedy(v: View): seq<Step> {
    if v.rec.state == REMEDY_UNKNOWN then [Calls(RemedyStatusReply)] else []
  }

  function PlanReconcileRemedyReply(cfg: Config, v: View, reply: ConnectorReply, a: Answers): seq<Step> {
    match AcceptedStatus(reply, v.rec.remedyKey, REMEDY_STATUSES)
    case None => []
    case Some(Remediated) =>
      MoveThen(v, REMEDY_VERIFYING, "REMEDY_STATUS_CONFIRMED", RemedyKeyReference(cfg.crypto, v.rec),
        [Calls(RemedyObserveReply)])
    case Some(status) =>
      if status == NoEffect || status == Failed then
        MoveAndClose(cfg, v, REMEDY_FAILED, "REMEDY_STATUS_CONFIRMED_NO_EFFECT", ResultDetails(ResultName(status)), a)
      else MoveAndClose(cfg, v, REVIEW_REQUIRED, "REMEDY_STATUS_UNRESOLVED", RemedyKeyReference(cfg.crypto, v.rec), a)
  }

  function PlanRemedyObserved(cfg: Config, v: View, o: Observation, a: Answers): seq<Step> {
    match Assess(cfg, v.rec, v.clock, o, PostRemedy)
    case Unavailable => RejectionPlan(cfg, v, PostRemedy, "REMEDY_EVIDENCE_UNAVAILABLE", a)
    case RejectAs(code) => RejectionPlan(cfg, v, PostRemedy, code, a)
    case Accept(e) => [AcceptedEvidence(e)] + RemedyJudgementPlan(cfg, Apply(cfg, v, AcceptedEvidence(e)), e, a)
  }

  /** What follows accepted evidence in REMEDY_VERIFYING. */
  function RemedyJudgementPlan(cfg: Config, w: View, e: Evidence, a: Answers): seq<Step> {
    var details := EvidenceDetails(DigestEvidence(cfg.crypto, e));
    if e.body.evaluation.satisfied then MoveAndClose(cfg, w, REMEDIATED, "REMEDY_VERIFIED", details, a)
    else MoveAndClose(cfg, w, REMEDY_INCONCLUSIVE, "REMEDY_POSTCONDITION_UNRESOLVED", details, a)
  }

  // ----- Segments and runs -----

  datatype Segment =
    | Authorizing(decision: Decision)
    | Reserving(request: RecourseRequest, caps: Option<Capabilities>, commitment: Option<Commitment>)
    | AcceptingPreflight(bundle: DrillBundle, measured: Option<Digest>)
    | IssuingPermit(caps: Option<Capabilities>, answers: Answers, measured: Option<Digest>)
    | Executing(override: Option<Proposal>, answers: Answers, measured: Option<Digest>)
    | ExecuteReplied(reply: ConnectorReply, refusal: Option<ErrorKind>, answers: Answers)
    | Reconciling
    | Reconciled(reply: ConnectorReply, answers: Answers)
    | VerifyingOutcome
    | OutcomeObserved(observation: Observation, answers: Answers)
    | Remediating(answers: Answers, measured: Option<Digest>)
    | RemedyReplied(reply: ConnectorReply, answers: Answers)
    | ReconcilingRemedy
    | RemedyReconciled(reply: ConnectorReply, answers: Answers)
    | RemedyObserved(observation: Observation, answers: Answers)

  /** The reply a resume segment consumes. */
  function Awaits(s: Segment): Option<Token> {
    match s
    case ExecuteReplied(_, _, _) => Some(ExecuteReply)
    case Reconciled(_, _) => Some(StatusReply)
    case OutcomeObserved(_, _) => Some(ObserveReply)
    case RemedyReplied(_, _) => Some(RemediateReply)
    case RemedyReconciled(_, _) => Some(RemedyStatusReply)
    case RemedyObserved(_, _) => Some(RemedyObserveReply)
    case _ => None
  }

  /** The steps behind the arrival of a reply, or all steps of a start segment. */
  function SegmentPlan(cfg: Config, v: View, s: Segment): seq<Step> {
    match s
    case Authorizing(d) => PlanAuthorize(cfg, v, d)
    case Reserving(r, caps, m) => PlanReserve(cfg, v, r, caps, m)
    case AcceptingPreflight(b, measured) => PlanAcceptPreflight(cfg, v, b, measured)
    case IssuingPermit(caps, a, measured) => PlanIssuePermit(cfg, v, caps, a, measured)
    case Executing(override, a, measured) => PlanExecute(cfg, v, override, a, measured)
    case ExecuteReplied(reply, refusal, a) => PlanExecuteReply(cfg, v, reply, refusal, a)
    case Reconciling => PlanReconcile(v)
    case Reconciled(reply, a) => PlanReconcileReply(cfg, v, reply, a)
    case VerifyingOutcome => PlanVerifyOutcome(v)
    case OutcomeObserved(o, a) => PlanObserved(cfg, v, o, a)
    case Remediating(a, measured) => PlanRemediate(cfg, v, a, measured)
    case RemedyReplied(reply, a) => PlanRemediateReply(cfg, v, reply, a)
    case ReconcilingRemedy => PlanReconcileRemedy(v)
    case RemedyReconciled(reply, a) => PlanReconcileRemedyReply(cfg, v, reply, a)
    case RemedyObserved(o, a) => PlanRemedyObserved(cfg, v, o, a)
  }

  /** The view in which a segment's own steps begin: the clock has moved on, and the reply a
      resume segment waited for has arrived. */
  function Entered(v: View, s: Segment, now: Time): View {
    var w := v.(clock := now);
    match Awaits(s)
    case Some(t) => w.(pending := v.pending - multiset{t})
    case None => w
  }

  function Plan(cfg: Config, v: View, s: Segment, now: Time): seq<Step> { SegmentPlan(cfg, Entered(v, s, now), s) }

  /** A segment can run when time does not go backwards and what it resumes is suspended. */
  predicate CanRun(v: View, s: Segment, now: Time) {
    v.clock <= now && (Awaits(s).Some? ==> Awaits(s).value in v.pending)
  }

  /** One segment of which the first `k` steps were performed. */
  datatype Turn = Turn(segment: Segment, now: Time, performed: nat)

  function TakeTurn(cfg: Config, v: View, t: Turn): View {
    var plan := Plan(cfg, v, t.segment, t.now);
    ApplyAll(cfg, Entered(v, t.segment, t.now), plan[..if t.performed <= |plan| then t.performed else |plan|])
  }

  /** The view propose() registers behind its first event. */
  function Proposed(cfg: Config, p: Proposal, now: Time): View {
    var d := DigestProposal(cfg.crypto, p);
    var id := "act_" + Prefix20(d);
    var rec := Record(id, d, p, PROPOSED, 0, 0, [], None, None, None, "", None, None, None);
    var event := NextEvent(cfg.crypto, cfg.signer, [], id, "rail", now,
      ActionProposed(d, ActionTypeOf(p.parameters), p.mode));
    View(rec, [event], multiset{}, [], [], now)
  }

  /** A whole run of one action: any segments, in any order, cut short anywhere. */
  ghost predicate Run(cfg: Config, p: Proposal, start: Time, turns: seq<Turn>, views: seq<View>) {
    && ProposalValid(p, start)
    && |views| == |turns| + 1
    && views[0] == Proposed(cfg, p, start)
    && forall i :: 0 <= i < |turns| ==>
         CanRun(views[i], turns[i].segment, turns[i].now) && views[i + 1] == TakeTurn(cfg, views[i], turns[i])
  }
}
