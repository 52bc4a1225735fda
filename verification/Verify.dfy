/** Verification of a settlement bundle (src/verify.js): signatures and digest bindings over
    the artifacts, then a replay of the lifecycle from an arbitrary signed event list. */
module Verify {
  import opened RailStates
  import opened JsonValues
  import opened Artifacts
  import opened Postconditions
  import opened EventStore

  datatype Profile = ReceiptProfile | AuditProfile

  datatype ActionSummary = ActionSummary(
    actionId: Id,
    actionDigest: Digest,
    actionType: ActionType,
    resourceIdDigest: Digest,
    proposal: Option<Proposal>)

  datatype Bundle = Bundle(
    version: Version,
    profile: Profile,
    action: ActionSummary,
    reservation: Reservation,
    permit: Permit,
    evidenceManifest: seq<Digest>,
    outcomeEvidence: seq<Evidence>,
    receipt: Receipt,
    events: seq<Event>)

  /** SemanticsRefused stands for SEMANTIC_INVALID, and for POSTCONDITION_INVALID when the
      included postcondition cannot be evaluated at all. */
  datatype Refusal = BundleTampered | KeyUntrusted | ArtifactSignatureInvalid | SemanticsRefused

  datatype Verification = Verification(
    semanticsVerified: bool,
    actionId: Id,
    outcome: Outcome,
    mode: Mode,
    bypassPossible: bool,
    eventCount: nat,
    chainHead: Digest)

  // ----- Replay -----

  /** The states an event list visits, or None at the first event that breaks the replay. */
  function Replay(id: Id, es: seq<Event>): (path: Option<seq<State>>)
    ensures path.Some? ==> LegalPath(path.value)
  {
    if es == [] then Some([PROPOSED])
    else
      var n := |es| - 1;
      match Replay(id, es[..n])
      case None => None
      case Some(path) =>
        if es[n].ActionId() != id then None
        else if n > 0 && es[n].RecordedAt() < es[n - 1].RecordedAt() then None
        else match es[n].Payload()
          case StateTransition(from, to, _, _) =>
            if from == path[|path| - 1] && Allowed(from, to) then Some(path + [to]) else None
          case _ => Some(path)
  }

  lemma {:induction false} BrokenReplayStaysBroken(id: Id, es: seq<Event>, n: nat)
    requires n <= |es| && Replay(id, es[..n]) == None
    ensures Replay(id, es) == None
    decreases |es|
  {
    if n < |es| {
      assert es[..|es| - 1][..n] == es[..n];
      BrokenReplayStaysBroken(id, es[..|es| - 1], n);
    } else {
      assert es[..n] == es;
    }
  }

  predicate StartsWith(es: seq<Event>, actionDigest: Digest) {
    && |es| > 0
    && es[0].Payload().ActionProposed?
    && es[0].Payload().actionDigest == actionDigest
  }

  /** A complete lifecycle: it begins with the supplied action and ends in CLOSED. */
  function CompleteReplay(es: seq<Event>, action: ActionSummary): Option<seq<State>> {
    if !StartsWith(es, action.actionDigest) then None
    else match Replay(action.actionId, es)
      case None => None
      case Some(path) => if path[|path| - 1] == CLOSED then Some(path) else None
  }

  method ReplayStates(es: seq<Event>, action: ActionSummary) returns (states: Option<seq<State>>)
    ensures states == CompleteReplay(es, action)
  {
    hide Allowed;
    if !StartsWith(es, action.actionDigest) {
      return None;
    }
    var current := PROPOSED;
    var previousRecordedAt: Option<Time> := None;
    var path := [current];
    var i := 0;
    while i < |es|
      invariant 0 <= i <= |es|
      invariant Replay(action.actionId, es[..i]) == Some(path)
      invariant current == path[|path| - 1]
      invariant previousRecordedAt == if i == 0 then None else Some(es[i - 1].RecordedAt())
    {
      var event := es[i];
      assert es[..i + 1][..i] == es[..i] && es[..i + 1][i] == event;
      assert i > 0 ==> es[..i + 1][i - 1] == es[i - 1];
      if event.ActionId() != action.actionId {
        BrokenReplayStaysBroken(action.actionId, es, i + 1);
        return None;
      }
      if previousRecordedAt.Some? && event.RecordedAt() < previousRecordedAt.value {
        BrokenReplayStaysBroken(action.actionId, es, i + 1);
        return None;
      }
      previousRecordedAt := Some(event.RecordedAt());
      if event.Payload().StateTransition? {
        if event.Payload().from != current || !Allowed(current, event.Payload().to) {
          BrokenReplayStaysBroken(action.actionId, es, i + 1);
          return None;
        }
        current := event.Payload().to;
        path := path + [current];
      }
      i := i + 1;
    }
    assert es[..|es|] == es;
    states := if current == CLOSED then Some(path) else None;
  }

  /** The membership tests of deriveOutcome, in their order. */
  function DeriveOutcome(states: seq<State>): Option<Outcome> {
    if REMEDIATED in states then Some(Compensated)
    else if SATISFIED in states then Some(Settled)
    else if UnresolvedIn(states) then Some(Disputed)
    else None
  }

  predicate UnresolvedIn(states: seq<State>) {
    INCONCLUSIVE in states || REVIEW_REQUIRED in states || REMEDY_FAILED in states || REMEDY_INCONCLUSIVE in states
  }

  // ----- Positions in an event list -----

  /** Array.prototype.find, as an index. */
  function FindFirst(es: seq<Event>, wanted: Event -> bool): (found: Option<nat>)
    ensures found.Some? ==> found.value < |es| && wanted(es[found.value])
    ensures found.Some? ==> forall i :: 0 <= i < found.value ==> !wanted(es[i])
    ensures found.None? ==> forall i :: 0 <= i < |es| ==> !wanted(es[i])
  {
    if es == [] then None
    else
      var n := |es| - 1;
      match FindFirst(es[..n], wanted)
      case Some(i) =>
        assert forall j :: 0 <= j < n ==> es[..n][j] == es[j];
        Some(i)
      case None =>
        assert forall j :: 0 <= j < n ==> es[..n][j] == es[j];
        if wanted(es[n]) then Some(n) else None
  }

  /** The state an event list leaves behind, without asking whether its steps were legal. */
  function LastState(es: seq<Event>): State {
    if es == [] then PROPOSED
    else match es[|es| - 1].Payload()
      case StateTransition(_, to, _, _) => to
      case _ => LastState(es[..|es| - 1])
  }

  function SequenceIs(target: int): Event -> bool { (e: Event) => e.signed.body.sequence == target }

  function StateBefore(es: seq<Event>, target: int): Option<State> {
    match FindFirst(es, SequenceIs(target))
    case None => None
    case Some(i) => Some(LastState(es[..i]))
  }

  method StateBeforeEvent(es: seq<Event>, target: int) returns (state: Option<State>)
    ensures state == StateBefore(es, target)
  {
    var current := PROPOSED;
    var i := 0;
    while i < |es|
      invariant 0 <= i <= |es|
      invariant current == LastState(es[..i])
      invariant forall j :: 0 <= j < i ==> es[j].signed.body.sequence != target
    {
      if es[i].signed.body.sequence == target {
        return Some(current);
      }
      assert es[..i + 1][..i] == es[..i] && es[..i + 1][i] == es[i];
      if es[i].Payload().StateTransition? {
        current := es[i].Payload().to;
      }
      i := i + 1;
    }
    state := None;
  }

  function TransitionTo(to: State): Event -> bool {
    (e: Event) => e.Payload().StateTransition? && e.Payload().to == to
  }

  function AcceptanceOf(phase: Phase, evidence: Digest): Event -> bool {
    (e: Event) => match e.Payload()
      case EvidenceAccepted(d, _) => phase == Initial && d == evidence
      case RemedyEvidenceAccepted(d, _) => phase == PostRemedy && d == evidence
      case _ => false
  }

  predicate IsRecourseEvent(e: Event) { e.Payload().RecourseFinalized? || e.Payload().RecourseStatusRecorded? }

  /** The recourse events in order, `events.filter(...)`. */
  function RecourseEvents(es: seq<Event>): seq<Event> {
    if es == [] then []
    else RecourseEvents(es[..|es| - 1]) + if IsRecourseEvent(es[|es| - 1]) then [es[|es| - 1]] else []
  }

  // ----- Evidence -----

  /** The fact that says which currency or SKU the evidence is about. */
  predicate FactsEcho(p: Parameters, facts: Facts) {
    match p
    case RefundParameters(_, currency) => Property(facts, "currency") == Some(Str(currency))
    case InventoryParameters(sku, _) => Property(facts, "sku") == Some(Str(sku))
    case EmailParameters(_, _) => true
  }

  /** verifyEvidenceSemantics. */
  predicate EvidenceSemantics(c: Crypto, evidence: Evidence, p: Proposal, es: seq<Event>) {
    var body := evidence.body;
    && body.actionDigest == DigestProposal(c, p)
    && body.source == p.evidenceSource
    && body.resourceType == p.resourceType
    && body.resourceId == p.resourceId
    && FactsEcho(p.parameters, body.facts)
    && Missing(p.postcondition, body.facts) == []
    && PostconditionValid(p.postcondition)
    && var evaluation := Evaluate(p.postcondition, body.facts);
    && c.digest(EvaluationA(evaluation)) == c.digest(EvaluationA(body.evaluation))
    && var found := FindFirst(es, AcceptanceOf(body.phase, DigestEvidence(c, evidence)));
    && found.Some?
    && var accepted := es[found.value];
    && StateBefore(es, accepted.signed.body.sequence) ==
         Some(if body.phase == PostRemedy then REMEDY_VERIFYING else VERIFYING)
    && 0 <= accepted.RecordedAt() - body.observedAt <= p.maxAgeSeconds * 1000
    && AcceptedSatisfied(accepted) == evaluation.satisfied
  }

  predicate AcceptedSatisfied(e: Event) {
    match e.Payload()
    case EvidenceAccepted(_, satisfied) => satisfied
    case RemedyEvidenceAccepted(_, satisfied) => satisfied
    case _ => false
  }

  /** Some included evidence of this phase evaluates this way. */
  predicate SomeEvidence(b: Bundle, p: Proposal, phase: Phase, satisfied: bool) {
    exists e <- b.outcomeEvidence ::
      e.body.phase == phase && Evaluate(p.postcondition, e.body.facts).satisfied == satisfied
  }

  // ----- Integrity -----

  predicate ProposalAdmits(v: Version, t: ActionType) { v == V2 ==> t != InventoryAllocate }

  predicate ClauseShape(clause: Clause) {
    && |clause.path| > 0
    && (if clause.op == EQ then IsScalar(clause.expected) else clause.expected.Number?)
  }

  predicate ProposalShape(p: Proposal) {
    && ProposalAdmits(p.version, ActionTypeOf(p.parameters))
    && 1 <= p.maxAgeSeconds <= MAX_DURATION_SECONDS
    && |p.postcondition| > 0
    && (forall clause <- p.postcondition :: ClauseShape(clause))
    && match p.parameters
       case RefundParameters(amount, _) => 1 <= amount <= MAX_SAFE_INTEGER
       case InventoryParameters(_, quantity) => 1 <= quantity <= MAX_SAFE_INTEGER
       case EmailParameters(_, _) => true
  }

  predicate ScopeShape(actionType: ActionType, scope: RemedyScope) {
    ScopeFits(actionType, scope) && 0 <= ScopeLimit(scope) <= MAX_SAFE_INTEGER
  }

  /** The ranges validateSettlementBundle keeps that the datatypes do not. */
  predicate ShapeOk(b: Bundle) {
    var r := b.reservation.body;
    var m := r.commitment.body;
    && (b.action.proposal.Some? ==>
         b.action.proposal.value.version == b.version && ProposalShape(b.action.proposal.value))
    && 0 <= r.remedyWindowSeconds <= MAX_DURATION_SECONDS
    && 1 <= r.maxAttempts <= MAX_SAFE_INTEGER
    && ScopeShape(b.action.actionType, r.scope)
    && 1 <= m.maxAttempts <= MAX_SAFE_INTEGER
    && ScopeShape(b.action.actionType, m.scope)
    && m.active
    && b.permit.body.mode != Observed
    && b.permit.body.maxUses == 1
    && b.receipt.body.recourseFinalStatus != StatusUnknown
    && b.receipt.body.mode != Observed
  }

  /** The verifyArtifact calls of verifyBundle, in order. */
  function SignatureChecks(c: Crypto, b: Bundle, keys: map<KeyId, PublicKey>,
      connectorKeys: map<KeyId, PublicKey>): seq<SignatureCheck> {
    [CheckSignature(c, ReservationB(b.reservation.body), b.reservation.sig, keys),
     CheckSignature(c, CommitmentB(b.reservation.body.commitment.body), b.reservation.body.commitment.sig,
       connectorKeys), CheckSignature(c, PermitB(b.permit.body), b.permit.sig, keys)]
    + seq(|b.outcomeEvidence|, i requires 0 <= i < |b.outcomeEvidence| =>
        CheckSignature(c, EvidenceB(b.outcomeEvidence[i].body), b.outcomeEvidence[i].sig, keys))
    + [CheckSignature(c, ReceiptB(b.receipt.body), b.receipt.sig, keys)]
  }

  function FirstSignatureError(checks: seq<SignatureCheck>): (r: Option<Refusal>)
    ensures r == None <==> forall i :: 0 <= i < |checks| ==> checks[i] == SignatureGood
    decreases |checks|
  {
    if checks == [] then None
    else match checks[0]
      case UntrustedKey => Some(KeyUntrusted)
      case SignatureInvalid => Some(ArtifactSignatureInvalid)
      case SignatureGood => FirstSignatureError(checks[1..])
  }

  function SettlementReason(o: Outcome): string {
    match o
    case Settled => "SETTLEMENT_SETTLED"
    case Compensated => "SETTLEMENT_COMPENSATED"
    case Disputed => "SETTLEMENT_DISPUTED"
  }

  /** Largest lag a receipt-profile close time may have behind the CLOSED event. */
  const LEGACY_CLOSE_TIME_LAG_MS := 1000

  /** Every integrityAssert of verifyBundle. */
  predicate BindingsOk(c: Crypto, b: Bundle) {
    var permit := b.permit.body;
    var receipt := b.receipt.body;
    && receipt.version == b.version
    && (b.version == V2 ==> receipt.proposalVersion == Some(V2))
    && permit.actionId == b.action.actionId
    && permit.actionDigest == b.action.actionDigest
    && permit.reservationDigest == DigestReservation(c, b.reservation)
    && receipt.actionId == b.action.actionId
    && receipt.actionDigest == b.action.actionDigest
    && receipt.permitDigest == DigestPermit(c, b.permit)
    && receipt.reservationDigest == DigestReservation(c, b.reservation)
    && receipt.commitmentDigest == DigestCommitment(c, b.reservation.body.commitment)
    && receipt.evidenceDigests == b.evidenceManifest
    && (if b.profile == AuditProfile then b.evidenceManifest == EvidenceDigests(c, b.outcomeEvidence)
        else b.outcomeEvidence == [] && b.action.proposal == None)
    && Some(receipt.chainHead) == Head(b.events)
    && receipt.mode == permit.mode
    && receipt.bypassPossible == permit.bypassPossible
    && StartsWith(b.events, b.action.actionDigest)
    && b.events[0].Payload().actionType == b.action.actionType
    && (b.action.proposal.Some? ==>
          && b.action.proposal.value.version == b.version
          && DigestProposal(c, b.action.proposal.value) == b.action.actionDigest)
    && var closed := b.events[|b.events| - 1];
    && closed.Payload().StateTransition?
    && closed.Payload().to == CLOSED
    && closed.Payload().reason == SettlementReason(receipt.outcome)
    && closed.Payload().details == DigestDetails(c, OutcomeDetails(receipt.outcome))
    && receipt.postconditionSatisfied == (receipt.outcome != Disputed)
    && (b.profile == ReceiptProfile ==>
          0 <= receipt.closedAt - closed.RecordedAt() <= LEGACY_CLOSE_TIME_LAG_MS)
  }

  // ----- Semantics -----

  /** The part of verifySemantics that compares the artifacts with one another. */
  predicate ArtifactSemantics(c: Crypto, b: Bundle, p: Proposal) {
    var r := b.reservation.body;
    var m := r.commitment.body;
    var permit := b.permit.body;
    && r.actionDigest == b.action.actionDigest
    && m.actionDigest == b.action.actionDigest
    && ScopeFits(b.action.actionType, m.scope)
    && ScopeFits(b.action.actionType, r.scope)
    && m.connector == r.connector
    && m.capability == r.capability
    && m.kind == r.kind
    && m.expiresAt == r.expiresAt
    && m.maxAttempts == r.maxAttempts
    && m.scope == r.scope
    && m.active
    && m.reservedAt <= permit.issuedAt
    && r.expiresAt >= permit.expiresAt + r.remedyWindowSeconds * 1000
    && b.action.actionType == ActionTypeOf(p.parameters)
    && b.action.resourceIdDigest == DigestText(c, p.resourceId)
    && p.connector == r.connector
    && ScopeCovers(p.parameters, r.scope)
    && ScopeCovers(p.parameters, m.scope)
    && permit.maxUses == 1
    && permit.mode != Observed
    && permit.bypassPossible == (permit.mode != Enforced)
    && permit.expiresAt == p.expiresAt
    && p.requestedAt <= permit.issuedAt < p.expiresAt
  }

  /** The part of verifySemantics about the replayed lifecycle. */
  predicate LifecycleSemantics(c: Crypto, b: Bundle, states: seq<State>) {
    var receipt := b.receipt.body;
    var permit := b.permit.body;
    && DeriveOutcome(states) == Some(receipt.outcome)
    && receipt.postconditionSatisfied == (receipt.outcome != Disputed)
    && var execution := FindFirst(b.events, TransitionTo(EXECUTING));
    && execution.Some?
    && permit.issuedAt <= b.events[execution.value].RecordedAt() < permit.expiresAt
    && multiset(states)[EXECUTING] == 1
  }

  predicate EvidenceSupportsOutcome(b: Bundle, p: Proposal, states: seq<State>) {
    match b.receipt.body.outcome
    case Settled => SomeEvidence(b, p, Initial, true) && BREACHED !in states
    case Compensated => SomeEvidence(b, p, Initial, false) && SomeEvidence(b, p, PostRemedy, true)
    case Disputed => UnresolvedIn(states)
  }

  /** The part of verifySemantics about the final recourse status. */
  predicate RecourseSemantics(c: Crypto, b: Bundle) {
    var receipt := b.receipt.body;
    var recorded := RecourseEvents(b.events);
    && receipt.recourseFinalStatus != StatusUnknown
    && |recorded| == 1
    && |b.events| >= 2
    && recorded[0] == b.events[|b.events| - 2]
    && IsRecourseEvent(recorded[0])
    && recorded[0].Payload().status == receipt.recourseFinalStatus
    && recorded[0].Payload().commitment == DigestCommitment(c, b.reservation.body.commitment)
    && recorded[0].Payload().RecourseStatusRecorded? == (receipt.recourseFinalStatus == StatusActive)
    && var terminal := StateBefore(b.events, recorded[0].signed.body.sequence);
    && terminal.Some?
    && OutcomeOf(terminal.value) == Some(receipt.outcome)
    && b.events[|b.events| - 1].RecordedAt() == receipt.closedAt
  }

  predicate SemanticsOk(c: Crypto, b: Bundle) {
    && b.profile == AuditProfile
    && b.action.proposal.Some?
    && var p := b.action.proposal.value;
    && ArtifactSemantics(c, b, p)
    && var states := CompleteReplay(b.events, b.action);
    && states.Some?
    && LifecycleSemantics(c, b, states.value)
    && (forall e <- b.outcomeEvidence :: EvidenceSemantics(c, e, p, b.events))
    && EvidenceSupportsOutcome(b, p, states.value)
    && RecourseSemantics(c, b)
  }

  /** verifyBundle: the stages in order, each with the error it raises. */
  function VerifyBundle(
      c: Crypto, b: Bundle, keys: map<KeyId, PublicKey>, connectorKeys: map<KeyId, PublicKey>,
      requireSemantics: bool): Result<Verification, Refusal>
  {
    if !ShapeOk(b) then Err(BundleTampered)
    else match ChainErrorOf(c, keys, b.events)
      case Some(Untrusted) => Err(KeyUntrusted)
      case Some(Tampered) => Err(BundleTampered)
      case None =>
        match FirstSignatureError(SignatureChecks(c, b, keys, connectorKeys))
        case Some(e) => Err(e)
        case None =>
          if !BindingsOk(c, b) then Err(BundleTampered)
          else if requireSemantics && !SemanticsOk(c, b) then Err(SemanticsRefused)
          else Ok(Verification(
            requireSemantics, b.action.actionId, b.receipt.body.outcome, b.receipt.body.mode,
            b.receipt.body.bypassPossible, |b.events|, b.receipt.body.chainHead))
  }

  /** Acceptance, stage by stage. */
  lemma AcceptedExactly(
      c: Crypto, b: Bundle, keys: map<KeyId, PublicKey>, connectorKeys: map<KeyId, PublicKey>, requireSemantics: bool)
    ensures VerifyBundle(c, b, keys, connectorKeys, requireSemantics).Ok? <==>
      && ShapeOk(b)
      && ChainValid(c, keys, b.events)
      && (forall i :: 0 <= i < |SignatureChecks(c, b, keys, connectorKeys)| ==>
            SignatureChecks(c, b, keys, connectorKeys)[i] == SignatureGood)
      && BindingsOk(c, b)
      && (requireSemantics ==> SemanticsOk(c, b))
  {
  }

  /** verifyChainCheckpoint, once the bundle itself has verified. */
  predicate ExtendsCheckpoint(es: seq<Event>, eventCount: nat, chainHead: Digest) {
    1 <= eventCount <= |es| && es[eventCount - 1].hash == chainHead
  }
}
