/** What every step of the rail keeps: `Core` under any interleaving of segments, any connector
    answers and any refused appends; `Orderly` besides until an observation comes too late. */
module RailInvariant {
  import opened RailStates
  import opened Artifacts
  import opened Postconditions
  import opened EventStore
  import opened Verify
  import opened VerifySoundness
  import opened RailModel

  // ----- What a log records -----

  /** The digests of accepted evidence, in order. */
  function AcceptedDigests(log: seq<Event>): seq<Digest> {
    if log == [] then []
    else
      AcceptedDigests(log[..|log| - 1]) +
      match log[|log| - 1].Payload()
      case EvidenceAccepted(d, _) => [d]
      case RemedyEvidenceAccepted(d, _) => [d]
      case _ => []
  }

  datatype Acceptance = Acceptance(evidence: Digest, satisfied: bool, during: State, at: Time)

  function Accepts(log: seq<Event>, phase: Phase): seq<Acceptance> {
    if log == [] then []
    else
      var n := |log| - 1;
      Accepts(log[..n], phase) +
      match log[n].Payload()
      case EvidenceAccepted(d, s) =>
        if phase == Initial then [Acceptance(d, s, LastState(log[..n]), log[n].RecordedAt())] else []
      case RemedyEvidenceAccepted(d, s) =>
        if phase == PostRemedy then [Acceptance(d, s, LastState(log[..n]), log[n].RecordedAt())] else []
      case _ => []
  }

  /** When the log enters EXECUTING. */
  function ExecutionTimes(log: seq<Event>): seq<Time> {
    if log == [] then []
    else
      var n := |log| - 1;
      ExecutionTimes(log[..n]) + (if TransitionTo(EXECUTING)(log[n]) then [log[n].RecordedAt()] else [])
  }

  // ----- Artifacts -----

  /** What reserveRecourse established about the signed reservation. */
  ghost predicate ReservationGood(cfg: Config, rec: Record, r: Reservation) {
    var body := r.body;
    var m := body.commitment.body;
    && r.sig == MakeSignature(cfg.crypto, ReservationB(body), cfg.signer)
    && CheckSignature(cfg.crypto, CommitmentB(m), body.commitment.sig, cfg.connectorKeys) == SignatureGood
    && body.actionDigest == rec.actionDigest && m.actionDigest == rec.actionDigest
    && body.connector == rec.proposal.connector && m.connector == body.connector
    && m.capability == body.capability && m.kind == body.kind && m.expiresAt == body.expiresAt
    && m.maxAttempts == body.maxAttempts && m.scope == body.scope && m.active
    && 1 <= body.maxAttempts <= MAX_SAFE_INTEGER
    && 0 <= body.remedyWindowSeconds <= MAX_DURATION_SECONDS
    && ScopeShape(ActionTypeOf(rec.proposal.parameters), body.scope)
    && ScopeCovers(rec.proposal.parameters, body.scope)
    && body.expiresAt >= rec.proposal.expiresAt + body.remedyWindowSeconds * 1000
    && rec.proposal.mode != Observed
  }

  ghost predicate PermitGood(cfg: Config, rec: Record, r: Reservation, p: Permit) {
    && p == MakePermit(cfg, rec, r, p.body.issuedAt)
    && p.body.issuedAt < rec.proposal.expiresAt
  }

  predicate NeedsReservation(s: State) { s !in {PROPOSED, AUTHORIZED, DENIED} }
  predicate NeedsPermit(s: State) { NeedsReservation(s) && s !in {RECOURSE_RESERVED, EXPIRED, REVOKED} }

  ghost predicate RecordOk(cfg: Config, rec: Record) {
    && rec.actionDigest == DigestProposal(cfg.crypto, rec.proposal)
    && ProposalShape(rec.proposal)
    && PostconditionValid(rec.proposal.postcondition)
    && (rec.state == PROPOSED <==> rec.authorization.None?)
    && (rec.recourseRecorded.Some? ==> rec.reservation.Some?)
    && (NeedsReservation(rec.state) <==> rec.reservation.Some?)
    && (rec.reservation.Some? ==> ReservationGood(cfg, rec, rec.reservation.value))
    && (NeedsPermit(rec.state) ==> rec.permit.Some?)
    && (rec.state == RECOURSE_RESERVED ==> rec.permit.None?)
    && (rec.permit.Some? ==> rec.reservation.Some? && PermitGood(cfg, rec, rec.reservation.value, rec.permit.value))
    && (rec.permit.Some? && rec.authorization.Some? && rec.authorization.value.requirePreflight ==> rec.preflight.Some?)
    && (rec.permit.Some? ==> rec.authorization.Some?)
  }

  // ----- Log agreement -----

  /** The log is a verified chain whose replay gives exactly what the record says. */
  ghost predicate LogAgrees(cfg: Config, v: View) {
    var rec := v.rec;
    && LogSound(cfg, rec, v.log, v.clock)
    && rec.state == LastState(v.log)
    && rec.permitUses == Times(rec.actionId, v.log, EXECUTING)
    && rec.remedyAttempts == Times(rec.actionId, v.log, REMEDIATING)
    && (rec.receipt.Some? <==> rec.state == CLOSED)
    && RecordedAgrees(cfg, v)
  }

  /** Evidence, recourse status and execution time, as the log and the record state them. */
  ghost predicate RecordedAgrees(cfg: Config, v: View) {
    var rec := v.rec;
    && AcceptedDigests(v.log) == EvidenceDigests(cfg.crypto, rec.evidence)
    && |RecourseEvents(v.log)| == (if rec.recourseRecorded.Some? then 1 else 0)
    && (rec.recourseRecorded.Some? ==>
          RecourseEvents(v.log)[0].Payload() == RecoursePayloadOf(cfg, rec, RecourseEvents(v.log)[0]))
    && |ExecutionTimes(v.log)| == rec.permitUses
    && (forall t <- ExecutionTimes(v.log) ::
          rec.permit.Some? && rec.permit.value.body.issuedAt <= t < rec.permit.value.body.expiresAt)
  }

  function ReasonOf(e: Event): string {
    match e.Payload()
    case RecourseFinalized(_, _, reason) => reason
    case RecourseStatusRecorded(_, _, reason) => reason
    case _ => ""
  }

  /** The payload finalizeRecourse gives an event with the recorded status. */
  function RecoursePayloadOf(cfg: Config, rec: Record, e: Event): Payload
    requires rec.recourseRecorded.Some?
  {
    RecoursePayload(cfg.crypto, rec, rec.recourseRecorded.value, ReasonOf(e))
  }

  // ----- Calls -----

  /** Everything that stood behind one call of connector.execute. */
  ghost predicate Covered(cfg: Config, rec: Record, call: ExecuteCall) {
    && call.proposal == rec.proposal && call.key == rec.proposal.idempotencyKey
    && DigestProposal(cfg.crypto, call.candidate) == rec.actionDigest
    && rec.permit == Some(call.permit) && rec.reservation == Some(call.reservation)
    && rec.authorization == Some(call.authorization)
    && call.authorization.allow
    && call.at < call.permit.body.expiresAt && call.at < call.reservation.body.expiresAt
    && CheckSignature(cfg.crypto, PermitB(call.permit.body), call.permit.sig, cfg.Keys()) == SignatureGood
    && call.reported == StatusActive
    && ScopeCovers(call.proposal.parameters, call.reservation.body.commitment.body.scope)
    && call.reservation.body.expiresAt >= call.permit.body.expiresAt + call.reservation.body.remedyWindowSeconds * 1000
    && (call.authorization.requirePreflight ==> call.preflight.Some?)
    && (call.preflight.Some? ==>
          PreflightHolds(cfg, call.reservation, call.preflight.value, Some(call.at), call.measured))
  }

  ghost predicate CallsOk(cfg: Config, v: View) {
    && |v.executeCalls| <= v.rec.permitUses
    && |v.remediateCalls| <= v.rec.remedyAttempts
    && (forall call <- v.executeCalls :: Covered(cfg, v.rec, call))
    && (v.rec.authorization.Some? && !v.rec.authorization.value.allow ==> v.rec.state == DENIED)
    && (v.rec.permit.Some? ==> v.rec.permit.value.body.issuedAt <= v.clock)
    && (forall call <- v.remediateCalls ::
          v.rec.reservation == Some(call.reservation) && call.proposal == v.rec.proposal && call.key == v.rec.remedyKey)
  }

  ghost predicate Core(cfg: Config, v: View) {
    RecordOk(cfg, v.rec) && LogAgrees(cfg, v) && CallsOk(cfg, v)
  }

  // ----- Runs in which no observation comes too late -----

  /** The state in which a call is made. */
  function AwaitingState(t: Token): State {
    match t
    case ExecuteReply => EXECUTING
    case StatusReply => UNKNOWN
    case ObserveReply => VERIFYING
    case RemediateReply => REMEDIATING
    case RemedyStatusReply => REMEDY_UNKNOWN
    case RemedyObserveReply => REMEDY_VERIFYING
  }

  /** Status queries: any number may be suspended at once, and the action may move on meanwhile. */
  predicate Asks(t: Token) { t == StatusReply || t == RemedyStatusReply }

  /** UNKNOWN and every state it leads to. */
  predicate AfterExecution(s: State) {
    s !in {PROPOSED, AUTHORIZED, DENIED, EXPIRED, REVOKED, RECOURSE_RESERVED, PERMITTED, EXECUTING}
  }

  /** REMEDY_UNKNOWN and every state it leads to. */
  predicate AfterRemedy(s: State) {
    s in {REMEDY_UNKNOWN, REMEDY_VERIFYING, REMEDIATED, REMEDY_INCONCLUSIVE, REMEDY_FAILED, REVIEW_REQUIRED, CLOSED}
  }

  /** Where an action may be while a reply is awaited, and how much evidence it then holds. Only
      the observation behind a remedy can be overtaken by a decision. */
  predicate MayAwait(t: Token, s: State, held: nat) {
    match t
    case StatusReply => AfterExecution(s)
    case RemedyStatusReply => AfterRemedy(s)
    case ObserveReply => s == VERIFYING && held == 0
    case RemedyObserveReply => s in {REMEDY_VERIFYING, REMEDY_FAILED, CLOSED} && held == 1
    case _ => s == AwaitingState(t)
  }

  ghost predicate Awaited(pending: multiset<Token>, s: State, held: nat) {
    forall t <- pending :: MayAwait(t, s, held) && (Asks(t) || pending[t] == 1)
  }

  predicate InitialEvidence(es: seq<Evidence>, satisfied: bool) {
    |es| >= 1 && es[0].body.phase == Initial && es[0].body.evaluation.satisfied == satisfied
  }

  /** Which evidence an action can hold in each state. */
  predicate EvidenceFits(s: State, es: seq<Evidence>) {
    match s
    case VERIFYING => es == [] || (|es| == 1 && es[0].body.phase == Initial)
    case SATISFIED => |es| == 1 && InitialEvidence(es, true)
    case BREACHED => |es| == 1 && InitialEvidence(es, false)
    case REMEDY_DUE => |es| == 1 && InitialEvidence(es, false)
    case REMEDIATING => |es| == 1 && InitialEvidence(es, false)
    case REMEDY_UNKNOWN => |es| == 1 && InitialEvidence(es, false)
    case REMEDY_FAILED => RemedyEvidenceFits(es)
    case REVIEW_REQUIRED => es == [] || (|es| == 1 && InitialEvidence(es, false))
    case REMEDY_VERIFYING => RemedyEvidenceFits(es)
    case REMEDY_INCONCLUSIVE => RemedyEvidenceFits(es)
    case REMEDIATED => |es| == 2 && RemedyEvidenceFits(es) && es[1].body.evaluation.satisfied
    case _ => es == []
  }

  predicate RemedyEvidenceFits(es: seq<Evidence>) {
    InitialEvidence(es, false) && (|es| == 1 || (|es| == 2 && es[1].body.phase == PostRemedy))
  }

  predicate Fresh(p: Proposal, e: Evidence, at: Time) { 0 <= at - e.body.observedAt <= p.maxAgeSeconds * 1000 }

  /** The log accepted exactly this evidence in this phase, in the phase's own state. */
  ghost predicate AcceptedOnce(cfg: Config, v: View, e: Evidence, phase: Phase) {
    && e.body.phase == phase
    && |Accepts(v.log, phase)| == 1
    && var a := Accepts(v.log, phase)[0];
    && a.evidence == DigestEvidence(cfg.crypto, e)
    && a.satisfied == e.body.evaluation.satisfied
    && a.during == (if phase == PostRemedy then REMEDY_VERIFYING else VERIFYING)
    && Fresh(v.rec.proposal, e, a.at)
  }

  ghost predicate AcceptancesMatch(cfg: Config, v: View) {
    var es := v.rec.evidence;
    && |es| <= 2
    && (if |es| >= 1 then AcceptedOnce(cfg, v, es[0], Initial) else Accepts(v.log, Initial) == [])
    && (if |es| == 2 then AcceptedOnce(cfg, v, es[1], PostRemedy) else Accepts(v.log, PostRemedy) == [])
  }

  ghost predicate EvidenceGood(cfg: Config, rec: Record, e: Evidence) {
    var p := rec.proposal;
    && e == SignEvidence(cfg, e.body)
    && e.body.actionDigest == rec.actionDigest
    && e.body.source == p.evidenceSource
    && e.body.resourceType == p.resourceType
    && e.body.resourceId == p.resourceId
    && FactsEcho(p.parameters, e.body.facts)
    && Missing(p.postcondition, e.body.facts) == []
    && e.body.evaluation == Evaluate(p.postcondition, e.body.facts)
  }

  /** The state that decides what an action's evidence must be: CLOSED inherits it. */
  function Deciding(v: View): State {
    if v.rec.state == CLOSED && |v.log| > 0 then LastState(v.log[..|v.log| - 1]) else v.rec.state
  }

  /** The tail close() leaves behind. */
  ghost predicate ClosedProperly(cfg: Config, v: View) {
    var n := |v.log|;
    && n >= 2
    && IsRecourseEvent(v.log[n - 2])
    && v.rec.recourseRecorded.Some? && v.rec.recourseRecorded.value != StatusUnknown
    && OutcomeOf(Deciding(v)).Some?
    && var o := OutcomeOf(Deciding(v)).value;
    && v.log[n - 1].Payload() == Moved(cfg.crypto, Deciding(v), CLOSED, SettlementReason(o), OutcomeDetails(o))
    && CanSettle(v.rec, v.log)
    && v.rec.receipt == Some(MakeReceipt(cfg, v.rec.(receipt := None), v.log, o))
  }

  predicate Finished(s: State) { s in {EXPIRED, REVOKED, FAILED, CLOSED} || OutcomeOf(s).Some? }

  predicate EndsInRecourseEvent(log: seq<Event>) { |log| > 0 && IsRecourseEvent(log[|log| - 1]) }

  /** Every reply awaited may be awaited here. */
  ghost predicate PendingFits(v: View) { Awaited(v.pending, v.rec.state, |v.rec.evidence|) }

  ghost predicate EvidenceSound(cfg: Config, v: View) {
    && EvidenceFits(Deciding(v), v.rec.evidence)
    && AcceptancesMatch(cfg, v)
    && (forall e <- v.rec.evidence :: EvidenceGood(cfg, v.rec, e))
  }

  /** Recourse is finalized last, directly before CLOSED. */
  ghost predicate RecourseLast(cfg: Config, v: View) {
    && (v.rec.recourseRecorded.Some? ==> Finished(v.rec.state))
    && (v.rec.recourseRecorded.Some? && OutcomeOf(v.rec.state).Some? ==> EndsInRecourseEvent(v.log))
    && (v.rec.state == CLOSED ==> ClosedProperly(cfg, v))
  }

  ghost predicate TimesFit(v: View) {
    && (v.rec.reservation.Some? ==> v.rec.reservation.value.body.commitment.body.reservedAt <= v.clock)
    && (v.rec.permit.Some? && v.rec.reservation.Some? ==>
          v.rec.reservation.value.body.commitment.body.reservedAt <= v.rec.permit.value.body.issuedAt)
    && (v.rec.permit.Some? ==> v.rec.proposal.requestedAt <= v.rec.permit.value.body.issuedAt)
  }

  ghost predicate Orderly(cfg: Config, v: View) {
    PendingFits(v) && EvidenceSound(cfg, v) && RecourseLast(cfg, v) && TimesFit(v)
  }

  // ----- When a step may be taken -----

  ghost predicate Enabled(cfg: Config, v: View, step: Step) {
    && (Target(step).Some? ==> Allowed(v.rec.state, Target(step).value))
    && match step
       case Move(to, _, _) =>
         && to !in {AUTHORIZED, DENIED, RECOURSE_RESERVED, PERMITTED, CLOSED}
         && (to == EXECUTING ==> v.rec.permit.Some?
                                 && v.rec.permit.value.body.issuedAt <= v.clock < v.rec.permit.value.body.expiresAt)
         && v.rec.state != AUTHORIZED
       case Authorized(_) => true
       case Reserved(r, _) => v.rec.reservation.None? && ReservationGood(cfg, v.rec, r)
       case AcceptedPreflight(_, _) => v.rec.state == RECOURSE_RESERVED
       case Permitted(p, attestation) =>
         && v.rec.permit.None? && v.rec.reservation.Some? && attestation == PermittedAttestation(cfg.crypto, v.rec)
         && PermitGood(cfg, v.rec, v.rec.reservation.value, p)
         && v.rec.authorization.Some?
         && (v.rec.authorization.value.requirePreflight ==> v.rec.preflight.Some?)
         && p.body.issuedAt <= v.clock
       case RecordedRecourse(_, _) => v.rec.recourseRecorded.None? && v.rec.reservation.Some?
       case Settles(o) => OutcomeOf(v.rec.state) == Some(o) && v.rec.recourseRecorded.Some?
       case CallsExecute(call) =>
         |v.executeCalls| < v.rec.permitUses && Covered(cfg, v.rec, call) && call.preflight == v.rec.preflight
       case CallsRemediate(call) =>
         && |v.remediateCalls| < v.rec.remedyAttempts
         && v.rec.reservation == Some(call.reservation) && call.proposal == v.rec.proposal
         && call.key == v.rec.remedyKey
       case _ => true
  }

  /** The reply a step goes on to wait for. */
  function Suspended(step: Step): Option<Token> {
    match step
    case CallsExecute(_) => Some(ExecuteReply)
    case CallsRemediate(_) => Some(RemediateReply)
    case Calls(t) => Some(t)
    case _ => None
  }

  /** Where a step leads, every reply it leaves awaited may be awaited. */
  ghost predicate LeavesAwaited(v: View, step: Step) {
    && (Target(step).Some? ==> Awaited(v.pending, Target(step).value, |v.rec.evidence|))
    && (Suspended(step).Some? ==> Awaited(v.pending + multiset{Suspended(step).value}, v.rec.state, |v.rec.evidence|))
    && (step.AcceptedEvidence? ==> Awaited(v.pending, v.rec.state, |v.rec.evidence| + 1))
  }

  /** What a step needs besides, in a run in which no observation comes too late. */
  ghost predicate EnabledOrderly(cfg: Config, v: View, step: Step) {
    && LeavesAwaited(v, step)
    && match step
       case Move(to, _, _) => EvidenceFits(to, v.rec.evidence) && v.rec.recourseRecorded.None?
       case Authorized(_) => v.rec.evidence == [] && v.rec.recourseRecorded.None?
       case Reserved(r, _) =>
         && v.rec.evidence == [] && v.rec.recourseRecorded.None? && v.rec.permit.None?
         && r.body.commitment.body.reservedAt <= v.clock
       case Permitted(p, _) =>
         && v.rec.evidence == [] && v.rec.recourseRecorded.None?
         && v.rec.proposal.requestedAt <= p.body.issuedAt == v.clock
       case AcceptedPreflight(_, _) => OutcomeOf(v.rec.state).None? && v.rec.state != CLOSED
       case AcceptedEvidence(e) =>
         && v.rec.recourseRecorded.None?
         && EvidenceGood(cfg, v.rec, e) && Fresh(v.rec.proposal, e, v.clock)
         && (if e.body.phase == Initial then v.rec.state == VERIFYING && v.rec.evidence == []
             else v.rec.state == REMEDY_VERIFYING && |v.rec.evidence| == 1)
       case RejectedEvidence(_, _) => v.rec.state in {VERIFYING, REMEDY_VERIFYING}
       case RecordedRecourse(_, _) => Finished(v.rec.state) && v.rec.state != CLOSED
       case Settles(_) => v.rec.recourseRecorded != Some(StatusUnknown)
       case CallsExecute(_) => v.rec.state == EXECUTING
       case CallsRemediate(_) => v.rec.state == REMEDIATING
       case Calls(t) => v.rec.state == AwaitingState(t)
  }

  // ----- One append -----

  function Extended(cfg: Config, v: View, actor: string, payload: Payload): seq<Event> {
    v.log + [NextEvent(cfg.crypto, cfg.signer, v.log, v.rec.actionId, actor, v.clock, payload)]
  }

  /** A step with an event appends exactly that event and then mutates the record. */
  lemma StepAppends(cfg: Config, v: View, step: Step)
    requires StepEvent(cfg.crypto, v.rec, step).Some?
    ensures var w := Apply(cfg, v, step);
            && |w.log| == |v.log| + 1 && w.log == v.log + [w.log[|v.log|]]
            && w.log[|v.log|].Payload() == StepEvent(cfg.crypto, v.rec, step).value.1
            && w.log[|v.log|].RecordedAt() == v.clock
            && w == v.(log := w.log, rec := Mutate(cfg, v.rec, w.log, step))
  {
    hide Mutate, StepEvent;
  }

  /** What one more event does to everything that is read off a log. */
  lemma FoldsExtend(log: seq<Event>, e: Event)
    ensures AcceptedDigests(log + [e]) == AcceptedDigests(log) +
              (match e.Payload() case EvidenceAccepted(d, _) => [d] case RemedyEvidenceAccepted(d, _) => [d]
                case _ => [])
    ensures RecourseEvents(log + [e]) == RecourseEvents(log) + (if IsRecourseEvent(e) then [e] else [])
    ensures ExecutionTimes(log + [e]) == ExecutionTimes(log)
            + (if TransitionTo(EXECUTING)(e) then [e.RecordedAt()] else [])
  {
    assert (log + [e])[..|log|] == log;
  }

  lemma AcceptsExtend(log: seq<Event>, e: Event, phase: Phase)
    ensures Accepts(log + [e], phase) == Accepts(log, phase) +
              (match e.Payload()
               case EvidenceAccepted(d, s) =>
                 if phase == Initial then [Acceptance(d, s, LastState(log), e.RecordedAt())] else []
               case RemedyEvidenceAccepted(d, s) =>
                 if phase == PostRemedy then [Acceptance(d, s, LastState(log), e.RecordedAt())] else []
               case _ => [])
  {
    assert (log + [e])[..|log|] == log;
  }

  lemma ChainExtends(cfg: Config, v: View, actor: string, payload: Payload)
    requires SoundSignatures(cfg.crypto)
    requires ChainValid(cfg.crypto, cfg.Keys(), v.log)
    requires forall e <- v.log :: e.ActionId() == v.rec.actionId
    ensures var log := Extended(cfg, v, actor, payload);
            && ChainValid(cfg.crypto, cfg.Keys(), log)
            && (forall e <- log :: e.ActionId() == v.rec.actionId)
  {
    AppendKeepsChain(cfg.crypto, cfg.signer, cfg.Keys(), v.log, v.rec.actionId, actor, v.clock, payload);
  }

  lemma ReplayExtends(id: Id, log: seq<Event>, e: Event)
    requires Replay(id, log).Some?
    requires e.ActionId() == id && (log == [] || log[|log| - 1].RecordedAt() <= e.RecordedAt())
    ensures var path := Replay(id, log).value;
            Replay(id, log + [e]) ==
              match e.Payload()
              case StateTransition(from, to, _, _) =>
                if from == path[|path| - 1] && Allowed(from, to) then Some(path + [to]) else None
              case _ => Some(path)
  {
    assert (log + [e])[..|log|] == log;
  }

  /** `Times(log, s)` counts the entries of a replayed log into a state. */
  function Times(id: Id, log: seq<Event>, s: State): nat {
    match Replay(id, log) case Some(path) => multiset(path)[s] case None => 0
  }

  ghost predicate LogSound(cfg: Config, rec: Record, log: seq<Event>, clock: Time) {
    && StartsWith(log, rec.actionDigest)
    && log[0].Payload().actionType == ActionTypeOf(rec.proposal.parameters)
    && ChainValid(cfg.crypto, cfg.Keys(), log)
    && (forall e <- log :: e.ActionId() == rec.actionId)
    && log[|log| - 1].RecordedAt() <= clock
    && Replay(rec.actionId, log).Some?
  }

  /** The entry an append makes, over a sound log: chained, one action, and no later than the clock. */
  lemma AppendChains(cfg: Config, v: View, actor: string, payload: Payload)
    requires SoundSignatures(cfg.crypto)
    requires LogSound(cfg, v.rec, v.log, v.clock)
    ensures var log := Extended(cfg, v, actor, payload);
            && ChainValid(cfg.crypto, cfg.Keys(), log)
            && (forall e <- log :: e.ActionId() == v.rec.actionId)
            && |log| == |v.log| + 1 && log[0] == v.log[0]
            && StartsWith(log, v.rec.actionDigest)
            && v.log[|v.log| - 1].RecordedAt() <= log[|v.log|].RecordedAt() == v.clock
            && log[|v.log|].Payload() == payload && log[|v.log|].ActionId() == v.rec.actionId
            && log == v.log + [log[|v.log|]]
  {
    hide ChainValid, Replay;
    ChainExtends(cfg, v, actor, payload);
  }

  /** One more entry counts once, for the state it leads into. */
  lemma EntryIsCounted(id: Id, log: seq<Event>, e: Event)
    requires Replay(id, log).Some? && e.ActionId() == id
    requires log == [] || log[|log| - 1].RecordedAt() <= e.RecordedAt()
    requires e.Payload().StateTransition? ==>
             e.Payload().from == LastState(log) && Allowed(e.Payload().from, e.Payload().to)
    ensures Replay(id, log + [e]).Some?
    ensures LastState(log + [e]) == if e.Payload().StateTransition? then e.Payload().to else LastState(log)
    ensures forall s :: Times(id, log + [e], s) ==
              Times(id, log, s) + if e.Payload().StateTransition? && e.Payload().to == s then 1 else 0
  {
    hide Replay, LastState, Allowed;
    ReplayReachesLastState(id, log);
    ReplayExtends(id, log, e);
    ReplayReachesLastState(id, log + [e]);
  }

  lemma AppendKeepsLogSound(cfg: Config, v: View, actor: string, payload: Payload)
    requires SoundSignatures(cfg.crypto)
    requires LogSound(cfg, v.rec, v.log, v.clock) && v.rec.state == LastState(v.log)
    requires payload.StateTransition? ==> payload.from == v.rec.state && Allowed(v.rec.state, payload.to)
    ensures var log := Extended(cfg, v, actor, payload);
            && LogSound(cfg, v.rec, log, v.clock)
            && LastState(log) == (if payload.StateTransition? then payload.to else v.rec.state)
            && (forall s :: Times(v.rec.actionId, log, s) ==
                  Times(v.rec.actionId, v.log, s) + if payload.StateTransition? && payload.to == s then 1 else 0)
  {
    hide ChainValid, Replay, NextEvent, Extended, LastState, Times, Allowed;
    AppendChains(cfg, v, actor, payload);
    EntryIsCounted(v.rec.actionId, v.log, Extended(cfg, v, actor, payload)[|v.log|]);
  }

  // ----- One step -----

  predicate IsGrant(step: Step) { step.Authorized? || step.Reserved? || step.Permitted? }

  lemma MovedNeeds(s: State, t: State)
    requires Allowed(s, t) && t !in {AUTHORIZED, DENIED, RECOURSE_RESERVED, PERMITTED} && s != AUTHORIZED
    ensures s != PROPOSED && t != PROPOSED
    ensures NeedsReservation(s) && NeedsReservation(t)
    ensures NeedsPermit(t) ==> NeedsPermit(s)
  {
  }

  lemma StateChangeKeepsRecord(cfg: Config, r: Record, s: Record)
    requires RecordOk(cfg, r)
    requires s == r.(state := s.state, permitUses := s.permitUses, remedyAttempts := s.remedyAttempts,
             receipt := s.receipt)
    requires r.state != PROPOSED && s.state != PROPOSED && s.state != RECOURSE_RESERVED
    requires NeedsReservation(r.state) && NeedsReservation(s.state)
    requires NeedsPermit(s.state) ==> NeedsPermit(r.state)
    ensures RecordOk(cfg, s)
  {
  }

  lemma MoveKeepsRecord(cfg: Config, v: View, step: Step)
    requires RecordOk(cfg, v.rec) && (step.Move? || step.Settles?)
    requires Allowed(v.rec.state, Target(step).value) && v.rec.state != AUTHORIZED
    requires Target(step).value !in {AUTHORIZED, DENIED, RECOURSE_RESERVED, PERMITTED}
    ensures RecordOk(cfg, Apply(cfg, v, step).rec)
  {
    hide NextEvent, MakeReceipt, RecordOk;
    MovedNeeds(v.rec.state, Target(step).value);
    StateChangeKeepsRecord(cfg, v.rec, Apply(cfg, v, step).rec);
  }

  lemma GrantKeepsRecord(cfg: Config, v: View, step: Step)
    requires RecordOk(cfg, v.rec) && Enabled(cfg, v, step) && IsGrant(step)
    ensures RecordOk(cfg, Apply(cfg, v, step).rec)
  {
    hide Apply, RecordOk, ReservationGood, PermitGood;
    GrantChanges(cfg, v, step);
    var rec := Apply(cfg, v, step).rec;
    match step {
      case Authorized(a) => AuthorizationKeepsRecord(cfg, v.rec, rec, a);
      case Reserved(r, key) => ReservationKeepsRecord(cfg, v.rec, rec, r, key);
      case Permitted(p, _) => PermitKeepsRecord(cfg, v.rec, rec, p);
    }
  }

  lemma GrantChanges(cfg: Config, v: View, step: Step)
    requires IsGrant(step)
    ensures Apply(cfg, v, step).rec ==
              match step
              case Authorized(a) => v.rec.(state := if a.allow then AUTHORIZED else DENIED, authorization := Some(a))
              case Reserved(r, key) => v.rec.(state := RECOURSE_RESERVED, reservation := Some(r), remedyKey := key)
              case Permitted(p, _) => v.rec.(state := PERMITTED, permit := Some(p))
              case _ => v.rec
  {
    hide Apply, DigestReservation, DigestCommitment, DigestPermit;
    StepAppends(cfg, v, step);
  }

  lemma AuthorizationKeepsRecord(cfg: Config, r: Record, s: Record, a: Authorization)
    requires RecordOk(cfg, r) && r.state == PROPOSED
    requires s == r.(state := if a.allow then AUTHORIZED else DENIED, authorization := Some(a))
    ensures RecordOk(cfg, s)
  {
    hide ReservationGood, PermitGood;
  }

  lemma ReservationKeepsRecord(cfg: Config, r: Record, s: Record, reservation: Reservation, key: string)
    requires RecordOk(cfg, r) && r.state == AUTHORIZED && r.reservation.None? && ReservationGood(cfg, r, reservation)
    requires s == r.(state := RECOURSE_RESERVED, reservation := Some(reservation), remedyKey := key)
    ensures RecordOk(cfg, s)
  {
    hide ReservationGood, PermitGood;
    ReservationStaysGood(cfg, r, s, reservation);
  }

  lemma ReservationStaysGood(cfg: Config, r: Record, s: Record, reservation: Reservation)
    requires ReservationGood(cfg, r, reservation) && r.actionDigest == s.actionDigest && r.proposal == s.proposal
    ensures ReservationGood(cfg, s, reservation)
  {
    hide CheckSignature, MakeSignature, ScopeCovers, ScopeShape;
  }

  lemma PermitKeepsRecord(cfg: Config, r: Record, s: Record, p: Permit)
    requires RecordOk(cfg, r) && r.state == RECOURSE_RESERVED && r.reservation.Some? && r.authorization.Some?
    requires PermitGood(cfg, r, r.reservation.value, p)
    requires r.authorization.value.requirePreflight ==> r.preflight.Some?
    requires s == r.(state := PERMITTED, permit := Some(p))
    ensures RecordOk(cfg, s)
  {
    hide ReservationGood, PermitGood;
    ReservationStaysGood(cfg, r, s, r.reservation.value);
    PermitStaysGood(cfg, r, s, p);
  }

  lemma PermitStaysGood(cfg: Config, r: Record, s: Record, p: Permit)
    requires r.reservation.Some? && PermitGood(cfg, r, r.reservation.value, p)
    requires s == r.(state := PERMITTED, permit := Some(p))
    ensures PermitGood(cfg, s, r.reservation.value, p)
  {
  }

  lemma OtherStepKeepsRecord(cfg: Config, v: View, step: Step)
    requires RecordOk(cfg, v.rec) && Enabled(cfg, v, step) && !IsGrant(step) && !step.Move? && !step.Settles?
    ensures RecordOk(cfg, Apply(cfg, v, step).rec)
  {
    hide NextEvent, RecordOk;
    OtherFieldsKeepRecord(cfg, v.rec, Apply(cfg, v, step).rec);
  }

  lemma OtherFieldsKeepRecord(cfg: Config, r: Record, s: Record)
    requires RecordOk(cfg, r)
    requires s == r.(evidence := s.evidence, preflight := s.preflight, recourseRecorded := s.recourseRecorded)
    requires r.preflight.Some? ==> s.preflight.Some?
    requires s.recourseRecorded.Some? ==> r.recourseRecorded.Some? || r.reservation.Some?
    ensures RecordOk(cfg, s)
  {
  }

  lemma StepKeepsRecord(cfg: Config, v: View, step: Step)
    requires RecordOk(cfg, v.rec) && Enabled(cfg, v, step)
    ensures RecordOk(cfg, Apply(cfg, v, step).rec)
  {
    if step.Move? || step.Settles? {
      MoveKeepsRecord(cfg, v, step);
    } else if IsGrant(step) {
      GrantKeepsRecord(cfg, v, step);
    } else {
      OtherStepKeepsRecord(cfg, v, step);
    }
  }

  /** What any step does to the state, the counters and the log. */
  ghost predicate StepRelation(cfg: Config, v: View, w: View, event: Option<(string, Payload)>, target: Option<State>) {
    && w.clock == v.clock
    && w.rec.actionId == v.rec.actionId && w.rec.actionDigest == v.rec.actionDigest && w.rec.proposal == v.rec.proposal
    && w.rec.state == (if target.Some? then target.value else v.rec.state)
    && w.rec.permitUses == v.rec.permitUses + (if target == Some(EXECUTING) then 1 else 0)
    && w.rec.remedyAttempts == v.rec.remedyAttempts + (if target == Some(REMEDIATING) then 1 else 0)
    && w.log == (if event.Some? then Extended(cfg, v, event.value.0, event.value.1) else v.log)
    && (event.Some? ==> (event.value.1.StateTransition? <==> target.Some?))
    && (target.Some? ==> event.Some? && event.value.1.from == v.rec.state && event.value.1.to == target.value)
  }

  predicate Reports(step: Step) {
    step.AcceptedPreflight? || step.AcceptedEvidence? || step.RejectedEvidence? || step.RecordedRecourse?
  }

  lemma MovesRelate(cfg: Config, v: View, step: Step)
    requires step.Move?
    ensures StepRelation(cfg, v, Apply(cfg, v, step), StepEvent(cfg.crypto, v.rec, step), Target(step))
  {
    hide NextEvent, DigestDetails;
  }

  lemma SettlingRelates(cfg: Config, v: View, step: Step)
    requires step.Settles?
    ensures StepRelation(cfg, v, Apply(cfg, v, step), StepEvent(cfg.crypto, v.rec, step), Target(step))
  {
    hide NextEvent, DigestDetails, MakeReceipt, CanSettle, SettlementReason;
  }

  lemma GrantsRelate(cfg: Config, v: View, step: Step)
    requires IsGrant(step)
    ensures StepRelation(cfg, v, Apply(cfg, v, step), StepEvent(cfg.crypto, v.rec, step), Target(step))
  {
    hide NextEvent, DigestDetails, DigestReservation, DigestCommitment, DigestPermit;
  }

  lemma ReportsRelate(cfg: Config, v: View, step: Step)
    requires Reports(step)
    ensures StepRelation(cfg, v, Apply(cfg, v, step), StepEvent(cfg.crypto, v.rec, step), Target(step))
  {
    hide NextEvent, DigestEvidence, CommitmentDigestOf;
  }

  lemma CallsRelate(cfg: Config, v: View, step: Step)
    requires Suspended(step).Some?
    ensures StepRelation(cfg, v, Apply(cfg, v, step), StepEvent(cfg.crypto, v.rec, step), Target(step))
  {
  }

  lemma StepsRelate(cfg: Config, v: View, step: Step)
    ensures StepRelation(cfg, v, Apply(cfg, v, step), StepEvent(cfg.crypto, v.rec, step), Target(step))
  {
    hide Apply, StepEvent, Target, StepRelation;
    if step.Move? {
      MovesRelate(cfg, v, step);
    } else if step.Settles? {
      SettlingRelates(cfg, v, step);
    } else if IsGrant(step) {
      GrantsRelate(cfg, v, step);
    } else if Reports(step) {
      ReportsRelate(cfg, v, step);
    } else {
      CallsRelate(cfg, v, step);
    }
  }

  ghost predicate ReplayAgrees(cfg: Config, v: View) {
    && LogSound(cfg, v.rec, v.log, v.clock)
    && v.rec.state == LastState(v.log)
    && v.rec.permitUses == Times(v.rec.actionId, v.log, EXECUTING)
    && v.rec.remedyAttempts == Times(v.rec.actionId, v.log, REMEDIATING)
  }

  lemma RelationKeepsReplay(cfg: Config, v: View, w: View, event: Option<(string, Payload)>, target: Option<State>)
    requires SoundSignatures(cfg.crypto)
    requires StepRelation(cfg, v, w, event, target)
    requires ReplayAgrees(cfg, v)
    requires target.Some? ==> Allowed(v.rec.state, target.value)
    ensures ReplayAgrees(cfg, w)
  {
    hide LastState, Times, Extended, Allowed, ChainValid, Replay;
    if event.Some? {
      AppendKeepsLogSound(cfg, v, event.value.0, event.value.1);
    }
  }

  lemma StepKeepsReceipt(cfg: Config, v: View, step: Step)
    requires v.rec.receipt.Some? <==> v.rec.state == CLOSED
    requires Target(step).Some? ==> v.rec.state != CLOSED
    requires Target(step) == Some(CLOSED) ==>
      step.Settles? && v.rec.reservation.Some? && v.rec.permit.Some? && v.rec.recourseRecorded.Some?
    ensures var w := Apply(cfg, v, step); w.rec.receipt.Some? <==> w.rec.state == CLOSED
  {
  }

  /** The parts of a record its log restates besides the state and the counters. */
  predicate SameRecorded(r: Record, s: Record) {
    && r.evidence == s.evidence && r.recourseRecorded == s.recourseRecorded && r.permitUses == s.permitUses
    && (r.permit == s.permit || r.permit.None?)
    && (r.reservation == s.reservation || r.recourseRecorded.None?)
  }

  lemma QuietEventKeepsRecorded(cfg: Config, v: View, w: View, e: Event)
    requires RecordedAgrees(cfg, v) && SameRecorded(v.rec, w.rec) && w.log == v.log + [e]
    requires !e.Payload().EvidenceAccepted? && !e.Payload().RemedyEvidenceAccepted? && !IsRecourseEvent(e)
    requires !TransitionTo(EXECUTING)(e)
    ensures RecordedAgrees(cfg, w)
  {
    FoldsExtend(v.log, e);
  }

  lemma ExecutionKeepsRecorded(cfg: Config, v: View, w: View, e: Event)
    requires RecordedAgrees(cfg, v) && w.log == v.log + [e] && TransitionTo(EXECUTING)(e)
    requires w.rec.permitUses == v.rec.permitUses + 1
    requires SameRecorded(v.rec.(permitUses := w.rec.permitUses), w.rec)
    requires w.rec.permit.Some?
    requires w.rec.permit.value.body.issuedAt <= e.RecordedAt() < w.rec.permit.value.body.expiresAt
    requires v.rec.permit == w.rec.permit
    ensures RecordedAgrees(cfg, w)
  {
    FoldsExtend(v.log, e);
  }

  lemma EvidenceKeepsRecorded(cfg: Config, v: View, evidence: Evidence)
    requires RecordedAgrees(cfg, v)
    ensures RecordedAgrees(cfg, Apply(cfg, v, AcceptedEvidence(evidence)))
  {
    hide Apply, DigestEvidence, RecordedAgrees;
    var w := Apply(cfg, v, AcceptedEvidence(evidence));
    StepAppends(cfg, v, AcceptedEvidence(evidence));
    EvidenceEventKeepsRecorded(cfg, v, w, w.log[|v.log|], evidence);
  }

  lemma EvidenceEventKeepsRecorded(cfg: Config, v: View, w: View, e: Event, evidence: Evidence)
    requires RecordedAgrees(cfg, v)
    requires w.log == v.log + [e] && w.rec == v.rec.(evidence := v.rec.evidence + [evidence])
    requires var p := e.Payload();
             || (p.EvidenceAccepted? && p.evidence == DigestEvidence(cfg.crypto, evidence))
             || (p.RemedyEvidenceAccepted? && p.evidence == DigestEvidence(cfg.crypto, evidence))
    ensures RecordedAgrees(cfg, w)
  {
    hide DigestEvidence;
    FoldsExtend(v.log, e);
    assert EvidenceDigests(cfg.crypto, w.rec.evidence) == EvidenceDigests(cfg.crypto, v.rec.evidence)
      + [DigestEvidence(cfg.crypto, evidence)];
  }

  lemma RecourseKeepsRecorded(cfg: Config, v: View, status: RecourseStatus, reason: string)
    requires RecordedAgrees(cfg, v) && v.rec.recourseRecorded.None?
    ensures RecordedAgrees(cfg, Apply(cfg, v, RecordedRecourse(status, reason)))
  {
    hide Apply, RecordedAgrees;
    var w := Apply(cfg, v, RecordedRecourse(status, reason));
    StepAppends(cfg, v, RecordedRecourse(status, reason));
    RecourseEventKeepsRecorded(cfg, v, w, w.log[|v.log|], status, reason);
  }

  lemma RecourseEventKeepsRecorded(cfg: Config, v: View, w: View, e: Event, status: RecourseStatus, reason: string)
    requires RecordedAgrees(cfg, v) && v.rec.recourseRecorded.None?
    requires w.log == v.log + [e] && w.rec == v.rec.(recourseRecorded := Some(status))
    requires e.Payload() == RecoursePayload(cfg.crypto, v.rec, status, reason)
    ensures RecordedAgrees(cfg, w)
  {
    hide EvidenceDigests;
    FoldsExtend(v.log, e);
  }

  predicate IsQuiet(step: Step) {
    && !(step.Move? && step.to == EXECUTING) && !step.AcceptedEvidence? && !step.RecordedRecourse?
  }

  lemma QuietStep(cfg: Config, v: View, step: Step)
    requires IsQuiet(step)
    requires step.Reserved? ==> v.rec.recourseRecorded.None?
    requires step.Permitted? ==> v.rec.permit.None?
    ensures var w := Apply(cfg, v, step);
            && SameRecorded(v.rec, w.rec)
            && (StepEvent(cfg.crypto, v.rec, step).Some? ==>
                  && |w.log| == |v.log| + 1 && w.log == v.log + [w.log[|v.log|]]
                  && var payload := w.log[|v.log|].Payload();
                  && !payload.EvidenceAccepted? && !payload.RemedyEvidenceAccepted?
                  && !payload.RecourseFinalized? && !payload.RecourseStatusRecorded?
                  && !(payload.StateTransition? && payload.to == EXECUTING))
            && (StepEvent(cfg.crypto, v.rec, step).None? ==> w.log == v.log)
  {
  }

  /** The recourse payload speaks about a commitment that no later step replaces. */
  lemma StepKeepsRecorded(cfg: Config, v: View, step: Step)
    requires RecordedAgrees(cfg, v)
    requires step.Reserved? ==> v.rec.recourseRecorded.None?
    requires step.Permitted? ==> v.rec.permit.None?
    requires step.RecordedRecourse? ==> v.rec.recourseRecorded.None?
    requires step.Move? && step.to == EXECUTING ==>
      v.rec.permit.Some? && v.rec.permit.value.body.issuedAt <= v.clock < v.rec.permit.value.body.expiresAt
    ensures RecordedAgrees(cfg, Apply(cfg, v, step))
  {
    var w := Apply(cfg, v, step);
    if IsQuiet(step) {
      QuietStep(cfg, v, step);
      if StepEvent(cfg.crypto, v.rec, step).Some? {
        QuietEventKeepsRecorded(cfg, v, w, w.log[|v.log|]);
      }
    } else if step.AcceptedEvidence? {
      EvidenceKeepsRecorded(cfg, v, step.evidence);
    } else if step.RecordedRecourse? {
      RecourseKeepsRecorded(cfg, v, step.status, step.reason);
    } else {
      ExecutionKeepsRecorded(cfg, v, w, w.log[|v.log|]);
    }
  }

  ghost predicate LogStepOk(v: View, step: Step) {
    && (Target(step).Some? ==> Allowed(v.rec.state, Target(step).value) && v.rec.state != CLOSED)
    && (Target(step) == Some(CLOSED) ==>
          step.Settles? && v.rec.reservation.Some? && v.rec.permit.Some? && v.rec.recourseRecorded.Some?)
    && (step.Reserved? ==> v.rec.recourseRecorded.None?)
    && (step.Permitted? ==> v.rec.permit.None?)
    && (step.RecordedRecourse? ==> v.rec.recourseRecorded.None?)
    && (step.Move? && step.to == EXECUTING ==>
          v.rec.permit.Some? && v.rec.permit.value.body.issuedAt <= v.clock < v.rec.permit.value.body.expiresAt)
  }

  lemma EnabledIsLogStepOk(cfg: Config, v: View, step: Step)
    requires RecordOk(cfg, v.rec) && Enabled(cfg, v, step)
    ensures LogStepOk(v, step)
  {
  }

  lemma StepKeepsLog(cfg: Config, v: View, step: Step)
    requires SoundSignatures(cfg.crypto)
    requires LogAgrees(cfg, v) && LogStepOk(v, step)
    ensures LogAgrees(cfg, Apply(cfg, v, step))
  {
    var w := Apply(cfg, v, step);
    StepsRelate(cfg, v, step);
    RelationKeepsReplay(cfg, v, w, StepEvent(cfg.crypto, v.rec, step), Target(step));
    StepKeepsReceipt(cfg, v, step);
    StepKeepsRecorded(cfg, v, step);
    AgreementAssembles(cfg, w);
  }

  lemma AgreementAssembles(cfg: Config, v: View)
    requires ReplayAgrees(cfg, v) && RecordedAgrees(cfg, v)
    requires v.rec.receipt.Some? <==> v.rec.state == CLOSED
    ensures LogAgrees(cfg, v)
  {
  }

  /** The fields a recorded call vouches for. */
  predicate SameGrants(r: Record, s: Record) {
    && r.actionDigest == s.actionDigest && r.proposal == s.proposal
    && r.permit == s.permit && r.reservation == s.reservation && r.authorization == s.authorization
    && r.remedyKey == s.remedyKey
  }

  lemma CalledMeansGranted(cfg: Config, v: View)
    requires CallsOk(cfg, v)
    ensures v.executeCalls != [] ==> v.rec.permit.Some? && v.rec.reservation.Some? && v.rec.authorization.Some?
    ensures v.remediateCalls != [] ==> v.rec.reservation.Some?
  {
    if v.executeCalls != [] {
      assert Covered(cfg, v.rec, v.executeCalls[0]);
    }
    if v.remediateCalls != [] {
      assert v.rec.reservation == Some(v.remediateCalls[0].reservation);
    }
  }

  lemma GrantComesBeforeCalls(cfg: Config, v: View, step: Step)
    requires RecordOk(cfg, v.rec) && CallsOk(cfg, v) && Enabled(cfg, v, step) && IsGrant(step)
    ensures v.executeCalls == [] && (step.Reserved? ==> v.remediateCalls == [])
    ensures v.rec.state != DENIED && (step.Authorized? ==> v.rec.authorization.None?)
  {
    CalledMeansGranted(cfg, v);
  }

  lemma GrantKeepsCalls(cfg: Config, v: View, step: Step)
    requires CallsOk(cfg, v) && IsGrant(step)
    requires v.executeCalls == [] && (step.Reserved? ==> v.remediateCalls == [])
    requires v.rec.state != DENIED
    requires step.Permitted? ==> step.permit.body.issuedAt <= v.clock
    ensures CallsOk(cfg, Apply(cfg, v, step))
  {
  }

  lemma OtherStepKeepsCalls(cfg: Config, v: View, step: Step)
    requires CallsOk(cfg, v) && Enabled(cfg, v, step) && !IsGrant(step)
    ensures CallsOk(cfg, Apply(cfg, v, step))
  {
    hide Apply, Covered;
    var w := Apply(cfg, v, step);
    if StepEvent(cfg.crypto, v.rec, step).Some? {
      StepAppends(cfg, v, step);
      EventKeepsCalls(cfg, v, w);
    } else {
      CallKeepsCalls(cfg, v, step);
    }
  }

  lemma EventKeepsCalls(cfg: Config, v: View, w: View)
    requires CallsOk(cfg, v) && w == v.(log := w.log, rec := w.rec) && SameGrants(v.rec, w.rec)
    requires w.rec.permitUses >= v.rec.permitUses && w.rec.remedyAttempts >= v.rec.remedyAttempts
    requires v.rec.state == DENIED ==> w.rec.state == DENIED
    ensures CallsOk(cfg, w)
  {
    hide Covered;
    forall call <- w.executeCalls ensures Covered(cfg, w.rec, call) {
      CoverStays(cfg, v.rec, w.rec, call);
    }
  }

  lemma CallKeepsCalls(cfg: Config, v: View, step: Step)
    requires CallsOk(cfg, v) && Enabled(cfg, v, step) && StepEvent(cfg.crypto, v.rec, step).None?
    ensures CallsOk(cfg, Apply(cfg, v, step))
  {
    hide Covered;
  }

  lemma CoverStays(cfg: Config, r: Record, s: Record, call: ExecuteCall)
    requires SameGrants(r, s) && Covered(cfg, r, call)
    ensures Covered(cfg, s, call)
  {
  }

  lemma StepKeepsCalls(cfg: Config, v: View, step: Step)
    requires RecordOk(cfg, v.rec) && CallsOk(cfg, v) && Enabled(cfg, v, step)
    ensures CallsOk(cfg, Apply(cfg, v, step))
  {
    if IsGrant(step) {
      GrantComesBeforeCalls(cfg, v, step);
      GrantKeepsCalls(cfg, v, step);
    } else {
      OtherStepKeepsCalls(cfg, v, step);
    }
  }

  lemma StepKeepsCore(cfg: Config, v: View, step: Step)
    requires SoundSignatures(cfg.crypto)
    requires Core(cfg, v) && Enabled(cfg, v, step)
    ensures Core(cfg, Apply(cfg, v, step))
  {
    StepKeepsRecord(cfg, v, step);
    EnabledIsLogStepOk(cfg, v, step);
    StepKeepsLog(cfg, v, step);
    StepKeepsCalls(cfg, v, step);
  }

  // ----- One step of a run in which no observation comes too late -----

  lemma StepKeepsPending(cfg: Config, v: View, step: Step)
    requires PendingFits(v) && LeavesAwaited(v, step)
    ensures PendingFits(Apply(cfg, v, step))
  {
    hide Awaited, NextEvent, MakeReceipt;
  }

  lemma StepKeepsTimes(cfg: Config, v: View, step: Step)
    requires TimesFit(v) && EnabledOrderly(cfg, v, step)
    requires step.Permitted? ==> v.rec.reservation.Some?
    ensures TimesFit(Apply(cfg, v, step))
  {
    hide NextEvent, MakeReceipt;
  }

  /** A step that closes leaves the deciding state where it was. */
  lemma DecidingAfter(cfg: Config, v: View, step: Step)
    requires v.rec.state == LastState(v.log)
    requires v.rec.state != CLOSED
    ensures var w := Apply(cfg, v, step);
            Deciding(w) == if step.Settles? then v.rec.state
                           else if Target(step).Some? && Target(step) != Some(CLOSED) then Target(step).value
                           else if Target(step).None? then v.rec.state
                           else Deciding(w)
  {
    var w := Apply(cfg, v, step);
    if StepEvent(cfg.crypto, v.rec, step).Some? {
      assert w.log[..|v.log|] == v.log;
    }
  }

  lemma InitialAcceptanceIsRecorded(cfg: Config, v: View, e: Evidence)
    requires AcceptancesMatch(cfg, v)
    requires Fresh(v.rec.proposal, e, v.clock)
    requires e.body.phase == Initial && LastState(v.log) == VERIFYING && v.rec.evidence == []
    ensures AcceptancesMatch(cfg, Apply(cfg, v, AcceptedEvidence(e)))
  {
    hide Apply, DigestEvidence, LastState, Accepts, DigestCommitment, DigestPermit, CanSettle, DigestReservation;
    var w := Apply(cfg, v, AcceptedEvidence(e));
    StepAppends(cfg, v, AcceptedEvidence(e));
    AcceptsExtend(v.log, w.log[|v.log|], Initial);
    AcceptsExtend(v.log, w.log[|v.log|], PostRemedy);
  }

  lemma RemedyAcceptanceIsRecorded(cfg: Config, v: View, e: Evidence)
    requires AcceptancesMatch(cfg, v)
    requires Fresh(v.rec.proposal, e, v.clock)
    requires e.body.phase == PostRemedy && LastState(v.log) == REMEDY_VERIFYING && |v.rec.evidence| == 1
    ensures AcceptancesMatch(cfg, Apply(cfg, v, AcceptedEvidence(e)))
  {
    hide Apply, DigestEvidence, LastState, MakeReceipt, Accepts, DigestReservation;
    var w := Apply(cfg, v, AcceptedEvidence(e));
    StepAppends(cfg, v, AcceptedEvidence(e));
    AcceptsExtend(v.log, w.log[|v.log|], Initial);
    AcceptsExtend(v.log, w.log[|v.log|], PostRemedy);
    assert w.rec.evidence[0] == v.rec.evidence[0] && w.rec.evidence[1] == e;
  }

  lemma OtherEventsAcceptNothing(cfg: Config, v: View, step: Step)
    requires AcceptancesMatch(cfg, v) && !step.AcceptedEvidence?
    ensures AcceptancesMatch(cfg, Apply(cfg, v, step))
  {
    hide Accepts, LastState, DigestEvidence, Fresh, StepEvent;
    var w := Apply(cfg, v, step);
    StepsRelate(cfg, v, step);
    NotAnAcceptance(cfg.crypto, v.rec, step);
    assert w.rec.evidence == v.rec.evidence && w.rec.proposal == v.rec.proposal;
    if StepEvent(cfg.crypto, v.rec, step).Some? {
      AcceptsExtend(v.log, w.log[|v.log|], Initial);
      AcceptsExtend(v.log, w.log[|v.log|], PostRemedy);
    }
  }

  lemma NotAnAcceptance(c: Crypto, rec: Record, step: Step)
    requires !step.AcceptedEvidence?
    ensures StepEvent(c, rec, step).Some? ==>
      !StepEvent(c, rec, step).value.1.EvidenceAccepted? && !StepEvent(c, rec, step).value.1.RemedyEvidenceAccepted?
  {
  }

  predicate SameEvidenceGrounds(r: Record, s: Record) { r.actionDigest == s.actionDigest && r.proposal == s.proposal }

  lemma EvidenceStaysGood(cfg: Config, r: Record, s: Record, es: seq<Evidence>)
    requires SameEvidenceGrounds(r, s)
    requires forall e <- es :: EvidenceGood(cfg, r, e)
    ensures forall e <- es :: EvidenceGood(cfg, s, e)
  {
  }

  lemma EvidenceFitsAfter(cfg: Config, v: View, step: Step)
    requires EvidenceFits(v.rec.state, v.rec.evidence) && EnabledOrderly(cfg, v, step)
    requires v.rec.state == LastState(v.log) && v.rec.state != CLOSED
    requires Target(step) == Some(CLOSED) ==> step.Settles?
    ensures var w := Apply(cfg, v, step); EvidenceFits(Deciding(w), w.rec.evidence)
  {
    hide LeavesAwaited, EvidenceGood, Fresh, Deciding, LastState;
    DecidingAfter(cfg, v, step);
  }

  lemma StepKeepsEvidence(cfg: Config, v: View, step: Step)
    requires EvidenceSound(cfg, v) && EnabledOrderly(cfg, v, step)
    requires v.rec.state == LastState(v.log) && v.rec.state != CLOSED
    requires Target(step) == Some(CLOSED) ==> step.Settles?
    ensures EvidenceSound(cfg, Apply(cfg, v, step))
  {
    EvidenceFitsAfter(cfg, v, step);
    if step.AcceptedEvidence? {
      NewEvidenceIsSound(cfg, v, step.evidence);
    } else {
      OtherEventsAcceptNothing(cfg, v, step);
      StepsRelate(cfg, v, step);
      EvidenceUntouched(cfg, v, step);
      EvidenceStaysGood(cfg, v.rec, Apply(cfg, v, step).rec, v.rec.evidence);
    }
  }

  lemma EvidenceUntouched(cfg: Config, v: View, step: Step)
    requires !step.AcceptedEvidence?
    ensures Apply(cfg, v, step).rec.evidence == v.rec.evidence
  {
  }

  lemma NewEvidenceIsSound(cfg: Config, v: View, e: Evidence)
    requires EvidenceSound(cfg, v) && EnabledOrderly(cfg, v, AcceptedEvidence(e)) && v.rec.state == LastState(v.log)
    ensures var w := Apply(cfg, v, AcceptedEvidence(e));
            AcceptancesMatch(cfg, w) && forall x <- w.rec.evidence :: EvidenceGood(cfg, w.rec, x)
  {
    var w := Apply(cfg, v, AcceptedEvidence(e));
    if e.body.phase == Initial {
      InitialAcceptanceIsRecorded(cfg, v, e);
    } else {
      RemedyAcceptanceIsRecorded(cfg, v, e);
    }
    EvidenceStaysGood(cfg, v.rec, w.rec, v.rec.evidence);
    EvidenceStaysGood(cfg, v.rec, w.rec, [e]);
    assert forall x <- w.rec.evidence :: x in v.rec.evidence || x in [e];
  }

  lemma SettlingClosesProperly(cfg: Config, v: View, o: Outcome)
    requires RecourseLast(cfg, v)
    requires v.rec.state == LastState(v.log) && OutcomeOf(v.rec.state) == Some(o)
    requires v.rec.recourseRecorded.Some? && v.rec.recourseRecorded.value != StatusUnknown
    requires v.rec.reservation.Some? && v.rec.permit.Some? && v.rec.receipt.None?
    ensures ClosedProperly(cfg, Apply(cfg, v, Settles(o)))
  {
    hide EvidenceDigests, Deciding, MakeReceipt, MakeSignature, Moved;
    var w := Apply(cfg, v, Settles(o));
    DecidingAfter(cfg, v, Settles(o));
    assert w.rec.(receipt := None) == v.rec.(state := CLOSED);
  }

  lemma StepKeepsRecourseLast(cfg: Config, v: View, step: Step)
    requires RecourseLast(cfg, v) && EnabledOrderly(cfg, v, step)
    requires v.rec.state == LastState(v.log) && v.rec.state != CLOSED && v.rec.receipt.None?
    requires Target(step) == Some(CLOSED) ==> step.Settles?
    requires step.Settles? ==>
      && OutcomeOf(v.rec.state) == Some(step.outcome) && v.rec.recourseRecorded.Some?
      && v.rec.reservation.Some? && v.rec.permit.Some?
    ensures RecourseLast(cfg, Apply(cfg, v, step))
  {
    hide Apply, ClosedProperly, LeavesAwaited, EvidenceGood, EvidenceFits, Fresh, MakeReceipt, LastState;
    if step.Settles? {
      SettlingClosesProperly(cfg, v, step.outcome);
      StepAppends(cfg, v, step);
    } else if StepEvent(cfg.crypto, v.rec, step).Some? {
      EventKeepsRecourseLast(cfg, v, step);
    } else {
      StepsRelate(cfg, v, step);
      QuietStep(cfg, v, step);
    }
  }

  /** Nothing but the recourse event itself is recorded between a decision and CLOSED. */
  lemma EventKeepsRecourseLast(cfg: Config, v: View, step: Step)
    requires RecourseLast(cfg, v) && EnabledOrderly(cfg, v, step) && StepEvent(cfg.crypto, v.rec, step).Some?
    requires v.rec.state != CLOSED && !step.Settles? && Target(step) != Some(CLOSED)
    ensures RecourseLast(cfg, Apply(cfg, v, step))
  {
    hide Apply, ClosedProperly, EvidenceFits, EvidenceGood, LeavesAwaited, Fresh;
    StepAppends(cfg, v, step);
  }

  /** No such step is taken behind CLOSED. */
  lemma NothingFollowsClosed(cfg: Config, v: View, step: Step)
    requires Enabled(cfg, v, step) && EnabledOrderly(cfg, v, step)
    ensures v.rec.state != CLOSED
    ensures Target(step) == Some(CLOSED) ==> step.Settles?
  {
    hide PreflightHolds, Awaited;
  }

  lemma StepKeepsOrder(cfg: Config, v: View, step: Step)
    requires Core(cfg, v) && Orderly(cfg, v) && Enabled(cfg, v, step) && EnabledOrderly(cfg, v, step)
    ensures Orderly(cfg, Apply(cfg, v, step))
  {
    hide Apply, StepEvent, EvidenceSound, CallsOk, ReservationGood, RecourseLast, AwaitingState, RecordOk, TimesFit;
    NothingFollowsClosed(cfg, v, step);
    EnabledIsLogStepOk(cfg, v, step);
    StepKeepsPending(cfg, v, step);
    StepKeepsTimes(cfg, v, step);
    StepKeepsEvidence(cfg, v, step);
    StepKeepsRecourseLast(cfg, v, step);
  }
}
