/** What a rail does when a refund processor answers it: every plan moves only to states that
    say the truth about what the processor has done for the action. */
module RefundTruth {
  import opened RailStates
  import opened Artifacts
  import opened RailModel

  /** What an execution key is bound to, from the point of view of one action. */
  datatype Effect = Unbound | ForeignEffect | NothingDone | Done
  /** The same for a remedy key. */
  datatype RemedyEffect = RemedyUnbound | ForeignRemedy | NotRemedied | Remedied

  datatype Truth = Truth(effect: Effect, remedy: RemedyEffect)

  predicate Bound(t: Truth) { t.effect == NothingDone || t.effect == Done }
  predicate RemedyBound(t: Truth) { t.remedy == NotRemedied || t.remedy == Remedied }

  /** What a state claims about the processor. */
  predicate Says(s: State, t: Truth) {
    match s
    case UNKNOWN => Bound(t)
    case FAILED => t.effect == ForeignEffect || t.effect == NothingDone
    case REMEDY_UNKNOWN => t.effect == Done && RemedyBound(t)
    case REMEDY_VERIFYING => t.effect == Done && t.remedy == Remedied
    case REMEDIATED => t.effect == Done && t.remedy == Remedied
    case REMEDY_INCONCLUSIVE => t.effect == Done && t.remedy == Remedied
    case REMEDY_FAILED => t.effect == Done && (t.remedy == ForeignRemedy || t.remedy == NotRemedied)
    case EXECUTED => t.effect == Done
    case VERIFYING => t.effect == Done
    case SATISFIED => t.effect == Done
    case BREACHED => t.effect == Done
    case INCONCLUSIVE => t.effect == Done
    case REMEDY_DUE => t.effect == Done
    case REMEDIATING => t.effect == Done
    case REVIEW_REQUIRED => t.effect == Done
    case CLOSED => t.effect == Done
    case _ => true
  }

  /** A step says the truth; what a receipt settles on included. */
  predicate StepSays(step: Step, t: Truth) {
    match step
    case Move(to, _, _) => Says(to, t)
    case Settles(o) => t.effect == Done && (o == Compensated ==> t.remedy == Remedied)
    case Calls(token) => AwaitSays(token, t)
    case CallsRemediate(_) => AwaitSays(RemediateReply, t)
    case _ => true
  }

  /** What awaiting a reply claims. */
  predicate AwaitSays(token: Token, t: Truth) {
    match token
    case ExecuteReply => true
    case StatusReply => Bound(t)
    case ObserveReply => t.effect == Done
    case RemediateReply => t.effect == Done
    case RemedyStatusReply => t.effect == Done && RemedyBound(t)
    case RemedyObserveReply => t.effect == Done && t.remedy == Remedied
  }

  predicate AllSay(steps: seq<Step>, t: Truth) { forall step <- steps :: StepSays(step, t) }

  predicate Tells(v: View, t: Truth) {
    && Says(v.rec.state, t)
    && (forall token <- v.pending :: AwaitSays(token, t))
    && (v.rec.receipt.Some? && v.rec.receipt.value.body.outcome == Compensated ==>
         t.effect == Done && t.remedy == Remedied)
  }

  lemma StepKeepsTelling(cfg: Config, v: View, step: Step, t: Truth)
    requires Tells(v, t) && StepSays(step, t)
    ensures Tells(Apply(cfg, v, step), t)
  {
  }

  lemma {:induction false} StepsKeepTelling(cfg: Config, v: View, steps: seq<Step>, t: Truth)
    requires Tells(v, t) && AllSay(steps, t)
    ensures Tells(ApplyAll(cfg, v, steps), t)
    decreases |steps|
  {
    if steps != [] {
      var n := |steps| - 1;
      StepsKeepTelling(cfg, v, steps[..n], t);
      StepKeepsTelling(cfg, ApplyAll(cfg, v, steps[..n]), steps[n], t);
    }
  }

  // ----- What a reply may claim -----

  /** An answer of the processor to a call of this action. */
  predicate ReplyTrue(token: Token, reply: ConnectorReply, key: string, t: Truth) {
    match token
    case ExecuteReply =>
      (match reply
       case Threw(IdempotencyConflict) => t.effect == ForeignEffect
       case Threw(InventoryInsufficient) => false
       case Threw(OtherFailure) => Bound(t)
       case Replied(status, _, _) => status == Executed && t.effect == Done)
    case StatusReply => reply.Replied? && reply.key == key &&
                        ((reply.status == Executed && t.effect == Done)
                          || (reply.status == NoEffect && t.effect == NothingDone))
    case RemediateReply =>
      (match reply
       case Threw(IdempotencyConflict) => t.remedy == ForeignRemedy
       case Threw(_) => RemedyBound(t)
       case Replied(status, _, _) => RemedyBound(t) && (status == Remediated <==> t.remedy == Remedied))
    case RemedyStatusReply =>
      reply.Replied? && reply.key == key && RemedyBound(t) && (reply.status == Remediated <==> t.remedy == Remedied)
    case _ => true
  }

  /** The key a token's call is made with. */
  function KeyOf(rec: Record, token: Token): string {
    if token == RemediateReply || token == RemedyStatusReply then rec.remedyKey else rec.proposal.idempotencyKey
  }

  // ----- Segment by segment -----

  lemma CloseSays(v: View, a: Answers, t: Truth)
    requires Says(v.rec.state, t)
    ensures AllSay(ClosePlan(v, a), t)
  {
  }

  lemma MoveAndCloseSays(cfg: Config, v: View, to: State, reason: string, details: Details, a: Answers, t: Truth)
    requires Says(to, t)
    ensures AllSay(MoveAndClose(cfg, v, to, reason, details, a), t)
  {
    CloseSays(Apply(cfg, v, Move(to, reason, details)), a, t);
  }

  lemma MoveAndFinalizeSays(cfg: Config, v: View, to: State, reason: string, details: Details, a: Answers, t: Truth)
    requires Says(to, t)
    ensures AllSay(MoveAndFinalize(cfg, v, to, reason, details, a), t)
  {
  }

  lemma ExecuteReplySays(cfg: Config, v: View, reply: ConnectorReply, refusal: Option<ErrorKind>, a: Answers, t: Truth)
    requires ReplyTrue(ExecuteReply, reply, v.rec.proposal.idempotencyKey, t)
    requires refusal == None || refusal == Some(OtherFailure)
    ensures AllSay(PlanExecuteReply(cfg, v, reply, refusal, a), t)
  {
    if reply.Threw? && reply.error != OtherFailure {
      MoveAndFinalizeSays(cfg, v, FAILED, ErrorCode(reply.error), KeyReference(cfg.crypto, v.rec), a, t);
    }
  }

  lemma StatusReplySays(cfg: Config, v: View, reply: ConnectorReply, a: Answers, t: Truth)
    requires ReplyTrue(StatusReply, reply, v.rec.proposal.idempotencyKey, t)
    ensures AllSay(PlanReconcileReply(cfg, v, reply, a), t)
  {
    if reply.status == NoEffect {
      MoveAndFinalizeSays(cfg, v, FAILED, "STATUS_CONFIRMED_NO_EFFECT", KeyReference(cfg.crypto, v.rec), a, t);
    }
  }

  lemma RejectionSays(cfg: Config, v: View, phase: Phase, code: string, a: Answers, t: Truth)
    requires t.effect == Done && (phase == PostRemedy ==> t.remedy == Remedied)
    ensures AllSay(RejectionPlan(cfg, v, phase, code, a), t)
  {
    var reject := RejectedEvidence(phase, code);
    MoveAndCloseSays(cfg, Apply(cfg, v, reject), if phase == PostRemedy then REMEDY_INCONCLUSIVE else INCONCLUSIVE,
      code, NoDetails, a, t);
  }

  lemma JudgementSays(cfg: Config, w: View, e: Evidence, a: Answers, t: Truth)
    requires t.effect == Done
    ensures AllSay(JudgementPlan(cfg, w, e, a), t)
  {
    hide MoveAndClose, DigestEvidence, Apply;
    MoveAndCloseSays(cfg, w, SATISFIED, "POSTCONDITION_SATISFIED", EvidenceDetails(DigestEvidence(cfg.crypto, e)), a,
      t);
  }

  lemma RemedyJudgementSays(cfg: Config, w: View, e: Evidence, a: Answers, t: Truth)
    requires t.effect == Done && t.remedy == Remedied
    ensures AllSay(RemedyJudgementPlan(cfg, w, e, a), t)
  {
    hide MoveAndClose, DigestEvidence, Apply;
    var details := EvidenceDetails(DigestEvidence(cfg.crypto, e));
    MoveAndCloseSays(cfg, w, REMEDIATED, "REMEDY_VERIFIED", details, a, t);
    MoveAndCloseSays(cfg, w, REMEDY_INCONCLUSIVE, "REMEDY_POSTCONDITION_UNRESOLVED", details, a, t);
  }

  lemma ObservedSays(cfg: Config, v: View, o: Observation, a: Answers, t: Truth)
    requires t.effect == Done
    ensures AllSay(PlanObserved(cfg, v, o, a), t)
  {
    match Assess(cfg, v.rec, v.clock, o, Initial) {
      case Unavailable => RejectionSays(cfg, v, Initial, "EVIDENCE_UNAVAILABLE", a, t);
      case RejectAs(code) => RejectionSays(cfg, v, Initial, code, a, t);
      case Accept(e) => JudgementSays(cfg, Apply(cfg, v, AcceptedEvidence(e)), e, a, t);
    }
  }

  lemma RemedyObservedSays(cfg: Config, v: View, o: Observation, a: Answers, t: Truth)
    requires t.effect == Done && t.remedy == Remedied
    ensures AllSay(PlanRemedyObserved(cfg, v, o, a), t)
  {
    match Assess(cfg, v.rec, v.clock, o, PostRemedy) {
      case Unavailable => RejectionSays(cfg, v, PostRemedy, "REMEDY_EVIDENCE_UNAVAILABLE", a, t);
      case RejectAs(code) => RejectionSays(cfg, v, PostRemedy, code, a, t);
      case Accept(e) => RemedyJudgementSays(cfg, Apply(cfg, v, AcceptedEvidence(e)), e, a, t);
    }
  }

  lemma RemediateReplySays(cfg: Config, v: View, reply: ConnectorReply, a: Answers, t: Truth)
    requires t.effect == Done && ReplyTrue(RemediateReply, reply, v.rec.remedyKey, t)
    ensures AllSay(PlanRemediateReply(cfg, v, reply, a), t)
  {
    var key := RemedyKeyReference(cfg.crypto, v.rec);
    if reply == Threw(IdempotencyConflict) {
      MoveAndCloseSays(cfg, v, REMEDY_FAILED, "IDEMPOTENCY_CONFLICT", key, a, t);
    } else if reply.Replied? && reply.status != Remediated {
      MoveAndCloseSays(cfg, v, REMEDY_FAILED, "REMEDY_CONNECTOR_FAILED", ResultDetails(ResultName(reply.status)), a, t);
    }
  }

  lemma RemedyStatusReplySays(cfg: Config, v: View, reply: ConnectorReply, a: Answers, t: Truth)
    requires t.effect == Done && ReplyTrue(RemedyStatusReply, reply, v.rec.remedyKey, t)
    ensures AllSay(PlanReconcileRemedyReply(cfg, v, reply, a), t)
  {
    var key := RemedyKeyReference(cfg.crypto, v.rec);
    if reply.status != Remediated {
      MoveAndCloseSays(cfg, v, REMEDY_FAILED, "REMEDY_STATUS_CONFIRMED_NO_EFFECT",
        ResultDetails(ResultName(reply.status)), a, t);
      MoveAndCloseSays(cfg, v, REVIEW_REQUIRED, "REMEDY_STATUS_UNRESOLVED", key, a, t);
    }
  }

  lemma RemediateSays(cfg: Config, v: View, a: Answers, measured: Option<Digest>, t: Truth)
    requires Says(v.rec.state, t)
    ensures AllSay(PlanRemediate(cfg, v, a, measured), t)
  {
    if v.rec.state == REMEDY_DUE && v.rec.reservation.Some? {
      if v.rec.reservation.value.body.expiresAt <= v.clock {
        MoveAndCloseSays(cfg, v, REVIEW_REQUIRED, "RECOURSE_EXPIRED", NoDetails, a, t);
      } else {
        match ReadStatus(v.rec, a.probe) {
          case None =>
          case Some(status) =>
            if status != StatusActive {
              MoveAndCloseSays(cfg, v, REVIEW_REQUIRED, "RECOURSE_NOT_ACTIVE", StatusDetails(status), a, t);
            } else if v.rec.reservation.value.body.kind == Escalate {
              MoveAndCloseSays(cfg, v, REVIEW_REQUIRED, "REMEDY_REQUIRES_CHILD_ACTION", KindDetails(Escalate), a, t);
            } else {
              AttemptSays(cfg, v, measured, t);
            }
        }
      }
    }
  }

  lemma AttemptSays(cfg: Config, v: View, measured: Option<Digest>, t: Truth)
    requires t.effect == Done && v.rec.reservation.Some?
    ensures AllSay(PlanAttempt(cfg, v, measured), t)
  {
  }

  /** What a segment needs to know before its plan says the truth: a resumed call has a true
      reply, and no refused append hides behind one of the processor's own error codes. */
  predicate Informed(rec: Record, s: Segment, t: Truth) {
    match s
    case ExecuteReplied(reply, refusal, _) =>
      (refusal == None || refusal == Some(OtherFailure))
        && ReplyTrue(ExecuteReply, reply, rec.proposal.idempotencyKey, t)
    case Reconciled(reply, _) => ReplyTrue(StatusReply, reply, rec.proposal.idempotencyKey, t)
    case RemedyReplied(reply, _) => ReplyTrue(RemediateReply, reply, rec.remedyKey, t)
    case RemedyReconciled(reply, _) => ReplyTrue(RemedyStatusReply, reply, rec.remedyKey, t)
    case _ => true
  }

  lemma GrantingSays(cfg: Config, v: View, s: Segment, t: Truth)
    requires s.Authorizing? || s.Reserving? || s.AcceptingPreflight? || s.IssuingPermit? || s.Executing?
    ensures AllSay(SegmentPlan(cfg, v, s), t)
  {
    hide Apply, PreflightHolds, CheckSignature, MakeReservation, MakePermit, DigestProposal, RequestValid,
         CommitmentMatches, Allowed, ReadStatus, RecoveryBound, CoversAction;
  }

  lemma SegmentSays(cfg: Config, v: View, s: Segment, t: Truth)
    requires Says(v.rec.state, t) && Informed(v.rec, s, t)
    requires Awaits(s).Some? ==> AwaitSays(Awaits(s).value, t)
    ensures AllSay(SegmentPlan(cfg, v, s), t)
  {
    match s {
      case ExecuteReplied(reply, refusal, a) => ExecuteReplySays(cfg, v, reply, refusal, a, t);
      case Reconciled(reply, a) => StatusReplySays(cfg, v, reply, a, t);
      case OutcomeObserved(o, a) => ObservedSays(cfg, v, o, a, t);
      case Remediating(a, measured) => RemediateSays(cfg, v, a, measured, t);
      case RemedyReplied(reply, a) => RemediateReplySays(cfg, v, reply, a, t);
      case RemedyReconciled(reply, a) => RemedyStatusReplySays(cfg, v, reply, a, t);
      case RemedyObserved(o, a) => RemedyObservedSays(cfg, v, o, a, t);
      case VerifyingOutcome =>
      case Reconciling =>
      case ReconcilingRemedy =>
      case _ => GrantingSays(cfg, v, s, t);
    }
  }

  /** An informed turn, cut short anywhere, keeps a truthful record truthful. */
  lemma TurnKeepsTelling(cfg: Config, v: View, turn: Turn, t: Truth)
    requires Tells(v, t) && Informed(v.rec, turn.segment, t) && CanRun(v, turn.segment, turn.now)
    ensures Tells(TakeTurn(cfg, v, turn), t)
  {
    var w := Entered(v, turn.segment, turn.now);
    assert forall token <- w.pending :: token in v.pending;
    SegmentSays(cfg, w, turn.segment, t);
    var plan := SegmentPlan(cfg, w, turn.segment);
    var k := if turn.performed <= |plan| then turn.performed else |plan|;
    assert forall step <- plan[..k] :: step in plan;
    StepsKeepTelling(cfg, w, plan[..k], t);
  }
}
