/** What the connector's reply to an execute call decides: an action that got past EXECUTING did so
    on a reply that did not refuse the call. */
module RailReplies {
  import opened RailStates
  import opened Artifacts
  import opened EventStore
  import opened Verify
  import opened VerifySoundness
  import opened Recovery
  import opened RailModel
  import opened RailInvariant
  import opened RailProgress
  import opened RailRuns

  /** The replies on which execute() ends the action as FAILED. */
  predicate Refuses(reply: ConnectorReply) { reply in {Threw(IdempotencyConflict), Threw(InventoryInsufficient)} }

  /** The states behind an execution that may have had an effect. */
  predicate Beyond(s: State) {
    s in {UNKNOWN, EXECUTED, VERIFYING, BREACHED, REMEDY_DUE, REMEDIATING, REMEDY_UNKNOWN, REMEDY_VERIFYING, SATISFIED,
      REMEDIATED, INCONCLUSIVE, REMEDY_INCONCLUSIVE, REVIEW_REQUIRED, REMEDY_FAILED, CLOSED}
  }

  predicate Replied(s: State) { Beyond(s) || s == FAILED }

  /** A status is asked for only when the execute reply is in. */
  predicate AsksInTurn(v: View) { StatusReply in v.pending ==> Replied(v.rec.state) }

  /** A step that neither leaves EXECUTING for a state beyond it nor asks for a status. */
  predicate Stays(step: Step) { Target(step) !in {Some(UNKNOWN), Some(EXECUTED)} && step != Calls(StatusReply) }
  predicate AllStay(steps: seq<Step>) { forall step <- steps :: Stays(step) }

  lemma StepFromReplied(cfg: Config, v: View, step: Step)
    requires Enabled(cfg, v, step) && Replied(v.rec.state)
    ensures Replied(Apply(cfg, v, step).rec.state)
    ensures v.rec.state == FAILED ==> Apply(cfg, v, step).rec.state == FAILED
  {
    hide Apply, PermitGood, ReservationGood, Covered;
    StepAdvances(cfg, v, step);
  }

  lemma {:induction false} StepsFromReplied(cfg: Config, v: View, steps: seq<Step>, k: nat)
    requires Replied(v.rec.state) && AllMayBeTaken(cfg, v, steps, false) && k <= |steps|
    ensures var w := ApplyAll(cfg, v, steps[..k]);
            Replied(w.rec.state) && (v.rec.state == FAILED ==> w.rec.state == FAILED)
    decreases |steps|
  {
    hide Apply, Enabled, Beyond, Replied;
    if steps != [] {
      var init := steps[..|steps| - 1];
      if k < |steps| {
        assert init[..k] == steps[..k];
        StepsFromReplied(cfg, v, init, k);
      } else {
        assert init[..|init|] == init && steps[..k] == steps;
        StepsFromReplied(cfg, v, init, |init|);
        StepFromReplied(cfg, ApplyAll(cfg, v, init), steps[|init|]);
      }
    }
  }

  lemma StepStays(cfg: Config, v: View, step: Step)
    requires Enabled(cfg, v, step) && Stays(step) && !Beyond(v.rec.state) && StatusReply !in v.pending
    ensures var w := Apply(cfg, v, step); !Beyond(w.rec.state) && StatusReply !in w.pending
  {
    hide Apply, PermitGood, ReservationGood, Covered;
    StepAdvances(cfg, v, step);
  }

  lemma {:induction false} StepsStay(cfg: Config, v: View, steps: seq<Step>, k: nat)
    requires !Beyond(v.rec.state) && StatusReply !in v.pending
    requires AllStay(steps) && AllMayBeTaken(cfg, v, steps, false) && k <= |steps|
    ensures var w := ApplyAll(cfg, v, steps[..k]); !Beyond(w.rec.state) && StatusReply !in w.pending
    decreases |steps|
  {
    hide Apply, Enabled, Beyond, Stays;
    if steps != [] {
      var init := steps[..|steps| - 1];
      if k < |steps| {
        assert init[..k] == steps[..k];
        StepsStay(cfg, v, init, k);
      } else {
        assert init[..|init|] == init && steps[..k] == steps;
        StepsStay(cfg, v, init, |init|);
        StepStays(cfg, ApplyAll(cfg, v, init), steps[|init|]);
      }
    }
  }

  // ----- Which segments stay -----

  lemma CloseStays(w: View, a: Answers)
    ensures AllStay(ClosePlan(w, a))
  {
    hide FinalizeResult, OutcomeOf;
  }

  lemma MoveAndCloseStays(cfg: Config, v: View, to: State, reason: string, details: Details, a: Answers)
    requires to !in {UNKNOWN, EXECUTED}
    ensures AllStay(MoveAndClose(cfg, v, to, reason, details, a))
  {
    hide Apply, ClosePlan;
    CloseStays(Apply(cfg, v, Move(to, reason, details)), a);
  }

  lemma MoveAndFinalizeStays(cfg: Config, v: View, to: State, reason: string, details: Details, a: Answers)
    requires to !in {UNKNOWN, EXECUTED}
    ensures AllStay(MoveAndFinalize(cfg, v, to, reason, details, a))
  {
    hide Apply;
  }

  lemma RejectionStays(cfg: Config, v: View, phase: Phase, code: string, a: Answers)
    ensures AllStay(RejectionPlan(cfg, v, phase, code, a))
  {
    hide Apply, MoveAndClose;
    var reject := RejectedEvidence(phase, code);
    MoveAndCloseStays(cfg, Apply(cfg, v, reject), if phase == PostRemedy then REMEDY_INCONCLUSIVE else INCONCLUSIVE,
      code, NoDetails, a);
  }

  lemma StartStays(cfg: Config, v: View, s: Segment)
    requires s.Authorizing? || s.Reserving? || s.AcceptingPreflight? || s.VerifyingOutcome? || s.ReconcilingRemedy?
    ensures AllStay(SegmentPlan(cfg, v, s))
  {
    hide VerifyPreflight, CoversAction, RecoveryBound, RequestValid, CommitmentMatches, CheckSignature, MakeReservation;
  }

  lemma PermitStays(cfg: Config, v: View, caps: Option<Capabilities>, a: Answers, measured: Option<Digest>)
    ensures AllStay(PlanIssuePermit(cfg, v, caps, a, measured))
  {
    hide Apply, MoveAndFinalize, PreflightHolds, MakePermit, PermittedAttestation;
    EarlyEndsStay(cfg, v, a);
  }

  /** The ways an action ends before it executes. */
  lemma EarlyEndsStay(cfg: Config, v: View, a: Answers)
    ensures AllStay(MoveAndFinalize(cfg, v, EXPIRED, "ACTION_EXPIRED", NoDetails, a))
    ensures AllStay(MoveAndFinalize(cfg, v, EXPIRED, "PERMIT_EXPIRED", NoDetails, a))
    ensures AllStay(MoveAndFinalize(cfg, v, EXPIRED, "RECOURSE_EXPIRED", NoDetails, a))
    ensures ReadStatus(v.rec, a.probe).Some? ==>
              AllStay(MoveAndFinalize(cfg, v, REVOKED, "CONNECTOR_RECOURSE_NOT_ACTIVE",
                StatusDetails(ReadStatus(v.rec, a.probe).value), a))
  {
    hide MoveAndFinalize, AllStay, ReadStatus;
    MoveAndFinalizeStays(cfg, v, EXPIRED, "ACTION_EXPIRED", NoDetails, a);
    MoveAndFinalizeStays(cfg, v, EXPIRED, "PERMIT_EXPIRED", NoDetails, a);
    MoveAndFinalizeStays(cfg, v, EXPIRED, "RECOURSE_EXPIRED", NoDetails, a);
    if ReadStatus(v.rec, a.probe).Some? {
      MoveAndFinalizeStays(cfg, v, REVOKED, "CONNECTOR_RECOURSE_NOT_ACTIVE",
        StatusDetails(ReadStatus(v.rec, a.probe).value), a);
    }
  }

  lemma ExecutingStays(cfg: Config, v: View, override: Option<Proposal>, a: Answers, measured: Option<Digest>)
    ensures AllStay(PlanExecute(cfg, v, override, a, measured))
  {
    hide Apply, MoveAndFinalize, DigestProposal, DigestPermit, PreflightHolds, CheckSignature;
    EarlyEndsStay(cfg, v, a);
  }

  lemma RemediatingStays(cfg: Config, v: View, a: Answers, measured: Option<Digest>)
    ensures AllStay(PlanRemediate(cfg, v, a, measured))
  {
    hide Apply, MoveAndClose, PlanAttempt;
    MoveAndCloseStays(cfg, v, REVIEW_REQUIRED, "RECOURSE_EXPIRED", NoDetails, a);
    MoveAndCloseStays(cfg, v, REVIEW_REQUIRED, "REMEDY_REQUIRES_CHILD_ACTION", KindDetails(Escalate), a);
    if ReadStatus(v.rec, a.probe).Some? {
      MoveAndCloseStays(cfg, v, REVIEW_REQUIRED, "RECOURSE_NOT_ACTIVE", StatusDetails(ReadStatus(v.rec, a.probe).value),
        a);
    }
    if v.rec.reservation.Some? {
      AttemptStays(cfg, v, measured);
    }
  }

  lemma AttemptStays(cfg: Config, v: View, measured: Option<Digest>)
    requires v.rec.reservation.Some?
    ensures AllStay(PlanAttempt(cfg, v, measured))
  {
    hide DigestReservation, PreflightHolds;
  }

  lemma RefusalStays(cfg: Config, v: View, reply: ConnectorReply, refusal: Option<ErrorKind>, a: Answers)
    requires Refuses(reply)
    ensures AllStay(PlanExecuteReply(cfg, v, reply, refusal, a))
  {
    hide Apply, MoveAndFinalize, KeyReference;
    MoveAndFinalizeStays(cfg, v, FAILED, ErrorCode(reply.error), KeyReference(cfg.crypto, v.rec), a);
  }

  lemma JudgementStays(cfg: Config, w: View, e: Evidence, a: Answers)
    ensures AllStay(JudgementPlan(cfg, w, e, a)) && AllStay(RemedyJudgementPlan(cfg, w, e, a))
  {
    hide Apply, MoveAndClose, DigestEvidence, Allowed;
    var details := EvidenceDetails(DigestEvidence(cfg.crypto, e));
    MoveAndCloseStays(cfg, w, SATISFIED, "POSTCONDITION_SATISFIED", details, a);
    MoveAndCloseStays(cfg, w, REMEDIATED, "REMEDY_VERIFIED", details, a);
    MoveAndCloseStays(cfg, w, REMEDY_INCONCLUSIVE, "REMEDY_POSTCONDITION_UNRESOLVED", details, a);
  }

  lemma ObservedStays(cfg: Config, v: View, o: Observation, a: Answers)
    ensures AllStay(PlanObserved(cfg, v, o, a)) && AllStay(PlanRemedyObserved(cfg, v, o, a))
  {
    hide Apply, Assess, JudgementPlan, RemedyJudgementPlan, RejectionPlan;
    var code := "EVIDENCE_UNAVAILABLE";
    RejectionStays(cfg, v, Initial, "EVIDENCE_UNAVAILABLE", a);
    RejectionStays(cfg, v, PostRemedy, "REMEDY_EVIDENCE_UNAVAILABLE", a);
    AssessedStays(cfg, v, Assess(cfg, v.rec, v.clock, o, Initial), Initial, a);
    AssessedStays(cfg, v, Assess(cfg, v.rec, v.clock, o, PostRemedy), PostRemedy, a);
  }

  lemma AssessedStays(cfg: Config, v: View, assessed: Assessment, phase: Phase, a: Answers)
    ensures match assessed
            case Unavailable => true
            case RejectAs(code) => AllStay(RejectionPlan(cfg, v, phase, code, a))
            case Accept(e) =>
              var w := Apply(cfg, v, AcceptedEvidence(e));
              AllStay(JudgementPlan(cfg, w, e, a)) && AllStay(RemedyJudgementPlan(cfg, w, e, a))
  {
    hide Apply, JudgementPlan, RemedyJudgementPlan, RejectionPlan;
    match assessed {
      case Unavailable =>
      case RejectAs(code) => RejectionStays(cfg, v, phase, code, a);
      case Accept(e) => JudgementStays(cfg, Apply(cfg, v, AcceptedEvidence(e)), e, a);
    }
  }

  lemma RemedyReplyStays(cfg: Config, v: View, reply: ConnectorReply, a: Answers)
    ensures AllStay(PlanRemediateReply(cfg, v, reply, a))
  {
    hide Apply, AcceptedStatus, MoveAndClose, RemedyKeyReference, ResultName;
    var key := RemedyKeyReference(cfg.crypto, v.rec);
    MoveAndCloseStays(cfg, v, REMEDY_FAILED, "IDEMPOTENCY_CONFLICT", key, a);
    match AcceptedStatus(reply, v.rec.remedyKey, REMEDY_RESULTS) {
      case Some(status) => MoveAndCloseStays(cfg, v, REMEDY_FAILED, "REMEDY_CONNECTOR_FAILED",
        ResultDetails(ResultName(status)), a);
      case None =>
    }
  }

  lemma RemedyStatusStays(cfg: Config, v: View, reply: ConnectorReply, a: Answers)
    ensures AllStay(PlanReconcileRemedyReply(cfg, v, reply, a))
  {
    hide Apply, AcceptedStatus, MoveAndClose, RemedyKeyReference, ResultName;
    match AcceptedStatus(reply, v.rec.remedyKey, REMEDY_STATUSES) {
      case Some(status) =>
        MoveAndCloseStays(cfg, v, REMEDY_FAILED, "REMEDY_STATUS_CONFIRMED_NO_EFFECT", ResultDetails(ResultName(status)),
          a);
        MoveAndCloseStays(cfg, v, REVIEW_REQUIRED, "REMEDY_STATUS_UNRESOLVED", RemedyKeyReference(cfg.crypto, v.rec),
          a);
      case None =>
    }
  }

  lemma SegmentStays(cfg: Config, v: View, s: Segment)
    requires !s.Reconciling? && !s.Reconciled? && (s.ExecuteReplied? ==> Refuses(s.reply))
    ensures AllStay(SegmentPlan(cfg, v, s))
  {
    hide PlanIssuePermit, PlanExecute, PlanExecuteReply, PlanObserved, PlanRemediate, PlanRemediateReply,
         PlanReconcileRemedyReply, PlanRemedyObserved, AllStay;
    match s {
      case IssuingPermit(caps, a, measured) => PermitStays(cfg, v, caps, a, measured);
      case Executing(override, a, measured) => ExecutingStays(cfg, v, override, a, measured);
      case ExecuteReplied(reply, refusal, a) => RefusalStays(cfg, v, reply, refusal, a);
      case OutcomeObserved(o, a) => ObservedStays(cfg, v, o, a);
      case Remediating(a, measured) => RemediatingStays(cfg, v, a, measured);
      case RemedyReplied(reply, a) => RemedyReplyStays(cfg, v, reply, a);
      case RemedyReconciled(reply, a) => RemedyStatusStays(cfg, v, reply, a);
      case RemedyObserved(o, a) => ObservedStays(cfg, v, o, a);
      case _ => StartStays(cfg, v, s);
    }
  }

  // ----- One turn, and every run -----

  lemma {:induction false} StepsAskNothing(cfg: Config, v: View, steps: seq<Step>, k: nat)
    requires k <= |steps| && (forall step <- steps :: step != Calls(StatusReply)) && StatusReply !in v.pending
    ensures StatusReply !in ApplyAll(cfg, v, steps[..k]).pending
    decreases k
  {
    if k > 0 {
      StepsAskNothing(cfg, v, steps, k - 1);
      assert steps[..k][..k - 1] == steps[..k - 1] && steps[k - 1] in steps;
    }
  }

  lemma ExecuteReplyAsksNothing(cfg: Config, v: View, reply: ConnectorReply, refusal: Option<ErrorKind>, a: Answers)
    ensures forall step <- PlanExecuteReply(cfg, v, reply, refusal, a) :: step != Calls(StatusReply)
  {
    hide Apply, DigestText;
  }

  lemma TurnGoesBeyond(cfg: Config, v: View, t: Turn)
    requires Good(cfg, v, false) && CanRun(v, t.segment, t.now) && AsksInTurn(v)
    ensures var w := TakeTurn(cfg, v, t);
            && AsksInTurn(w)
            && (Beyond(w.rec.state) && !Beyond(v.rec.state) ==> t.segment.ExecuteReplied? && !Refuses(t.segment.reply))
  {
    hide Good, SegmentPlan, AllMayBeTaken, ApplyAll, AllStay, Refuses, Beyond;
    var w := Entered(v, t.segment, t.now);
    EnteringKeepsGood(cfg, v, t.segment, t.now, false);
    SegmentIsAllowed(cfg, w, t.segment, false);
    var plan := SegmentPlan(cfg, w, t.segment);
    var k := if t.performed <= |plan| then t.performed else |plan|;
    if Replied(v.rec.state) {
      StepsFromReplied(cfg, w, plan, k);
    } else if t.segment.Reconciling? {
      NothingToAsk(cfg, w);
    } else if t.segment.ExecuteReplied? && !Refuses(t.segment.reply) {
      ReplyAsksNothing(cfg, w, t.segment, k);
    } else {
      SegmentStays(cfg, w, t.segment);
      StepsStay(cfg, w, plan, k);
    }
  }

  lemma NothingToAsk(cfg: Config, w: View)
    requires !Beyond(w.rec.state)
    ensures SegmentPlan(cfg, w, Reconciling) == [] && ApplyAll(cfg, w, []) == w
  {
  }

  lemma ReplyAsksNothing(cfg: Config, w: View, s: Segment, k: nat)
    requires s.ExecuteReplied? && k <= |SegmentPlan(cfg, w, s)| && StatusReply !in w.pending
    ensures StatusReply !in ApplyAll(cfg, w, SegmentPlan(cfg, w, s)[..k]).pending
  {
    hide ApplyAll, PlanExecuteReply;
    ExecuteReplyAsksNothing(cfg, w, s.reply, s.refusal, s.answers);
    StepsAskNothing(cfg, w, SegmentPlan(cfg, w, s), k);
  }

  predicate BringsAcceptance(t: Turn) { t.segment.ExecuteReplied? && !Refuses(t.segment.reply) }

  /** In any run, whatever interleaves, whatever the connector answers and whichever appends the
      store refuses, an action is beyond EXECUTING only if a reply to its execute call arrived
      that was not a refusal. */
  lemma {:induction false} BeyondNeedsAcceptance(cfg: Config, p: Proposal, start: Time, turns: seq<Turn>,
      views: seq<View>, i: nat)
    requires SoundSignatures(cfg.crypto)
    requires Run(cfg, p, start, turns, views) && i <= |turns|
    ensures AsksInTurn(views[i])
    ensures Beyond(views[i].rec.state) ==> exists j :: 0 <= j < i && BringsAcceptance(turns[j])
  {
    hide Good, TakeTurn, ProposalValid, Beyond, Refuses;
    if i > 0 {
      BeyondNeedsAcceptance(cfg, p, start, turns, views, i - 1);
      RunsAreGood(cfg, p, start, turns, views, i - 1, false);
      TurnGoesBeyond(cfg, views[i - 1], turns[i - 1]);
      if Beyond(views[i].rec.state) && !Beyond(views[i - 1].rec.state) {
        assert BringsAcceptance(turns[i - 1]);
      }
    } else {
      NothingIsBeyond(cfg, p, start);
    }
  }

  lemma NothingIsBeyond(cfg: Config, p: Proposal, now: Time)
    ensures !Beyond(Proposed(cfg, p, now).rec.state) && AsksInTurn(Proposed(cfg, p, now))
  {
  }

  /** The connector is asked for a remedy only after a reply to the action's execute call that was
      not a refusal. */
  lemma RemedyNeedsAcceptance(cfg: Config, p: Proposal, start: Time, turns: seq<Turn>, views: seq<View>, i: nat)
    requires SoundSignatures(cfg.crypto)
    requires Run(cfg, p, start, turns, views) && i <= |turns| && views[i].remediateCalls != []
    ensures exists j :: 0 <= j < i && BringsAcceptance(turns[j])
  {
    hide TakeTurn, ProposalValid, Refuses, BringsAcceptance;
    RunsAreGood(cfg, p, start, turns, views, i, false);
    BeyondNeedsAcceptance(cfg, p, start, turns, views, i);
    RemedyIsBeyond(cfg, views[i]);
  }

  predicate Remedying(s: State) {
    s in {REMEDIATING, REMEDY_UNKNOWN, REMEDY_VERIFYING, REMEDIATED, REMEDY_INCONCLUSIVE, REMEDY_FAILED,
      REVIEW_REQUIRED, CLOSED}
  }

  lemma SuccessorRemedies(s: State, t: State)
    requires Allowed(s, t) && Remedying(s)
    ensures Remedying(t)
  {
  }

  /** Nothing leads back from a remedy. */
  lemma {:induction false} PathRemedies(path: seq<State>, j: nat, k: nat)
    requires LegalPath(path) && j <= k < |path| && Remedying(path[j])
    ensures Remedying(path[k])
    decreases k
  {
    hide Remedying, Allowed;
    if j < k {
      PathRemedies(path, j, k - 1);
      SuccessorRemedies(path[k - 1], path[k]);
    }
  }

  lemma RemedyIsBeyond(cfg: Config, v: View)
    requires LogAgrees(cfg, v) && CallsOk(cfg, v) && v.remediateCalls != []
    ensures Beyond(v.rec.state)
  {
    hide Replay, RecordedAgrees, ChainValid, Covered, Beyond, Remedying, LastState;
    ReplayReachesLastState(v.rec.actionId, v.log);
    var path := Replay(v.rec.actionId, v.log).value;
    assert REMEDIATING in path;
    var j :| 0 <= j < |path| && path[j] == REMEDIATING;
    EnteringRemedies(path[|path| - 1]);
    PathRemedies(path, j, |path| - 1);
  }

  lemma EnteringRemedies(s: State)
    ensures Remedying(REMEDIATING) && (Remedying(s) ==> Beyond(s))
  {
  }
}
