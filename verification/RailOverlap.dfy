/** Calls that overlap. The rail lets several calls of one action be suspended at once; a decided
    action is then safe from every late reply but one, and exactly that one spoils its export. */
module RailOverlap {
  import opened RailStates
  import opened Artifacts
  import opened EventStore
  import opened Verify
  import opened RailModel
  import opened RailInvariant
  import opened RailRuns
  import opened RailTheorems

  /** The reply of connector.observe arrives. */
  predicate IsObservation(s: Segment) { s.OutcomeObserved? || s.RemedyObserved? }

  /** Closed, or about to be: only close() leads on. */
  predicate Decided(s: State) { s == CLOSED || OutcomeOf(s).Some? }

  lemma DecidedIsInert(cfg: Config, v: View, s: Segment)
    requires Decided(v.rec.state) && !IsObservation(s)
    ensures SegmentPlan(cfg, v, s) == []
  {
    hide PlanExecuteReply, PlanReconcileReply, PlanRemediateReply, PlanReconcileRemedyReply, PlanAuthorize, PlanReserve,
         PlanAcceptPreflight, PlanIssuePermit, PlanExecute, PlanRemediate;
    match s {
      case ExecuteReplied(reply, refusal, a) => DecidedIgnoresReply(cfg, v, reply, refusal, a);
      case Reconciled(reply, a) => DecidedIgnoresStatus(cfg, v, reply, a);
      case RemedyReplied(reply, a) => DecidedIgnoresRemedy(cfg, v, reply, a);
      case RemedyReconciled(reply, a) => DecidedIgnoresRemedyStatus(cfg, v, reply, a);
      case _ => DecidedStartsNothing(cfg, v, s);
    }
  }

  lemma DecidedStartsNothing(cfg: Config, v: View, s: Segment)
    requires Decided(v.rec.state) && Awaits(s).None?
    ensures SegmentPlan(cfg, v, s) == []
  {
    hide PlanConsume, PlanAttempt, PreflightHolds, CheckSignature, RequestValid, MoveAndFinalize, MoveAndClose,
         MakePermit, MakeReservation, ReadStatus;
  }

  lemma DecidedIgnoresReply(cfg: Config, v: View, reply: ConnectorReply, refusal: Option<ErrorKind>, a: Answers)
    requires Decided(v.rec.state)
    ensures PlanExecuteReply(cfg, v, reply, refusal, a) == []
  {
    hide Apply, FinalizePlan, ReplyReference, KeyReference;
  }

  lemma DecidedIgnoresStatus(cfg: Config, v: View, reply: ConnectorReply, a: Answers)
    requires Decided(v.rec.state)
    ensures PlanReconcileReply(cfg, v, reply, a) == []
  {
    hide Apply, ClosePlan, FinalizePlan, ReplyReference, KeyReference, AcceptedStatus;
  }

  lemma DecidedIgnoresRemedy(cfg: Config, v: View, reply: ConnectorReply, a: Answers)
    requires Decided(v.rec.state)
    ensures PlanRemediateReply(cfg, v, reply, a) == []
  {
    hide Apply, ClosePlan, RemedyKeyReference, ResultName, AcceptedStatus;
  }

  lemma DecidedIgnoresRemedyStatus(cfg: Config, v: View, reply: ConnectorReply, a: Answers)
    requires Decided(v.rec.state)
    ensures PlanReconcileRemedyReply(cfg, v, reply, a) == []
  {
    hide Apply, ClosePlan, RemedyKeyReference, ResultName, AcceptedStatus;
  }

  /** An observation is recorded before the state is looked at, so a late one is as well. */
  lemma LateObservationIsRecorded(cfg: Config, v: View, s: Segment)
    requires Decided(v.rec.state) && IsObservation(s)
    ensures RecordsOnly(SegmentPlan(cfg, v, s))
  {
    hide PlanObserved, PlanRemedyObserved;
    match s {
      case OutcomeObserved(o, a) => LateOutcomeIsRecorded(cfg, v, o, a);
      case RemedyObserved(o, a) => LateRemedyOutcomeIsRecorded(cfg, v, o, a);
    }
  }

  predicate RecordsOnly(plan: seq<Step>) { |plan| == 1 && (plan[0].AcceptedEvidence? || plan[0].RejectedEvidence?) }

  lemma LateRejectionIsRecorded(cfg: Config, v: View, phase: Phase, code: string, a: Answers)
    requires Decided(v.rec.state)
    ensures RecordsOnly(RejectionPlan(cfg, v, phase, code, a))
  {
    hide Apply, MoveAndClose;
    EvidenceKeepsState(cfg, v, RejectedEvidence(phase, code));
    DecidedMovesNowhere(cfg, Apply(cfg, v, RejectedEvidence(phase, code)),
      if phase == PostRemedy then REMEDY_INCONCLUSIVE else INCONCLUSIVE, a);
  }

  lemma LateOutcomeIsRecorded(cfg: Config, v: View, o: Observation, a: Answers)
    requires Decided(v.rec.state)
    ensures RecordsOnly(PlanObserved(cfg, v, o, a))
  {
    hide Apply, Assess, MoveAndClose, RejectionPlan, DigestEvidence, ReservationReference;
    match Assess(cfg, v.rec, v.clock, o, Initial) {
      case Accept(e) =>
        EvidenceKeepsState(cfg, v, AcceptedEvidence(e));
        DecidedMovesNowhere(cfg, Apply(cfg, v, AcceptedEvidence(e)), SATISFIED, a);
      case RejectAs(code) => LateRejectionIsRecorded(cfg, v, Initial, code, a);
      case Unavailable => LateRejectionIsRecorded(cfg, v, Initial, "EVIDENCE_UNAVAILABLE", a);
    }
  }

  lemma LateRemedyOutcomeIsRecorded(cfg: Config, v: View, o: Observation, a: Answers)
    requires Decided(v.rec.state)
    ensures RecordsOnly(PlanRemedyObserved(cfg, v, o, a))
  {
    hide Apply, Assess, MoveAndClose, RejectionPlan, DigestEvidence;
    match Assess(cfg, v.rec, v.clock, o, PostRemedy) {
      case Accept(e) =>
        var w := Apply(cfg, v, AcceptedEvidence(e));
        EvidenceKeepsState(cfg, v, AcceptedEvidence(e));
        DecidedMovesNowhere(cfg, w, REMEDIATED, a);
        DecidedMovesNowhere(cfg, w, REMEDY_INCONCLUSIVE, a);
      case RejectAs(code) => LateRejectionIsRecorded(cfg, v, PostRemedy, code, a);
      case Unavailable => LateRejectionIsRecorded(cfg, v, PostRemedy, "REMEDY_EVIDENCE_UNAVAILABLE", a);
    }
  }

  lemma EvidenceKeepsState(cfg: Config, v: View, step: Step)
    requires step.AcceptedEvidence? || step.RejectedEvidence?
    ensures Apply(cfg, v, step).rec.state == v.rec.state
  {
    hide NextEvent, DigestEvidence;
  }

  lemma DecidedMovesNowhere(cfg: Config, v: View, to: State, a: Answers)
    requires Decided(v.rec.state) && to != CLOSED
    ensures forall reason: string, details: Details :: MoveAndClose(cfg, v, to, reason, details, a) == []
  {
    hide Apply, ClosePlan;
  }

  /** A bundle whose events do not end in the CLOSED transition is refused. */
  lemma OtherTailIsRefused(cfg: Config, v: View, profile: Profile, semantics: bool)
    requires v.rec.receipt.Some? && v.rec.reservation.Some? && v.rec.permit.Some?
    requires v.log != [] && !v.log[|v.log| - 1].Payload().StateTransition?
    ensures VerifyBundle(cfg.crypto, ExportBundle(cfg, v, profile), cfg.Keys(), cfg.connectorKeys, semantics).Err?
  {
    hide SemanticsOk, ChainValid, SignatureChecks, EvidenceDigests;
    var b := ExportBundle(cfg, v, profile);
    AcceptedExactly(cfg.crypto, b, cfg.Keys(), cfg.connectorKeys, semantics);
  }

  /** What a turn comes to on a decided action: nothing, or one more event behind the decision. */
  lemma DecidedTurn(cfg: Config, v: View, t: Turn)
    requires Decided(v.rec.state)
    ensures var w := TakeTurn(cfg, v, t);
            && w.rec.state == v.rec.state && w.rec.receipt == v.rec.receipt
            && w.rec.reservation == v.rec.reservation && w.rec.permit == v.rec.permit
            && (if IsObservation(t.segment) && t.performed > 0
                then w.log != [] && !w.log[|w.log| - 1].Payload().StateTransition?
                else w.rec == v.rec && w.log == v.log)
  {
    hide SegmentPlan, Apply;
    var entered := Entered(v, t.segment, t.now);
    var plan := Plan(cfg, v, t.segment, t.now);
    if IsObservation(t.segment) {
      LateObservationIsRecorded(cfg, entered, t.segment);
      if t.performed > 0 {
        assert plan[..1] == [] + [plan[0]];
        ApplyOne(cfg, entered, [], plan[0]);
        StepAppends(cfg, entered, plan[0]);
      } else {
        assert plan[..0] == [];
      }
    } else {
      DecidedIsInert(cfg, entered, t.segment);
    }
  }

  /** Exactly when a closed action stays exportable: its export is accepted behind a turn if and
      only if the turn does not record a late observation. */
  lemma ClosedExportSurvivesExactly(cfg: Config, v: View, t: Turn)
    requires v.rec.state == CLOSED && ExportAccepted(cfg, v)
    ensures ExportAccepted(cfg, TakeTurn(cfg, v, t)) <==> !(IsObservation(t.segment) && t.performed > 0)
  {
    hide TakeTurn, VerifyBundle;
    DecidedTurn(cfg, v, t);
    var w := TakeTurn(cfg, v, t);
    if IsObservation(t.segment) && t.performed > 0 {
      OtherTailIsRefused(cfg, w, AuditProfile, true);
    } else {
      assert ExportBundle(cfg, w, AuditProfile) == ExportBundle(cfg, v, AuditProfile);
      assert ExportBundle(cfg, w, ReceiptProfile) == ExportBundle(cfg, v, ReceiptProfile);
    }
  }

  // ----- Every truthful run, with any overlap -----

  ghost predicate TruthfulRun(turns: seq<Turn>, views: seq<View>)
    requires |views| == |turns| + 1
  {
    forall i :: 0 <= i < |turns| ==> Truthful(views[i].(clock := turns[i].now), turns[i].segment)
  }

  /** The observation behind a remedy arrives when the action is decided, and is recorded. */
  predicate RecordsLate(v: View, t: Turn) {
    t.segment.RemedyObserved? && v.rec.state != REMEDY_VERIFYING && t.performed > 0
  }

  ghost predicate LateBefore(turns: seq<Turn>, views: seq<View>, i: nat)
    requires |views| == |turns| + 1 && i <= |turns|
  {
    exists j :: 0 <= j < i && RecordsLate(views[j], turns[j])
  }

  /** Where a late observation leaves an action for good: unable to close, or closed behind a log
      that does not end in CLOSED. */
  ghost predicate Spoiled(v: View) {
    || v.rec.state == REMEDY_FAILED
    || (v.rec.state == CLOSED && v.log != [] && !v.log[|v.log| - 1].Payload().StateTransition?)
  }

  lemma SpoiledStays(cfg: Config, v: View, t: Turn)
    requires Spoiled(v)
    ensures Spoiled(TakeTurn(cfg, v, t))
  {
    hide TakeTurn;
    DecidedTurn(cfg, v, t);
  }

  lemma LateTurnSpoils(cfg: Config, v: View, t: Turn)
    requires PendingFits(v) && CanRun(v, t.segment, t.now) && RecordsLate(v, t)
    ensures Spoiled(TakeTurn(cfg, v, t))
  {
    hide TakeTurn;
    assert MayAwait(RemedyObserveReply, v.rec.state, |v.rec.evidence|);
    DecidedTurn(cfg, v, t);
  }

  lemma OtherTurnKeepsGood(cfg: Config, v: View, t: Turn)
    requires SoundSignatures(cfg.crypto)
    requires Good(cfg, v, true) && CanRun(v, t.segment, t.now) && Truthful(v.(clock := t.now), t.segment)
    requires !RecordsLate(v, t)
    ensures Good(cfg, TakeTurn(cfg, v, t), true)
  {
    hide Good, SegmentPlan;
    if t.segment.RemedyObserved? && v.rec.state != REMEDY_VERIFYING {
      var w := Entered(v, t.segment, t.now);
      assert Plan(cfg, v, t.segment, t.now)[..0] == [] && Later(v, w);
      LaterIsGood(cfg, v, w);
    } else {
      TurnKeepsGood(cfg, v, t, true);
    }
  }

  lemma LaterIsGood(cfg: Config, v: View, w: View)
    requires Good(cfg, v, true) && Later(v, w)
    ensures Good(cfg, w, true)
  {
    hide RecordOk, LogAgrees, CallsOk, Orderly;
    LaterKeepsCore(cfg, v, w);
    LaterKeepsOrder(cfg, v, w);
  }

  /** Until a late observation is recorded a truthful run keeps order; from then on it is spoiled. */
  lemma {:induction false} OrderOrSpoiled(cfg: Config, p: Proposal, start: Time, turns: seq<Turn>, views: seq<View>,
      i: nat)
    requires SoundSignatures(cfg.crypto)
    requires Run(cfg, p, start, turns, views) && TruthfulRun(turns, views) && i <= |turns|
    ensures if LateBefore(turns, views, i) then Spoiled(views[i]) else Good(cfg, views[i], true)
  {
    hide TakeTurn, Good, Spoiled, RecordsLate, Truthful, ProposalValid, CanRun;
    if i == 0 {
      ProposedIsOrderly(cfg, p, start);
    } else {
      OrderOrSpoiled(cfg, p, start, turns, views, i - 1);
      if LateBefore(turns, views, i - 1) {
        SpoiledStays(cfg, views[i - 1], turns[i - 1]);
      } else if RecordsLate(views[i - 1], turns[i - 1]) {
        OrderIsFit(cfg, views[i - 1]);
        LateTurnSpoils(cfg, views[i - 1], turns[i - 1]);
      } else {
        OtherTurnKeepsGood(cfg, views[i - 1], turns[i - 1]);
      }
    }
  }

  lemma ProposedIsOrderly(cfg: Config, p: Proposal, now: Time)
    requires SoundSignatures(cfg.crypto) && ProposalValid(p, now)
    ensures Good(cfg, Proposed(cfg, p, now), true)
  {
    hide Core, Orderly, Proposed;
    ProposedIsGood(cfg, p, now);
  }

  lemma OrderIsFit(cfg: Config, v: View)
    requires Good(cfg, v, true)
    ensures PendingFits(v)
  {
    hide Core, Awaited;
  }

  lemma ClosedEndsInClosing(cfg: Config, v: View)
    requires RecourseLast(cfg, v) && v.rec.state == CLOSED
    ensures v.log != [] && v.log[|v.log| - 1].Payload().StateTransition?
  {
    hide Deciding, MakeReceipt, SettlementReason, IsRecourseEvent, OutcomeOf;
  }

  /** In every truthful run, however calls overlap, whatever the connector answers and whichever
      appends the store refuses, the export of an action with a receipt is accepted if and only if
      no observation was recorded behind the closing decision; and the log itself tells, by
      whether it ends in a state transition. */
  lemma ExportAcceptedExactly(cfg: Config, p: Proposal, start: Time, turns: seq<Turn>, views: seq<View>, i: nat)
    requires SoundSignatures(cfg.crypto)
    requires Run(cfg, p, start, turns, views) && TruthfulRun(turns, views) && i <= |turns|
    requires views[i].rec.receipt.Some?
    ensures ExportAccepted(cfg, views[i]) <==> !LateBefore(turns, views, i)
    ensures views[i].log != []
    ensures ExportAccepted(cfg, views[i]) <==> views[i].log[|views[i].log| - 1].Payload().StateTransition?
  {
    hide TakeTurn, ProposalValid, TruthfulRun, LateBefore, RecordOk, CallsOk, LogAgrees, PendingFits, EvidenceSound,
         TimesFit, ClosedProperly, VerifyBundle;
    var v := views[i];
    OrderOrSpoiled(cfg, p, start, turns, views, i);
    RunsAreGood(cfg, p, start, turns, views, i, false);
    ReceiptMeansClosed(cfg, v);
    if LateBefore(turns, views, i) {
      if v.rec.reservation.Some? && v.rec.permit.Some? {
        OtherTailIsRefused(cfg, v, AuditProfile, true);
      }
    } else {
      ClosedExportsAreAccepted(cfg, v);
      ClosedEndsInClosing(cfg, v);
    }
  }

  lemma ReceiptMeansClosed(cfg: Config, v: View)
    requires Core(cfg, v) && v.rec.receipt.Some?
    ensures v.rec.state == CLOSED
  {
    hide RecordOk, CallsOk, RecordedAgrees, LogSound;
  }

  // ----- How overlapping calls get there -----

  /** A turn that performs its whole plan of two or three steps. */
  lemma WholeTurn(cfg: Config, v: View, t: Turn)
    requires t.performed == |Plan(cfg, v, t.segment, t.now)|
    ensures TakeTurn(cfg, v, t) == ApplyAll(cfg, Entered(v, t.segment, t.now), Plan(cfg, v, t.segment, t.now))
  {
    hide Plan, ApplyAll, Entered;
    assert Plan(cfg, v, t.segment, t.now)[..t.performed] == Plan(cfg, v, t.segment, t.now);
  }

  lemma ThreeSteps(cfg: Config, v: View, a: Step, b: Step, c: Step)
    ensures ApplyAll(cfg, v, [a, b]) == Apply(cfg, Apply(cfg, v, a), b)
    ensures ApplyAll(cfg, v, [a, b, c]) == Apply(cfg, Apply(cfg, Apply(cfg, v, a), b), c)
  {
    hide Apply;
    assert [] + [a] == [a] && [a] + [b] == [a, b] && [a, b] + [c] == [a, b, c];
    ApplyOne(cfg, v, [], a);
    ApplyOne(cfg, v, [a], b);
    ApplyOne(cfg, v, [a, b], c);
  }

  lemma MoveIsRecorded(cfg: Config, v: View, to: State, reason: string, details: Details)
    requires to != EXECUTING && to != REMEDIATING
    ensures var w := Apply(cfg, v, Move(to, reason, details));
            w == v.(rec := v.rec.(state := to), log := w.log)
  {
    hide NextEvent;
  }

  lemma CallAddsReply(cfg: Config, v: View, t: Token)
    ensures Apply(cfg, v, Calls(t)) == v.(pending := v.pending + multiset{t})
  {
  }

  /** The two replies, as plans. */
  function Confirms(c: Crypto, rec: Record): Step {
    Move(REMEDY_VERIFYING, "REMEDY_STATUS_CONFIRMED", RemedyKeyReference(c, rec))
  }

  const Fails: Step := Move(REMEDY_FAILED, "REMEDY_STATUS_CONFIRMED_NO_EFFECT", ResultDetails(ResultName(Failed)))

  function Confirmed(v: View, a: Answers, now: Time): Turn {
    Turn(RemedyReconciled(Replied(Remediated, v.rec.remedyKey, None), a), now, 2)
  }

  function Denied(v: View, a: Answers, now: Time): Turn {
    Turn(RemedyReconciled(Replied(Failed, v.rec.remedyKey, None), a), now, 3)
  }

  /** reconcileRemedy's first reply confirms the remedy and an observation begins. */
  lemma FirstReplyObserves(cfg: Config, v: View, a: Answers, now: Time)
    requires v.rec.state == REMEDY_UNKNOWN
    ensures var w := TakeTurn(cfg, v, Confirmed(v, a, now));
            && w.rec == v.rec.(state := REMEDY_VERIFYING) && w.clock == now
            && w.pending == (v.pending - multiset{RemedyStatusReply}) + multiset{RemedyObserveReply}
  {
    hide Apply, Plan, RemedyKeyReference, ApplyAll, TakeTurn;
    var t := Confirmed(v, a, now);
    var move, call := Confirms(cfg.crypto, v.rec), Calls(RemedyObserveReply);
    ConfirmedPlan(cfg, v, a, now);
    WholeTurn(cfg, v, t);
    var entered := Entered(v, t.segment, now);
    ThreeSteps(cfg, entered, move, call, call);
    MoveIsRecorded(cfg, entered, move.to, move.reason, move.details);
    CallAddsReply(cfg, Apply(cfg, entered, move), RemedyObserveReply);
  }

  lemma ConfirmedPlan(cfg: Config, v: View, a: Answers, now: Time)
    requires v.rec.state == REMEDY_UNKNOWN
    ensures Plan(cfg, v, Confirmed(v, a, now).segment, now) == [Confirms(cfg.crypto, v.rec), Calls(RemedyObserveReply)]
  {
    hide Apply, ClosePlan, RemedyKeyReference;
  }

  /** Where the second reply finds the action, and what the recourse answers. */
  predicate Resolvable(v: View, a: Answers) {
    && v.rec.state == REMEDY_VERIFYING && v.rec.reservation.Some? && v.rec.permit.Some? && v.rec.recourseRecorded.None?
    && ReadStatus(v.rec, a.final).Some? && ReadStatus(v.rec, a.final) != Some(StatusUnknown)
  }

  function Records(v: View, a: Answers): Step
    requires Resolvable(v, a)
  {
    RecordedRecourse(ReadStatus(v.rec, a.final).value, SettlementReason(Disputed))
  }

  lemma DeniedPlan(cfg: Config, v: View, a: Answers, now: Time)
    requires Resolvable(v, a)
    ensures Plan(cfg, v, Denied(v, a, now).segment, now) == [Fails, Records(v, a), Settles(Disputed)]
  {
    hide Apply, ClosePlan, PlanReconcileRemedyReply, Entered, ReadStatus, SettlementReason, ResultName;
    EnteredDenied(v, a, now);
    var entered := Entered(v, Denied(v, a, now).segment, now);
    FailureMovesAndCloses(cfg, entered, a);
    MoveIsRecorded(cfg, entered, Fails.to, Fails.reason, Fails.details);
    SameReservationSameStatus(v.rec, Apply(cfg, entered, Fails).rec, a.final);
    DisputeCloses(Apply(cfg, entered, Fails), a);
  }

  lemma EnteredDenied(v: View, a: Answers, now: Time)
    ensures var entered := Entered(v, Denied(v, a, now).segment, now);
            entered.rec == v.rec
  {
  }

  lemma FailureMovesAndCloses(cfg: Config, v: View, a: Answers)
    requires v.rec.state == REMEDY_VERIFYING
    ensures PlanReconcileRemedyReply(cfg, v, Replied(Failed, v.rec.remedyKey, None), a) == [Fails]
            + ClosePlan(Apply(cfg, v, Fails), a)
  {
    hide Apply, ClosePlan, RemedyKeyReference;
  }

  lemma DisputeCloses(w: View, a: Answers)
    requires w.rec.state == REMEDY_FAILED && w.rec.reservation.Some? && w.rec.recourseRecorded.None?
    requires ReadStatus(w.rec, a.final).Some? && ReadStatus(w.rec, a.final) != Some(StatusUnknown)
    ensures ClosePlan(w, a) == [RecordedRecourse(ReadStatus(w.rec, a.final).value, SettlementReason(Disputed)),
            Settles(Disputed)]
  {
    hide ReadStatus;
  }

  /** A second suspended reconcileRemedy that hears of a failure closes the action over the
      pending observation. */
  lemma SecondReplyCloses(cfg: Config, v: View, a: Answers, now: Time)
    requires Resolvable(v, a) && RemedyObserveReply in v.pending
    ensures var w := TakeTurn(cfg, v, Denied(v, a, now));
            && w.rec.state == CLOSED && w.rec.receipt.Some? && w.rec.reservation.Some? && w.rec.permit.Some?
            && RemedyObserveReply in w.pending && w.clock == now
  {
    hide NextEvent, MakeReceipt, Plan, RecoursePayload, ApplyAll, TakeTurn, ReadStatus;
    var t := Denied(v, a, now);
    DeniedPlan(cfg, v, a, now);
    WholeTurn(cfg, v, t);
    ThreeSteps(cfg, Entered(v, t.segment, now), Fails, Records(v, a), Settles(Disputed));
  }

  /** Two overlapping reconcileRemedy calls that hear different answers leave a closed action
      with a receipt whose bundles the verifier refuses, whatever the late observation says. */
  lemma OverlapSpoilsExport(cfg: Config, v: View, a: Answers, o: Observation, now: Time)
    requires v.rec.state == REMEDY_UNKNOWN && v.clock <= now
    requires v.pending[RemedyStatusReply] >= 2
    requires v.rec.reservation.Some? && v.rec.permit.Some? && v.rec.recourseRecorded.None?
    requires ReadStatus(v.rec, a.final).Some? && ReadStatus(v.rec, a.final) != Some(StatusUnknown)
    ensures var late := Turn(RemedyObserved(o, a), now, 1);
            var v1 := TakeTurn(cfg, v, Confirmed(v, a, now));
            var v2 := TakeTurn(cfg, v1, Denied(v1, a, now));
            var v3 := TakeTurn(cfg, v2, late);
            && CanRun(v, Confirmed(v, a, now).segment, now) && CanRun(v1, Denied(v1, a, now).segment, now)
            && CanRun(v2, late.segment, now)
            && v2.rec.receipt.Some? && v3.rec.receipt == v2.rec.receipt && !ExportAccepted(cfg, v3)
  {
    hide TakeTurn, VerifyBundle, ReadStatus;
    var v1 := TakeTurn(cfg, v, Confirmed(v, a, now));
    FirstReplyObserves(cfg, v, a, now);
    SameReservationSameStatus(v.rec, v1.rec, a.final);
    SecondReplyCloses(cfg, v1, a, now);
    var v2 := TakeTurn(cfg, v1, Denied(v1, a, now));
    DecidedTurn(cfg, v2, Turn(RemedyObserved(o, a), now, 1));
    OtherTailIsRefused(cfg, TakeTurn(cfg, v2, Turn(RemedyObserved(o, a), now, 1)), AuditProfile, true);
  }

  lemma SameReservationSameStatus(r: Record, s: Record, answer: StatusAnswer)
    requires r.reservation == s.reservation
    ensures ReadStatus(r, answer) == ReadStatus(s, answer)
  {
  }
}
