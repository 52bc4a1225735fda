/** What a turn leaves alone: the identity of its action always, and its recourse and its
    connector calls except in the one segment that makes them. */
module RailCalls {
  import opened RailStates
  import opened Artifacts
  import opened RailModel

  function TokenHeld(rec: Record): string
    requires rec.reservation.Some?
  {
    rec.reservation.value.body.commitment.body.token
  }

  /** Between the views `v` and `w` the call whose reply is `token` was made. */
  predicate CallsOut(v: View, w: View, token: Token) {
    match token
    case ExecuteReply => |w.executeCalls| > |v.executeCalls|
    case RemediateReply => |w.remediateCalls| > |v.remediateCalls|
    case _ => w.pending[token] > v.pending[token]
  }

  /** A step that neither reserves recourse nor makes a call with an effect. */
  predicate Plain(step: Step) { !step.Reserved? && !step.CallsExecute? && !step.CallsRemediate? }
  predicate AllPlain(steps: seq<Step>) { forall step <- steps :: Plain(step) }

  predicate SameIdentity(r: Record, s: Record) {
    r.actionId == s.actionId && r.actionDigest == s.actionDigest && r.proposal == s.proposal
  }

  predicate SameRecourse(v: View, w: View) {
    && v.rec.reservation == w.rec.reservation && v.rec.remedyKey == w.rec.remedyKey
    && v.executeCalls == w.executeCalls && v.remediateCalls == w.remediateCalls
  }

  lemma StepKeepsIdentity(cfg: Config, v: View, step: Step)
    ensures SameIdentity(v.rec, Apply(cfg, v, step).rec) && Apply(cfg, v, step).clock == v.clock
    ensures Plain(step) ==> SameRecourse(v, Apply(cfg, v, step))
    ensures step.Reserved? ==> v.executeCalls == Apply(cfg, v, step).executeCalls
  {
  }

  lemma {:induction false} StepsKeepIdentity(cfg: Config, v: View, steps: seq<Step>)
    ensures SameIdentity(v.rec, ApplyAll(cfg, v, steps).rec) && ApplyAll(cfg, v, steps).clock == v.clock
    ensures AllPlain(steps) ==> SameRecourse(v, ApplyAll(cfg, v, steps))
    decreases |steps|
  {
    if steps != [] {
      var n := |steps| - 1;
      StepsKeepIdentity(cfg, v, steps[..n]);
      StepKeepsIdentity(cfg, ApplyAll(cfg, v, steps[..n]), steps[n]);
    }
  }

  lemma MoveAndCloseIsPlain(cfg: Config, v: View, to: State, reason: string, details: Details, a: Answers)
    ensures AllPlain(MoveAndClose(cfg, v, to, reason, details, a))
  {
  }

  lemma StartIsPlain(cfg: Config, v: View, s: Segment)
    requires Awaits(s).None? && !s.Reserving? && !s.Executing? && !s.Remediating?
    ensures AllPlain(SegmentPlan(cfg, v, s))
  {
    hide Apply, DigestText, PreflightHolds, RequestValid, CommitmentMatches, CheckSignature, MakeReservation,
         MakePermit, Allowed;
  }

  lemma ExecuteReplyIsPlain(cfg: Config, v: View, reply: ConnectorReply, refusal: Option<ErrorKind>, a: Answers)
    ensures AllPlain(PlanExecuteReply(cfg, v, reply, refusal, a))
  {
  }

  lemma StatusReplyIsPlain(cfg: Config, v: View, reply: ConnectorReply, a: Answers)
    ensures AllPlain(PlanReconcileReply(cfg, v, reply, a))
  {
  }

  lemma RejectionIsPlain(cfg: Config, v: View, phase: Phase, code: string, a: Answers)
    ensures AllPlain(RejectionPlan(cfg, v, phase, code, a))
  {
  }

  lemma JudgementIsPlain(cfg: Config, w: View, e: Evidence, a: Answers)
    ensures AllPlain(JudgementPlan(cfg, w, e, a)) && AllPlain(RemedyJudgementPlan(cfg, w, e, a))
  {
    var details := EvidenceDetails(DigestEvidence(cfg.crypto, e));
    MoveAndCloseIsPlain(cfg, w, SATISFIED, "POSTCONDITION_SATISFIED", details, a);
    MoveAndCloseIsPlain(cfg, w, REMEDIATED, "REMEDY_VERIFIED", details, a);
    MoveAndCloseIsPlain(cfg, w, REMEDY_INCONCLUSIVE, "REMEDY_POSTCONDITION_UNRESOLVED", details, a);
  }

  lemma ObservedIsPlain(cfg: Config, v: View, o: Observation, a: Answers)
    ensures AllPlain(PlanObserved(cfg, v, o, a))
  {
    match Assess(cfg, v.rec, v.clock, o, Initial) {
      case Unavailable => RejectionIsPlain(cfg, v, Initial, "EVIDENCE_UNAVAILABLE", a);
      case RejectAs(code) => RejectionIsPlain(cfg, v, Initial, code, a);
      case Accept(e) => JudgementIsPlain(cfg, Apply(cfg, v, AcceptedEvidence(e)), e, a);
    }
  }

  lemma RemedyObservedIsPlain(cfg: Config, v: View, o: Observation, a: Answers)
    ensures AllPlain(PlanRemedyObserved(cfg, v, o, a))
  {
    match Assess(cfg, v.rec, v.clock, o, PostRemedy) {
      case Unavailable => RejectionIsPlain(cfg, v, PostRemedy, "REMEDY_EVIDENCE_UNAVAILABLE", a);
      case RejectAs(code) => RejectionIsPlain(cfg, v, PostRemedy, code, a);
      case Accept(e) => JudgementIsPlain(cfg, Apply(cfg, v, AcceptedEvidence(e)), e, a);
    }
  }

  lemma RemediateReplyIsPlain(cfg: Config, v: View, reply: ConnectorReply, a: Answers)
    ensures AllPlain(PlanRemediateReply(cfg, v, reply, a))
  {
    hide Apply, DigestText, AcceptedStatus, Allowed;
  }

  lemma RemedyStatusReplyIsPlain(cfg: Config, v: View, reply: ConnectorReply, a: Answers)
    ensures AllPlain(PlanReconcileRemedyReply(cfg, v, reply, a))
  {
    hide Apply, RemedyKeyReference, Allowed, ResultName;
  }

  lemma SegmentIsPlain(cfg: Config, v: View, s: Segment)
    requires !s.Reserving? && !s.Executing? && !s.Remediating?
    ensures AllPlain(SegmentPlan(cfg, v, s))
  {
    match s {
      case ExecuteReplied(reply, refusal, a) => ExecuteReplyIsPlain(cfg, v, reply, refusal, a);
      case Reconciled(reply, a) => StatusReplyIsPlain(cfg, v, reply, a);
      case OutcomeObserved(o, a) => ObservedIsPlain(cfg, v, o, a);
      case RemedyReplied(reply, a) => RemediateReplyIsPlain(cfg, v, reply, a);
      case RemedyReconciled(reply, a) => RemedyStatusReplyIsPlain(cfg, v, reply, a);
      case RemedyObserved(o, a) => RemedyObservedIsPlain(cfg, v, o, a);
      case _ => StartIsPlain(cfg, v, s);
    }
  }

  lemma TurnKeepsIdentity(cfg: Config, v: View, turn: Turn)
    ensures var w := TakeTurn(cfg, v, turn);
            && SameIdentity(v.rec, w.rec) && w.clock == turn.now
            && (!turn.segment.Reserving? && !turn.segment.Executing? && !turn.segment.Remediating? ==>
                 SameRecourse(v, w))
  {
    var entered := Entered(v, turn.segment, turn.now);
    var plan := Plan(cfg, v, turn.segment, turn.now);
    var steps := plan[..if turn.performed <= |plan| then turn.performed else |plan|];
    StepsKeepIdentity(cfg, entered, steps);
    if !turn.segment.Reserving? && !turn.segment.Executing? && !turn.segment.Remediating? {
      SegmentIsPlain(cfg, entered, turn.segment);
      assert forall step <- steps :: step in plan;
    }
  }

  // ----- The three segments that do more -----

  predicate Executes(v: View, plan: seq<Step>) {
    && |plan| == 2 && plan[0].Move? && plan[0].to == EXECUTING && plan[1].CallsExecute?
    && plan[1].execution.at == v.clock && plan[1].execution.proposal == v.rec.proposal
    && v.rec.state == PERMITTED && v.rec.permitUses == 0 && v.rec.reservation.Some?
  }

  predicate Remedies(v: View, a: Answers, plan: seq<Step>) {
    && v.rec.state == REMEDY_DUE && v.rec.reservation.Some? && ReadStatus(v.rec, a.probe) == Some(StatusActive)
    && |plan| == 2 && plan[0].Move? && plan[0].to == REMEDIATING
    && plan[1] == CallsRemediate(RemediateCall(v.clock, v.rec.proposal, v.rec.reservation.value, v.rec.remedyKey))
  }

  lemma ExecutePlanShape(cfg: Config, v: View, override: Option<Proposal>, a: Answers, measured: Option<Digest>)
    ensures var plan := PlanExecute(cfg, v, override, a, measured); AllPlain(plan) || Executes(v, plan)
  {
    hide Apply, PreflightHolds, DigestProposal, DigestPermit, CheckSignature;
  }

  lemma RemediatePlanShape(cfg: Config, v: View, a: Answers, measured: Option<Digest>)
    ensures var plan := PlanRemediate(cfg, v, a, measured); AllPlain(plan) || Remedies(v, a, plan)
  {
    if v.rec.state == REMEDY_DUE && v.rec.reservation.Some? {
      if v.rec.reservation.value.body.expiresAt <= v.clock {
        MoveAndCloseIsPlain(cfg, v, REVIEW_REQUIRED, "RECOURSE_EXPIRED", NoDetails, a);
      } else if ReadStatus(v.rec, a.probe).None? {
      } else if ReadStatus(v.rec, a.probe).value != StatusActive {
        MoveAndCloseIsPlain(cfg, v, REVIEW_REQUIRED, "RECOURSE_NOT_ACTIVE",
          StatusDetails(ReadStatus(v.rec, a.probe).value), a);
      } else if v.rec.reservation.value.body.kind == Escalate {
        MoveAndCloseIsPlain(cfg, v, REVIEW_REQUIRED, "REMEDY_REQUIRES_CHILD_ACTION", KindDetails(Escalate), a);
      } else {
        AttemptShape(cfg, v, a, measured);
      }
    }
  }

  lemma AttemptShape(cfg: Config, v: View, a: Answers, measured: Option<Digest>)
    requires v.rec.state == REMEDY_DUE && v.rec.reservation.Some? && ReadStatus(v.rec, a.probe) == Some(StatusActive)
    ensures var plan := PlanAttempt(cfg, v, measured); plan == [] || Remedies(v, a, plan)
  {
  }

  lemma MoveAndCallEffect(cfg: Config, v: View, move: Step, call: Step)
    requires move.Move? && (call.CallsExecute? || call.CallsRemediate?)
    ensures var w := Apply(cfg, Apply(cfg, v, move), call);
            && w.rec.state == move.to
            && w.rec.reservation == v.rec.reservation && w.rec.remedyKey == v.rec.remedyKey
            && w.rec.receipt == v.rec.receipt
            && w.executeCalls == v.executeCalls + (if call.CallsExecute? then [call.execution] else [])
            && w.remediateCalls == v.remediateCalls + (if call.CallsRemediate? then [call.remedy] else [])
            && w.pending == v.pending + multiset{if call.CallsExecute? then ExecuteReply else RemediateReply}
  {
  }

  /** connector.execute has been called in between, once, behind the move to EXECUTING. */
  predicate HasExecuted(v: View, w: View) {
    && w.rec.reservation == v.rec.reservation && w.rec.remedyKey == v.rec.remedyKey
    && w.remediateCalls == v.remediateCalls
    && v.rec.state == PERMITTED && v.rec.permitUses == 0 && v.rec.reservation.Some? && w.rec.state == EXECUTING
    && |w.executeCalls| == |v.executeCalls| + 1 && w.executeCalls[|v.executeCalls|].at == w.clock
    && w.pending == v.pending + multiset{ExecuteReply} && w.rec.receipt == v.rec.receipt
  }

  /** connector.remediate has been called in between, once, behind the move to REMEDIATING and a
      read that found the recourse active. */
  predicate HasRemedied(v: View, w: View, a: Answers) {
    && w.rec.reservation == v.rec.reservation && w.rec.remedyKey == v.rec.remedyKey && w.executeCalls == v.executeCalls
    && v.rec.state == REMEDY_DUE && v.rec.reservation.Some? && w.rec.state == REMEDIATING
    && ReadStatus(v.rec, a.probe) == Some(StatusActive)
    && |w.remediateCalls| == |v.remediateCalls| + 1
    && w.pending == v.pending + multiset{RemediateReply} && w.rec.receipt == v.rec.receipt
  }

  lemma ExecutionDone(cfg: Config, v: View, now: Time, plan: seq<Step>)
    requires Executes(v.(clock := now), plan)
    ensures HasExecuted(v, Apply(cfg, Apply(cfg, v.(clock := now), plan[0]), plan[1]))
  {
    MoveAndCallEffect(cfg, v.(clock := now), plan[0], plan[1]);
  }

  lemma RemedyDone(cfg: Config, v: View, now: Time, a: Answers, plan: seq<Step>)
    requires Remedies(v.(clock := now), a, plan)
    ensures HasRemedied(v, Apply(cfg, Apply(cfg, v.(clock := now), plan[0]), plan[1]), a)
  {
    MoveAndCallEffect(cfg, v.(clock := now), plan[0], plan[1]);
  }

  /** A turn of execute()'s first segment either calls the connector or changes neither recourse
      nor calls. */
  lemma ExecutingTurn(cfg: Config, v: View, turn: Turn)
    requires turn.segment.Executing?
    ensures SameRecourse(v, TakeTurn(cfg, v, turn)) || HasExecuted(v, TakeTurn(cfg, v, turn))
  {
    var entered := v.(clock := turn.now);
    var plan := PlanExecute(cfg, entered, turn.segment.override, turn.segment.answers, turn.segment.measured);
    ExecutePlanShape(cfg, entered, turn.segment.override, turn.segment.answers, turn.segment.measured);
    TwoStepTurn(cfg, v, turn, plan);
    if !AllPlain(plan) {
      ExecutionDone(cfg, v, turn.now, plan);
    }
  }

  /** The same for remediate(). */
  lemma RemediatingTurn(cfg: Config, v: View, turn: Turn)
    requires turn.segment.Remediating?
    ensures SameRecourse(v, TakeTurn(cfg, v, turn)) || HasRemedied(v, TakeTurn(cfg, v, turn), turn.segment.answers)
  {
    var plan := RemediatingPlan(cfg, v, turn);
    TwoStepTurn(cfg, v, turn, plan);
    if !AllPlain(plan) {
      RemedyDone(cfg, v, turn.now, turn.segment.answers, plan);
    }
  }

  lemma RemediatingPlan(cfg: Config, v: View, turn: Turn) returns (plan: seq<Step>)
    requires turn.segment.Remediating?
    ensures plan == Plan(cfg, v, turn.segment, turn.now)
    ensures AllPlain(plan) || Remedies(v.(clock := turn.now), turn.segment.answers, plan)
  {
    plan := Plan(cfg, v, turn.segment, turn.now);
    RemediatePlanShape(cfg, v.(clock := turn.now), turn.segment.answers, turn.segment.measured);
  }

  /** A plan of two steps performs none, the first, or both. */
  lemma TwoStepTurn(cfg: Config, v: View, turn: Turn, plan: seq<Step>)
    requires plan == Plan(cfg, v, turn.segment, turn.now) && Awaits(turn.segment).None?
    requires AllPlain(plan) || (|plan| == 2 && Plain(plan[0]))
    ensures var w := TakeTurn(cfg, v, turn);
            var entered := v.(clock := turn.now);
            SameRecourse(v, w) || (!AllPlain(plan) && w == Apply(cfg, Apply(cfg, entered, plan[0]), plan[1]))
  {
    var entered := v.(clock := turn.now);
    var steps := plan[..if turn.performed <= |plan| then turn.performed else |plan|];
    StepsKeepIdentity(cfg, entered, steps);
    if AllPlain(plan) {
      assert forall step <- steps :: step in plan;
    } else if |steps| < 2 {
      assert forall step <- steps :: step == plan[0];
    } else {
      assert steps == [plan[0], plan[1]];
      ApplyTwo(cfg, entered, plan[0], plan[1]);
    }
  }

  lemma ApplyTwo(cfg: Config, v: View, first: Step, second: Step)
    ensures ApplyAll(cfg, v, [first, second]) == Apply(cfg, Apply(cfg, v, first), second)
  {
    ApplyOne(cfg, v, [first], second);
    ApplyOne(cfg, v, [], first);
    assert [first] + [second] == [first, second] && [] + [first] == [first];
  }

  /** A turn that reserves turns the connector's commitment into the action's reservation. */
  lemma ReservingTurn(cfg: Config, v: View, turn: Turn)
    requires turn.segment.Reserving?
    ensures var w := TakeTurn(cfg, v, turn);
            var Reserving(r, caps, m) := turn.segment;
            SameRecourse(v, w) ||
            (&& w.executeCalls == v.executeCalls && w.remediateCalls == v.remediateCalls
             && v.rec.state == AUTHORIZED && m.Some? && w.rec.state == RECOURSE_RESERVED
             && v.rec.proposal.mode != Observed && RequestValid(v.rec, r, caps, turn.now)
             && w.rec.reservation == Some(MakeReservation(cfg, r, m.value, turn.now))
             && w.pending == v.pending && w.rec.receipt == v.rec.receipt)
  {
    var entered := v.(clock := turn.now);
    var plan := Plan(cfg, v, turn.segment, turn.now);
    var steps := plan[..if turn.performed <= |plan| then turn.performed else |plan|];
    if steps == [] {
      assert ApplyAll(cfg, entered, steps) == entered;
    } else {
      assert steps == plan && plan[..0] == [];
      assert ApplyAll(cfg, entered, plan) == Apply(cfg, entered, plan[0]);
    }
  }
}
