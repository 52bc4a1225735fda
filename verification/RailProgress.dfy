/** No stranding: a call that ran to its end never leaves an action in a state that only a
    suspended call could move on. Which calls move a resting action on, and which actions rest
    for good. */
module RailProgress {
  import opened RailStates
  import opened Artifacts
  import opened EventStore
  import opened Verify
  import opened VerifySoundness
  import opened Recovery
  import opened RailModel
  import opened RailInvariant
  import opened RailRuns

  /** The part of a view that stranding is about. */
  datatype Gist = Gist(state: State, pending: multiset<Token>)

  function GistOf(v: View): Gist { Gist(v.rec.state, v.pending) }

  /** Every transient state has the call that will leave it still suspended. */
  predicate Attended(g: Gist) {
    match g.state
    case EXECUTING => ExecuteReply in g.pending
    case VERIFYING => ObserveReply in g.pending
    case BREACHED => false
    case REMEDIATING => RemediateReply in g.pending
    case REMEDY_VERIFYING => RemedyObserveReply in g.pending
    case _ => true
  }

  predicate Transient(s: State) { s in {EXECUTING, VERIFYING, BREACHED, REMEDIATING, REMEDY_VERIFYING} }

  function Suspends(step: Step): multiset<Token> {
    match step
    case CallsExecute(_) => multiset{ExecuteReply}
    case CallsRemediate(_) => multiset{RemediateReply}
    case Calls(t) => multiset{t}
    case _ => multiset{}
  }

  function Advance(g: Gist, step: Step): Gist {
    Gist(if Target(step).Some? then Target(step).value else g.state, g.pending + Suspends(step))
  }

  /** A plan seen from its first step. */
  function AdvanceAll(g: Gist, steps: seq<Step>): Gist
    decreases |steps|
  {
    if steps == [] then g else AdvanceAll(Advance(g, steps[0]), steps[1..])
  }

  lemma StepAdvances(cfg: Config, v: View, step: Step)
    ensures GistOf(Apply(cfg, v, step)) == Advance(GistOf(v), step)
  {
  }

  lemma {:induction false} AdvanceLast(g: Gist, steps: seq<Step>, step: Step)
    ensures AdvanceAll(g, steps + [step]) == Advance(AdvanceAll(g, steps), step)
    decreases |steps|
  {
    if steps == [] {
      assert [] + [step] == [step];
    } else {
      assert (steps + [step])[1..] == steps[1..] + [step];
      AdvanceLast(Advance(g, steps[0]), steps[1..], step);
    }
  }

  lemma {:induction false} StepsAdvance(cfg: Config, v: View, steps: seq<Step>)
    ensures GistOf(ApplyAll(cfg, v, steps)) == AdvanceAll(GistOf(v), steps)
  {
    hide Apply, Advance;
    if steps != [] {
      var n := |steps| - 1;
      var w := ApplyAll(cfg, v, steps[..n]);
      StepsAdvance(cfg, v, steps[..n]);
      StepAdvances(cfg, w, steps[n]);
      AdvanceLast(GistOf(v), steps[..n], steps[n]);
      assert steps[..n] + [steps[n]] == steps;
      ApplyOne(cfg, v, steps[..n], steps[n]);
    }
  }

  lemma {:induction false} AdvanceConcat(g: Gist, pre: seq<Step>, post: seq<Step>)
    ensures AdvanceAll(g, pre + post) == AdvanceAll(AdvanceAll(g, pre), post)
    decreases |pre|
  {
    if pre == [] {
      assert pre + post == post;
    } else {
      assert (pre + post)[1..] == pre[1..] + post;
      AdvanceConcat(Advance(g, pre[0]), pre[1..], post);
    }
  }

  lemma AdvanceFirst(g: Gist, step: Step, rest: seq<Step>)
    ensures AdvanceAll(g, [step] + rest) == AdvanceAll(Advance(g, step), rest)
    ensures AdvanceAll(g, [step]) == Advance(g, step)
  {
    assert ([step] + rest)[1..] == rest;
    assert [step][1..] == [];
  }

  lemma AdvanceNothing(g: Gist)
    ensures AdvanceAll(g, []) == g
  {
  }

  // ----- Parts of plans, wherever they were planned -----

  lemma FinalizeRests(g: Gist, w: View, release: bool, reason: string, a: Answers)
    ensures AdvanceAll(g, FinalizePlan(w, release, reason, a)) == g
  {
    var plan := FinalizePlan(w, release, reason, a);
    if plan != [] {
      assert plan == [plan[0]];
      AdvanceFirst(g, plan[0], []);
    }
  }

  lemma CloseRests(g: Gist, w: View, a: Answers)
    ensures var h := AdvanceAll(g, ClosePlan(w, a)); h == g || h == g.(state := CLOSED)
  {
    match OutcomeOf(w.rec.state) {
      case None =>
      case Some(o) =>
        var finalize := FinalizePlan(w, o != Disputed, SettlementReason(o), a);
        FinalizeRests(g, w, o != Disputed, SettlementReason(o), a);
        AdvanceConcat(g, finalize, []);
        AdvanceConcat(g, finalize, [Settles(o)]);
        AdvanceFirst(g, Settles(o), []);
    }
  }

  lemma MoveRests(g: Gist, v: View, to: State, reason: string, details: Details, rest: seq<Step>)
    requires g == GistOf(v)
    ensures AdvanceAll(g, MoveThen(v, to, reason, details, rest)) ==
              if Allowed(g.state, to) then AdvanceAll(g.(state := to), rest) else g
  {
    if Allowed(v.rec.state, to) {
      var step := Move(to, reason, details);
      AdvanceFirst(g, step, rest);
      assert Advance(g, step) == g.(state := to) by {
        assert g.pending + multiset{} == g.pending;
      }
    }
  }

  /** Where a plan that moves and then closes ends. */
  predicate Ends(g: Gist, h: Gist, to: State) {
    if Allowed(g.state, to) then h == g.(state := to) || h == g.(state := CLOSED) else h == g
  }

  lemma MoveAndCloseRests(cfg: Config, g: Gist, v: View, to: State, reason: string, details: Details, a: Answers)
    requires g == GistOf(v)
    ensures Ends(g, AdvanceAll(g, MoveAndClose(cfg, v, to, reason, details, a)), to)
  {
    var w := Apply(cfg, v, Move(to, reason, details));
    MoveRests(g, v, to, reason, details, ClosePlan(w, a));
    CloseRests(g.(state := to), w, a);
  }

  lemma MoveAndFinalizeRests(cfg: Config, g: Gist, v: View, to: State, reason: string, details: Details, a: Answers)
    requires g == GistOf(v)
    ensures Ends(g, AdvanceAll(g, MoveAndFinalize(cfg, v, to, reason, details, a)), to)
  {
    var w := Apply(cfg, v, Move(to, reason, details));
    MoveRests(g, v, to, reason, details, FinalizePlan(w, true, reason, a));
    FinalizeRests(g.(state := to), w, true, reason, a);
  }

  lemma MoveThenCallRests(g: Gist, v: View, to: State, reason: string, details: Details, t: Token)
    requires g == GistOf(v)
    ensures AdvanceAll(g, MoveThen(v, to, reason, details, [Calls(t)])) ==
              if Allowed(g.state, to) then Gist(to, g.pending + multiset{t}) else g
  {
    MoveRests(g, v, to, reason, details, [Calls(t)]);
    AdvanceFirst(g.(state := to), Calls(t), []);
  }

  // ----- Segment by segment -----

  lemma SingleStarts(cfg: Config, v: View, s: Segment)
    requires Attended(GistOf(v))
    requires s.Authorizing? || s.Reserving? || s.AcceptingPreflight? || s.Reconciling? || s.ReconcilingRemedy?
    ensures Attended(AdvanceAll(GistOf(v), SegmentPlan(cfg, v, s)))
  {
    hide MakeReservation, VerifyPreflight, RequestValid, CommitmentMatches, CheckSignature, DigestText;
    var plan := SegmentPlan(cfg, v, s);
    if plan != [] {
      assert plan == [plan[0]];
      AdvanceFirst(GistOf(v), plan[0], []);
    }
  }

  lemma VerifyOutcomeStarts(v: View)
    requires Attended(GistOf(v))
    ensures Attended(AdvanceAll(GistOf(v), PlanVerifyOutcome(v)))
  {
    if v.rec.state == EXECUTED {
      MoveThenCallRests(GistOf(v), v, VERIFYING, "OUTCOME_VERIFICATION_STARTED", NoDetails, ObserveReply);
      assert PlanVerifyOutcome(v) == MoveThen(v, VERIFYING, "OUTCOME_VERIFICATION_STARTED", NoDetails,
        [Calls(ObserveReply)]);
    }
  }

  lemma EndEarly(cfg: Config, v: View, to: State, reason: string, details: Details, a: Answers)
    requires Attended(GistOf(v)) && to in {EXPIRED, REVOKED}
    ensures Attended(AdvanceAll(GistOf(v), MoveAndFinalize(cfg, v, to, reason, details, a)))
  {
    MoveAndFinalizeRests(cfg, GistOf(v), v, to, reason, details, a);
  }

  lemma IssuePermitStarts(cfg: Config, v: View, caps: Option<Capabilities>, a: Answers, measured: Option<Digest>)
    requires Attended(GistOf(v))
    ensures Attended(AdvanceAll(GistOf(v), PlanIssuePermit(cfg, v, caps, a, measured)))
  {
    if v.rec.state != RECOURSE_RESERVED || v.rec.reservation.None? || v.rec.authorization.None? {
    } else if v.rec.proposal.expiresAt <= v.clock {
      EndEarly(cfg, v, EXPIRED, "ACTION_EXPIRED", NoDetails, a);
    } else if v.rec.reservation.value.body.expiresAt <= v.clock {
      EndEarly(cfg, v, EXPIRED, "RECOURSE_EXPIRED", NoDetails, a);
    } else {
      match ReadStatus(v.rec, a.probe) {
        case None =>
        case Some(status) =>
          if status != StatusActive {
            EndEarly(cfg, v, REVOKED, "CONNECTOR_RECOURSE_NOT_ACTIVE", StatusDetails(status), a);
          } else {
            SinglePermitStarts(v, PlanIssuePermit(cfg, v, caps, a, measured));
          }
      }
    }
  }

  lemma SinglePermitStarts(v: View, plan: seq<Step>)
    requires Attended(GistOf(v)) && (plan == [] || (|plan| == 1 && plan[0].Permitted?))
    ensures Attended(AdvanceAll(GistOf(v), plan))
  {
    if plan != [] {
      assert plan == [plan[0]];
      AdvanceFirst(GistOf(v), plan[0], []);
    }
  }

  lemma CallPairStarts(g: Gist, plan: seq<Step>, t: Token)
    requires |plan| == 2 && plan[0].Move? && Suspends(plan[1]) == multiset{t} && Target(plan[1]).None?
    requires (plan[0].to == EXECUTING && t == ExecuteReply) || (plan[0].to == REMEDIATING && t == RemediateReply)
    ensures Attended(AdvanceAll(g, plan))
  {
    assert plan == [plan[0]] + [plan[1]];
    AdvanceFirst(g, plan[0], [plan[1]]);
    AdvanceFirst(Advance(g, plan[0]), plan[1], []);
  }

  lemma ExecuteStarts(cfg: Config, v: View, override: Option<Proposal>, a: Answers, measured: Option<Digest>)
    requires Attended(GistOf(v))
    ensures Attended(AdvanceAll(GistOf(v), PlanExecute(cfg, v, override, a, measured)))
  {
    hide Apply, FinalizePlan, PreflightHolds, CheckSignature, DigestProposal, DigestPermit, GistOf, ReadStatus;
    if v.rec.permitUses != 0 || v.rec.state != PERMITTED || v.rec.permit.None? || v.rec.reservation.None?
      || v.rec.authorization.None? {
    } else if v.rec.permit.value.body.expiresAt <= v.clock {
      EndEarly(cfg, v, EXPIRED, "PERMIT_EXPIRED", NoDetails, a);
    } else if v.rec.reservation.value.body.expiresAt <= v.clock {
      EndEarly(cfg, v, EXPIRED, "RECOURSE_EXPIRED", NoDetails, a);
    } else {
      match ReadStatus(v.rec, a.probe) {
        case None =>
        case Some(status) =>
          if status != StatusActive {
            EndEarly(cfg, v, REVOKED, "CONNECTOR_RECOURSE_NOT_ACTIVE", StatusDetails(status), a);
          } else {
            CallPairOrNothing(v, PlanExecute(cfg, v, override, a, measured), ExecuteReply);
          }
      }
    }
  }

  lemma CallPairOrNothing(v: View, plan: seq<Step>, t: Token)
    requires Attended(GistOf(v))
    requires plan == [] || (|plan| == 2 && plan[0].Move? && Suspends(plan[1]) == multiset{t} && Target(plan[1]).None?
      && ((plan[0].to == EXECUTING && t == ExecuteReply) || (plan[0].to == REMEDIATING && t == RemediateReply)))
    ensures Attended(AdvanceAll(GistOf(v), plan))
  {
    if plan != [] {
      CallPairStarts(GistOf(v), plan, t);
    }
  }

  lemma ReviewRests(cfg: Config, v: View, reason: string, details: Details, a: Answers)
    requires Attended(GistOf(v))
    ensures Attended(AdvanceAll(GistOf(v), MoveAndClose(cfg, v, REVIEW_REQUIRED, reason, details, a)))
  {
    MoveAndCloseRests(cfg, GistOf(v), v, REVIEW_REQUIRED, reason, details, a);
  }

  lemma RemediateStarts(cfg: Config, v: View, a: Answers, measured: Option<Digest>)
    requires Attended(GistOf(v))
    ensures Attended(AdvanceAll(GistOf(v), PlanRemediate(cfg, v, a, measured)))
  {
    if v.rec.state != REMEDY_DUE || v.rec.reservation.None? {
    } else if v.rec.reservation.value.body.expiresAt <= v.clock {
      ReviewRests(cfg, v, "RECOURSE_EXPIRED", NoDetails, a);
    } else {
      match ReadStatus(v.rec, a.probe) {
        case None =>
        case Some(status) =>
          if status != StatusActive {
            ReviewRests(cfg, v, "RECOURSE_NOT_ACTIVE", StatusDetails(status), a);
          } else if v.rec.reservation.value.body.kind == Escalate {
            ReviewRests(cfg, v, "REMEDY_REQUIRES_CHILD_ACTION", KindDetails(Escalate), a);
          } else {
            CallPairOrNothing(v, PlanRemediate(cfg, v, a, measured), RemediateReply);
          }
      }
    }
  }

  /** Attended, but for the one reply that has just arrived. */
  predicate AttendedBut(g: Gist, awaited: Token) {
    Attended(g.(pending := g.pending + multiset{awaited}))
  }

  lemma ExecuteFailureEnds(cfg: Config, v: View, e: ErrorKind, a: Answers)
    requires AttendedBut(GistOf(v), ExecuteReply)
    ensures Attended(AdvanceAll(GistOf(v), PlanExecuteFailure(cfg, v, e, a)))
  {
    MoveAndFinalizeRests(cfg, GistOf(v), v, FAILED, ErrorCode(e), KeyReference(cfg.crypto, v.rec), a);
    MoveRests(GistOf(v), v, UNKNOWN, "EXECUTION_AMBIGUOUS", KeyReference(cfg.crypto, v.rec), []);
  }

  lemma ExecuteReplyEnds(cfg: Config, v: View, reply: ConnectorReply, refusal: Option<ErrorKind>, a: Answers)
    requires AttendedBut(GistOf(v), ExecuteReply)
    ensures Attended(AdvanceAll(GistOf(v), PlanExecuteReply(cfg, v, reply, refusal, a)))
  {
    hide Apply, FinalizePlan, DigestText;
    ExecuteFailureEnds(cfg, v, OtherFailure, a);
    if refusal.Some? {
      ExecuteFailureEnds(cfg, v, refusal.value, a);
    }
    if reply.Threw? {
      ExecuteFailureEnds(cfg, v, reply.error, a);
    }
    AdvanceFirst(GistOf(v), Move(EXECUTED, "CONNECTOR_EXECUTED", ReplyReference(cfg.crypto, v.rec, reply)), []);
  }

  lemma ReconcileReplyEnds(cfg: Config, v: View, reply: ConnectorReply, a: Answers)
    requires AttendedBut(GistOf(v), StatusReply)
    ensures Attended(AdvanceAll(GistOf(v), PlanReconcileReply(cfg, v, reply, a)))
  {
    hide Apply, MoveAndClose, MoveAndFinalize, MoveThen, AcceptedStatus, Advance, Suspends;
    match AcceptedStatus(reply, v.rec.proposal.idempotencyKey, EXECUTION_STATUSES) {
      case None =>
      case Some(Executed) =>
        MoveRests(GistOf(v), v, EXECUTED, "STATUS_CONFIRMED_EXECUTED", ReplyReference(cfg.crypto, v.rec, reply), []);
      case Some(NoEffect) =>
        MoveAndFinalizeRests(cfg, GistOf(v), v, FAILED, "STATUS_CONFIRMED_NO_EFFECT", KeyReference(cfg.crypto, v.rec),
          a);
      case Some(_) =>
        MoveAndCloseRests(cfg, GistOf(v), v, REVIEW_REQUIRED, "STATUS_UNRESOLVED", NoDetails, a);
    }
  }

  function AwaitedBy(phase: Phase): Token { if phase == PostRemedy then RemedyObserveReply else ObserveReply }

  lemma RejectionEnds(cfg: Config, v: View, phase: Phase, code: string, a: Answers)
    requires AttendedBut(GistOf(v), AwaitedBy(phase))
    ensures Attended(AdvanceAll(GistOf(v), RejectionPlan(cfg, v, phase, code, a)))
  {
    var reject := RejectedEvidence(phase, code);
    var to := if phase == PostRemedy then REMEDY_INCONCLUSIVE else INCONCLUSIVE;
    var w := Apply(cfg, v, reject);
    StepAdvances(cfg, v, reject);
    MoveAndCloseRests(cfg, GistOf(v), w, to, code, NoDetails, a);
    AdvanceFirst(GistOf(v), reject, MoveAndClose(cfg, w, to, code, NoDetails, a));
  }

  /** Acceptance, then a move to a settling state the phase allows. */
  lemma SettlementEnds(cfg: Config, v: View, e: Evidence, phase: Phase, to: State, reason: string, details: Details,
      a: Answers)
    requires AttendedBut(GistOf(v), AwaitedBy(phase))
    requires if phase == PostRemedy then to in {REMEDIATED, REMEDY_INCONCLUSIVE} else to == SATISFIED
    ensures var w := Apply(cfg, v, AcceptedEvidence(e));
            Attended(AdvanceAll(GistOf(v), [AcceptedEvidence(e)] + MoveAndClose(cfg, w, to, reason, details, a)))
  {
    hide MoveAndClose, DigestEvidence, Apply, AdvanceAll;
    var accept := AcceptedEvidence(e);
    var w := Apply(cfg, v, accept);
    StepAdvances(cfg, v, accept);
    MoveAndCloseRests(cfg, GistOf(v), w, to, reason, details, a);
    AdvanceFirst(GistOf(v), accept, MoveAndClose(cfg, w, to, reason, details, a));
  }

  lemma BreachEnds(cfg: Config, v: View, e: Evidence, details: Details, due: Step)
    requires AttendedBut(GistOf(v), ObserveReply) && due.Move? && due.to == REMEDY_DUE
    ensures var w := Apply(cfg, v, AcceptedEvidence(e));
            Attended(AdvanceAll(GistOf(v),
              [AcceptedEvidence(e)] + MoveThen(w, BREACHED, "POSTCONDITION_BREACHED", details, [due])))
  {
    var accept := AcceptedEvidence(e);
    var w := Apply(cfg, v, accept);
    StepAdvances(cfg, v, accept);
    MoveRests(GistOf(v), w, BREACHED, "POSTCONDITION_BREACHED", details, [due]);
    AdvanceFirst(GistOf(v).(state := BREACHED), due, []);
    AdvanceFirst(GistOf(v), accept, MoveThen(w, BREACHED, "POSTCONDITION_BREACHED", details, [due]));
  }

  lemma ObservedEnds(cfg: Config, v: View, o: Observation, a: Answers)
    requires AttendedBut(GistOf(v), ObserveReply)
    ensures Attended(AdvanceAll(GistOf(v), PlanObserved(cfg, v, o, a)))
  {
    hide DigestEvidence, Assess, Attended, AttendedBut, RejectionPlan, AdvanceAll, MoveThen, Advance, Suspends,
         MoveAndClose;
    match Assess(cfg, v.rec, v.clock, o, Initial) {
      case Unavailable => RejectionEnds(cfg, v, Initial, "EVIDENCE_UNAVAILABLE", a);
      case RejectAs(code) => RejectionEnds(cfg, v, Initial, code, a);
      case Accept(e) =>
        var details := EvidenceDetails(DigestEvidence(cfg.crypto, e));
        SettlementEnds(cfg, v, e, Initial, SATISFIED, "POSTCONDITION_SATISFIED", details, a);
        BreachEnds(cfg, v, e, details,
          Move(REMEDY_DUE, "RESERVED_REMEDY_DUE", ReservationReference(cfg.crypto, v.rec)));
    }
  }

  lemma RemedyObservedEnds(cfg: Config, v: View, o: Observation, a: Answers)
    requires AttendedBut(GistOf(v), RemedyObserveReply)
    ensures Attended(AdvanceAll(GistOf(v), PlanRemedyObserved(cfg, v, o, a)))
  {
    match Assess(cfg, v.rec, v.clock, o, PostRemedy) {
      case Unavailable => RejectionEnds(cfg, v, PostRemedy, "REMEDY_EVIDENCE_UNAVAILABLE", a);
      case RejectAs(code) => RejectionEnds(cfg, v, PostRemedy, code, a);
      case Accept(e) =>
        var details := EvidenceDetails(DigestEvidence(cfg.crypto, e));
        SettlementEnds(cfg, v, e, PostRemedy, REMEDIATED, "REMEDY_VERIFIED", details, a);
        SettlementEnds(cfg, v, e, PostRemedy, REMEDY_INCONCLUSIVE, "REMEDY_POSTCONDITION_UNRESOLVED", details, a);
    }
  }

  lemma RemedyFailureEnds(cfg: Config, v: View, reason: string, details: Details, a: Answers)
    requires AttendedBut(GistOf(v), RemediateReply)
    ensures Attended(AdvanceAll(GistOf(v), MoveAndClose(cfg, v, REMEDY_FAILED, reason, details, a)))
  {
    hide AdvanceAll, MoveAndClose;
    MoveAndCloseRests(cfg, GistOf(v), v, REMEDY_FAILED, reason, details, a);
  }

  lemma RemedyAmbiguityEnds(v: View, reason: string, details: Details)
    requires AttendedBut(GistOf(v), RemediateReply)
    ensures Attended(AdvanceAll(GistOf(v), MoveThen(v, REMEDY_UNKNOWN, reason, details, [])))
  {
    hide AdvanceAll, MoveThen;
    MoveRests(GistOf(v), v, REMEDY_UNKNOWN, reason, details, []);
    AdvanceNothing(Gist(REMEDY_UNKNOWN, v.pending));
  }

  lemma RemedyConfirmationEnds(v: View, reason: string, details: Details)
    requires AttendedBut(GistOf(v), RemediateReply)
    ensures Attended(AdvanceAll(GistOf(v), MoveThen(v, REMEDY_VERIFYING, reason, details, [Calls(RemedyObserveReply)])))
  {
    hide AdvanceAll, MoveThen;
    MoveThenCallRests(GistOf(v), v, REMEDY_VERIFYING, reason, details, RemedyObserveReply);
  }

  lemma RemediateReplyEnds(cfg: Config, v: View, reply: ConnectorReply, a: Answers)
    requires AttendedBut(GistOf(v), RemediateReply)
    ensures Attended(AdvanceAll(GistOf(v), PlanRemediateReply(cfg, v, reply, a)))
  {
    hide Attended, AttendedBut, AdvanceAll, MoveAndClose, MoveThen, AcceptedStatus, ResultName, RemedyKeyReference;
    var key := RemedyKeyReference(cfg.crypto, v.rec);
    match AcceptedStatus(reply, v.rec.remedyKey, REMEDY_RESULTS) {
      case None =>
        RemedyFailureEnds(cfg, v, "IDEMPOTENCY_CONFLICT", key, a);
        RemedyAmbiguityEnds(v, "REMEDY_EXECUTION_AMBIGUOUS", key);
      case Some(Remediated) => RemedyConfirmationEnds(v, "REMEDY_EXECUTION_CONFIRMED", key);
      case Some(status) => RemedyFailureEnds(cfg, v, "REMEDY_CONNECTOR_FAILED", ResultDetails(ResultName(status)), a);
    }
  }

  lemma ReconcileRemedyReplyEnds(cfg: Config, v: View, reply: ConnectorReply, a: Answers)
    requires AttendedBut(GistOf(v), RemedyStatusReply)
    ensures Attended(AdvanceAll(GistOf(v), PlanReconcileRemedyReply(cfg, v, reply, a)))
  {
    hide Apply, ClosePlan, AdvanceAll, AcceptedStatus, RemedyKeyReference, MoveAndClose, MoveThen;
    var key := RemedyKeyReference(cfg.crypto, v.rec);
    match AcceptedStatus(reply, v.rec.remedyKey, REMEDY_STATUSES) {
      case None => AdvanceNothing(GistOf(v));
      case Some(Remediated) => MoveThenCallRests(GistOf(v), v, REMEDY_VERIFYING, "REMEDY_STATUS_CONFIRMED", key,
        RemedyObserveReply);
      case Some(status) =>
        if status == NoEffect || status == RailModel.Failed {
          MoveAndCloseRests(cfg, GistOf(v), v, REMEDY_FAILED, "REMEDY_STATUS_CONFIRMED_NO_EFFECT",
            ResultDetails(ResultName(status)), a);
        } else {
          MoveAndCloseRests(cfg, GistOf(v), v, REVIEW_REQUIRED, "REMEDY_STATUS_UNRESOLVED", key, a);
        }
    }
  }

  lemma StartSegmentEnds(cfg: Config, v: View, s: Segment)
    requires Awaits(s).None? && Attended(GistOf(v))
    ensures Attended(AdvanceAll(GistOf(v), SegmentPlan(cfg, v, s)))
  {
    match s {
      case IssuingPermit(caps, a, measured) => IssuePermitStarts(cfg, v, caps, a, measured);
      case Executing(override, a, measured) => ExecuteStarts(cfg, v, override, a, measured);
      case Remediating(a, measured) => RemediateStarts(cfg, v, a, measured);
      case VerifyingOutcome => VerifyOutcomeStarts(v);
      case _ => SingleStarts(cfg, v, s);
    }
  }

  lemma ReplySegmentEnds(cfg: Config, v: View, s: Segment)
    requires Awaits(s).Some? && AttendedBut(GistOf(v), Awaits(s).value)
    ensures Attended(AdvanceAll(GistOf(v), SegmentPlan(cfg, v, s)))
  {
    hide PlanExecuteReply, PlanReconcileReply, PlanObserved, PlanRemediateReply, PlanReconcileRemedyReply,
         PlanRemedyObserved, AdvanceAll, Attended, AttendedBut;
    match s {
      case ExecuteReplied(reply, refusal, a) => ExecuteReplyEnds(cfg, v, reply, refusal, a);
      case Reconciled(reply, a) => ReconcileReplyEnds(cfg, v, reply, a);
      case OutcomeObserved(o, a) => ObservedEnds(cfg, v, o, a);
      case RemedyReplied(reply, a) => RemediateReplyEnds(cfg, v, reply, a);
      case RemedyReconciled(reply, a) => ReconcileRemedyReplyEnds(cfg, v, reply, a);
      case RemedyObserved(o, a) => RemedyObservedEnds(cfg, v, o, a);
    }
  }

  lemma CompleteTurnKeepsAttended(cfg: Config, v: View, t: Turn)
    requires CanRun(v, t.segment, t.now) && Attended(GistOf(v))
    requires t.performed >= |Plan(cfg, v, t.segment, t.now)|
    ensures Attended(GistOf(TakeTurn(cfg, v, t)))
  {
    var w := Entered(v, t.segment, t.now);
    var plan := SegmentPlan(cfg, w, t.segment);
    assert plan[..|plan|] == plan;
    StepsAdvance(cfg, w, plan);
    match Awaits(t.segment) {
      case None => StartSegmentEnds(cfg, w, t.segment);
      case Some(token) =>
        assert w.pending + multiset{token} == v.pending;
        ReplySegmentEnds(cfg, w, t.segment);
    }
  }

  /** If the store refuses no append, then in every run, under every interleaving and whatever
      the connector returns or throws, no action without a suspended call is in a transient
      state: every transient state has the call that will leave it still suspended. */
  lemma {:induction false} NoStranding(cfg: Config, p: Proposal, start: Time, turns: seq<Turn>, views: seq<View>,
      i: nat)
    requires Run(cfg, p, start, turns, views) && i <= |turns|
    requires forall j :: 0 <= j < |turns| ==>
             turns[j].performed >= |Plan(cfg, views[j], turns[j].segment, turns[j].now)|
    ensures Attended(GistOf(views[i]))
    ensures views[i].pending == multiset{} ==> !Transient(views[i].rec.state)
  {
    hide Plan, TakeTurn, ProposalValid;
    if i > 0 {
      NoStranding(cfg, p, start, turns, views, i - 1);
      CompleteTurnKeepsAttended(cfg, views[i - 1], turns[i - 1]);
    }
  }

  // ----- Where a resting action can go -----

  /** Nothing moves these: the final states, and the settling states, in which a close has failed. */
  predicate Settled(s: State) { s in {DENIED, EXPIRED, REVOKED, FAILED, CLOSED} || OutcomeOf(s).Some? }

  function LaterOf(a: Time, b: Time): (t: Time)
    ensures t >= a && t >= b
  {
    if a < b then b else a
  }

  const NO_ANSWERS := Answers(StatusThrew, false, StatusThrew)

  /** A call that takes a resting action on, whatever the connector answers. */
  function CallOn(s: State): Segment
    requires s in {PROPOSED, RECOURSE_RESERVED, PERMITTED, UNKNOWN, EXECUTED, REMEDY_DUE, REMEDY_UNKNOWN}
  {
    match s
    case PROPOSED => Authorizing(Decision(false, "", "", false))
    case RECOURSE_RESERVED => IssuingPermit(None, NO_ANSWERS, None)
    case PERMITTED => Executing(None, NO_ANSWERS, None)
    case UNKNOWN => Reconciling
    case EXECUTED => VerifyingOutcome
    case REMEDY_DUE => Remediating(NO_ANSWERS, None)
    case REMEDY_UNKNOWN => ReconcilingRemedy
  }

  /** A time at which the reserved recourse, if any, has expired. */
  function LateEnough(v: View): Time {
    if v.rec.reservation.Some? then LaterOf(v.clock, v.rec.reservation.value.body.expiresAt) else v.clock
  }

  /** Nothing is suspended and no call of any kind, at any time, changes record, log or calls. */
  ghost predicate RestsForGood(cfg: Config, v: View) {
    forall t: Turn | CanRun(v, t.segment, t.now) ::
      var w := TakeTurn(cfg, v, t);
      w.rec == v.rec && w.log == v.log && w.pending == v.pending && w.executeCalls == v.executeCalls
        && w.remediateCalls == v.remediateCalls
  }

  lemma SettledRestsForGood(cfg: Config, v: View)
    requires v.pending == multiset{} && Settled(v.rec.state)
    ensures RestsForGood(cfg, v)
  {
    forall t: Turn | CanRun(v, t.segment, t.now)
      ensures TakeTurn(cfg, v, t) == v.(clock := t.now)
    {
      SettledPlansNothing(cfg, Entered(v, t.segment, t.now), t.segment);
    }
  }

  lemma SettledPlansNothing(cfg: Config, v: View, s: Segment)
    requires Settled(v.rec.state) && Awaits(s).None?
    ensures SegmentPlan(cfg, v, s) == []
  {
  }

  /** Every resting action that is neither settled nor waiting for recourse has a call that leaves
      its state, or that asks the connector, whatever the connector answers. */
  lemma CallMovesOn(cfg: Config, v: View)
    requires Core(cfg, v) && v.pending == multiset{} && Attended(GistOf(v))
    requires !Settled(v.rec.state) && v.rec.state != AUTHORIZED
    ensures v.rec.state in {PROPOSED, RECOURSE_RESERVED, PERMITTED, UNKNOWN, EXECUTED, REMEDY_DUE, REMEDY_UNKNOWN}
    ensures CanRun(v, CallOn(v.rec.state), LateEnough(v))
    ensures forall n: nat :: n >= |Plan(cfg, v, CallOn(v.rec.state), LateEnough(v))| ==>
              GistOf(TakeTurn(cfg, v, Turn(CallOn(v.rec.state), LateEnough(v), n))) != GistOf(v)
  {
    hide ApplyAll, AdvanceAll, SegmentPlan, PermitGood, ReservationGood, LogAgrees, CallsOk;
    var s := CallOn(v.rec.state);
    var w := Entered(v, s, LateEnough(v));
    var plan := SegmentPlan(cfg, w, s);
    assert plan[..|plan|] == plan;
    StepsAdvance(cfg, w, plan);
    if v.rec.state in {RECOURSE_RESERVED, PERMITTED, REMEDY_DUE} {
      if v.rec.state == PERMITTED {
        PermitIsUnused(cfg, v);
      }
      ExpiredMovesOn(cfg, w);
    } else if v.rec.state == EXECUTED {
      VerifyingMovesOn(cfg, w);
    } else {
      StartMovesOn(cfg, w);
    }
  }

  lemma PermitIsUnused(cfg: Config, v: View)
    requires LogAgrees(cfg, v) && v.rec.state == PERMITTED
    ensures v.rec.permitUses == 0
  {
    hide RecordedAgrees, ChainValid, LastState, Allowed;
    ReplayReachesLastState(v.rec.actionId, v.log);
    VisitedAtMostOnce(Replay(v.rec.actionId, v.log).value, EXECUTING);
  }

  lemma StepMovesOn(g: Gist, step: Step)
    requires g.pending == multiset{}
    requires step.Calls? || (step.Authorized? && g.state == PROPOSED)
    ensures AdvanceAll(g, [step]) != g
  {
    hide AdvanceAll;
    AdvanceFirst(g, step, []);
    if step.Calls? {
      assert step.token in Suspends(step);
    }
  }

  lemma StartMovesOn(cfg: Config, w: View)
    requires w.rec.state in {PROPOSED, UNKNOWN, REMEDY_UNKNOWN} && w.pending == multiset{}
    ensures AdvanceAll(GistOf(w), SegmentPlan(cfg, w, CallOn(w.rec.state))) != GistOf(w)
  {
    hide AdvanceAll, Target, Suspends;
    var plan := SegmentPlan(cfg, w, CallOn(w.rec.state));
    assert plan == [plan[0]];
    StepMovesOn(GistOf(w), plan[0]);
  }

  lemma VerifyingMovesOn(cfg: Config, w: View)
    requires w.rec.state == EXECUTED
    ensures AdvanceAll(GistOf(w), SegmentPlan(cfg, w, VerifyingOutcome)) != GistOf(w)
  {
    hide AdvanceAll;
    MoveThenCallRests(GistOf(w), w, VERIFYING, "OUTCOME_VERIFICATION_STARTED", NoDetails, ObserveReply);
    assert SegmentPlan(cfg, w, VerifyingOutcome) == MoveThen(w, VERIFYING, "OUTCOME_VERIFICATION_STARTED", NoDetails,
      [Calls(ObserveReply)]);
  }

  lemma ExpiredMovesOn(cfg: Config, w: View)
    requires RecordOk(cfg, w.rec) && w.rec.state in {RECOURSE_RESERVED, PERMITTED, REMEDY_DUE}
    requires w.rec.reservation.Some? && w.rec.reservation.value.body.expiresAt <= w.clock
    requires w.rec.state == PERMITTED ==> w.rec.permitUses == 0
    ensures AdvanceAll(GistOf(w), SegmentPlan(cfg, w, CallOn(w.rec.state))) != GistOf(w)
  {
    hide AdvanceAll, MoveAndFinalize, MoveAndClose, PlanConsume, PlanAttempt, PreflightHolds, CheckSignature,
         PermitGood, ReservationGood;
    var g := GistOf(w);
    match w.rec.state {
      case RECOURSE_RESERVED =>
        MoveAndFinalizeRests(cfg, g, w, EXPIRED, "ACTION_EXPIRED", NoDetails, NO_ANSWERS);
        MoveAndFinalizeRests(cfg, g, w, EXPIRED, "RECOURSE_EXPIRED", NoDetails, NO_ANSWERS);
      case PERMITTED =>
        MoveAndFinalizeRests(cfg, g, w, EXPIRED, "PERMIT_EXPIRED", NoDetails, NO_ANSWERS);
        MoveAndFinalizeRests(cfg, g, w, EXPIRED, "RECOURSE_EXPIRED", NoDetails, NO_ANSWERS);
      case _ =>
        MoveAndCloseRests(cfg, g, w, REVIEW_REQUIRED, "RECOURSE_EXPIRED", NoDetails, NO_ANSWERS);
    }
  }

  // ----- AUTHORIZED: waiting for recourse -----

  /** reserveRecourse at `now`: the request is valid, and the commitment the connector answered
      with is signed with a trusted connector key and says what was asked for. */
  predicate CommitmentPasses(cfg: Config, v: View, r: RecourseRequest, caps: Capabilities, m: Commitment, now: Time) {
    && v.clock <= now
    && RequestValid(v.rec, r, Some(caps), now)
    && CheckSignature(cfg.crypto, CommitmentB(m.body), m.sig, cfg.connectorKeys) == SignatureGood
    && CommitmentMatches(r, m.body)
  }

  ghost predicate SomeCommitmentPasses(cfg: Config, v: View) {
    exists r: RecourseRequest, caps: Capabilities, m: Commitment, now: Time :: CommitmentPasses(cfg, v, r, caps, m, now)
  }

  function ExactScope(p: Parameters): RemedyScope {
    match p
    case RefundParameters(amount, _) => MaxAmountMinor(amount)
    case InventoryParameters(_, quantity) => MaxQuantity(quantity)
    case EmailParameters(_, _) => MaxAmountMinor(0)
  }

  /** A request for exactly what the proposal does, at whatever time. */
  function ExactRequest(v: View): RecourseRequest {
    var expiresAt := LaterOf(v.clock + 1, v.rec.proposal.expiresAt);
    RecourseRequest(v.rec.actionDigest, Compensate, v.rec.proposal.connector, "undo", "undo", expiresAt, 0, 1,
                    ExactScope(v.rec.proposal.parameters), "undo")
  }

  function CommitmentTo(c: Crypto, r: RecourseRequest, s: Signer): Commitment {
    var body := CommitmentBody("undo", r.actionDigest, r.connector, r.capability, r.kind, r.expiresAt, r.maxAttempts,
      r.scope, 0, true);
    Commitment(body, MakeSignature(c, CommitmentB(body), s))
  }

  /** Whatever the proposal, a connector that holds a trusted key can still commit to it. */
  lemma TrustedConnectorCanCommit(cfg: Config, v: View, kid: KeyId)
    requires SoundSignatures(cfg.crypto) && ProposalShape(v.rec.proposal) && kid in cfg.connectorKeys
    ensures var r := ExactRequest(v);
            CommitmentPasses(cfg, v, r, Capabilities(r.connector, true, [r.capability]),
                             CommitmentTo(cfg.crypto, r, Signer(kid, cfg.connectorKeys[kid])), v.clock)
  {
    var r := ExactRequest(v);
    var signer := Signer(kid, cfg.connectorKeys[kid]);
    OwnSignatureChecks(cfg.crypto, CommitmentB(CommitmentTo(cfg.crypto, r, signer).body), signer, cfg.connectorKeys);
    assert r.capability in [r.capability];
  }

  lemma ReservingMovesOn(cfg: Config, v: View, r: RecourseRequest, caps: Capabilities, m: Commitment, now: Time, n: nat)
    requires v.pending == multiset{} && v.rec.state == AUTHORIZED && v.rec.proposal.mode != Observed
    requires CommitmentPasses(cfg, v, r, caps, m, now)
    requires n >= |Plan(cfg, v, Reserving(r, Some(caps), Some(m)), now)|
    ensures CanRun(v, Reserving(r, Some(caps), Some(m)), now)
    ensures GistOf(TakeTurn(cfg, v, Turn(Reserving(r, Some(caps), Some(m)), now, n))) != GistOf(v)
  {
    hide ApplyAll, AdvanceAll, RequestValid, CheckSignature, CommitmentMatches, Apply;
    var s := Reserving(r, Some(caps), Some(m));
    var w := Entered(v, s, now);
    var plan := SegmentPlan(cfg, w, s);
    assert RequestValid(w.rec, r, Some(caps), w.clock);
    assert plan == [plan[0]] && plan[..|plan|] == plan;
    StepsAdvance(cfg, w, plan);
    AdvanceFirst(GistOf(w), plan[0], []);
  }

  lemma AuthorizedPlansNothing(cfg: Config, v: View, w: View, s: Segment)
    requires v.rec.state == AUTHORIZED && w.rec == v.rec && v.clock <= w.clock && Awaits(s).None?
    requires v.rec.proposal.mode == Observed || !SomeCommitmentPasses(cfg, v)
    ensures SegmentPlan(cfg, w, s) == []
  {
    hide RequestValid, CheckSignature, CommitmentMatches;
    if s.Reserving? && s.caps.Some? && s.commitment.Some? {
      assert v.rec.proposal.mode == Observed
        || !CommitmentPasses(cfg, v, s.request, s.caps.value, s.commitment.value, w.clock);
    }
    if s.Reserving? && s.caps.None? {
      assert !RequestValid(w.rec, s.request, s.caps, w.clock) by { CapabilitiesAreNeeded(w.rec, s.request, w.clock); }
    }
  }

  lemma CapabilitiesAreNeeded(rec: Record, r: RecourseRequest, now: Time)
    ensures !RequestValid(rec, r, None, now)
  {
  }

  lemma AuthorizedRestsForGood(cfg: Config, v: View)
    requires v.pending == multiset{} && v.rec.state == AUTHORIZED
    requires v.rec.proposal.mode == Observed || !SomeCommitmentPasses(cfg, v)
    ensures RestsForGood(cfg, v)
  {
    hide SomeCommitmentPasses;
    forall t: Turn | CanRun(v, t.segment, t.now)
      ensures TakeTurn(cfg, v, t) == v.(clock := t.now)
    {
      AuthorizedPlansNothing(cfg, v, Entered(v, t.segment, t.now), t.segment);
    }
  }

  /** An authorized action outside observed mode can be taken on exactly when some commitment
      would still pass; and one still can, whatever the time and the proposal, exactly when the
      rail trusts any connector key at all. */
  lemma AuthorizedMovesOnExactly(cfg: Config, v: View)
    requires SoundSignatures(cfg.crypto) && ProposalShape(v.rec.proposal)
    requires v.pending == multiset{} && v.rec.state == AUTHORIZED && v.rec.proposal.mode != Observed
    ensures SomeCommitmentPasses(cfg, v) <==> !RestsForGood(cfg, v)
    ensures SomeCommitmentPasses(cfg, v) <==> cfg.connectorKeys != map[]
    ensures SomeCommitmentPasses(cfg, v) ==> exists t: Turn ::
              CanRun(v, t.segment, t.now) && t.performed >= |Plan(cfg, v, t.segment, t.now)|
                && GistOf(TakeTurn(cfg, v, t)) != GistOf(v)
  {
    hide RestsForGood, Plan, TakeTurn, RequestValid, CommitmentMatches, ProposalShape, CanRun;
    if SomeCommitmentPasses(cfg, v) {
      var r, caps, m, now :| CommitmentPasses(cfg, v, r, caps, m, now);
      assert m.sig.keyId in cfg.connectorKeys;
      var s := Reserving(r, Some(caps), Some(m));
      var t := Turn(s, now, |Plan(cfg, v, s, now)|);
      ReservingMovesOn(cfg, v, r, caps, m, now, t.performed);
      MovingDoesNotRest(cfg, v, t);
    } else {
      AuthorizedRestsForGood(cfg, v);
      if kid :| kid in cfg.connectorKeys {
        TrustedConnectorCanCommit(cfg, v, kid);
        assert false;
      }
    }
  }

  /** If the store refuses no append, then wherever a run leaves an action without a suspended
      call, either some call moves it on, or no call ever changes it again; the latter exactly
      when it has ended, its close has failed, or it is authorized and no recourse can be
      reserved for it: in observed mode, or when no connector key is trusted. */
  lemma RestingActions(cfg: Config, p: Proposal, start: Time, turns: seq<Turn>, views: seq<View>, i: nat)
    requires SoundSignatures(cfg.crypto)
    requires Run(cfg, p, start, turns, views) && i <= |turns| && views[i].pending == multiset{}
    requires forall j :: 0 <= j < |turns| ==>
             turns[j].performed >= |Plan(cfg, views[j], turns[j].segment, turns[j].now)|
    ensures var v := views[i];
            RestsForGood(cfg, v) <==>
              if v.rec.state == AUTHORIZED then v.rec.proposal.mode == Observed || cfg.connectorKeys == map[]
              else Settled(v.rec.state)
    ensures var v := views[i];
            RestsForGood(cfg, v) || exists t: Turn ::
              CanRun(v, t.segment, t.now) && t.performed >= |Plan(cfg, v, t.segment, t.now)|
                && GistOf(TakeTurn(cfg, v, t)) != GistOf(v)
  {
    hide Plan, TakeTurn, ProposalValid, RestsForGood, Attended, Proposed, SomeCommitmentPasses, LogAgrees, CallsOk,
         ProposalShape;
    var v := views[i];
    RunsAreGood(cfg, p, start, turns, views, i, false);
    NoStranding(cfg, p, start, turns, views, i);
    if Settled(v.rec.state) {
      SettledRestsForGood(cfg, v);
    } else if v.rec.state != AUTHORIZED {
      CallMovesOn(cfg, v);
      var s, now := CallOn(v.rec.state), LateEnough(v);
      var t := Turn(s, now, |Plan(cfg, v, s, now)|);
      assert GistOf(TakeTurn(cfg, v, t)) != GistOf(v);
      MovingDoesNotRest(cfg, v, t);
    } else if v.rec.proposal.mode == Observed {
      AuthorizedRestsForGood(cfg, v);
    } else {
      ProposalIsShaped(cfg, v);
      AuthorizedMovesOnExactly(cfg, v);
    }
  }

  lemma ProposalIsShaped(cfg: Config, v: View)
    requires Core(cfg, v)
    ensures ProposalShape(v.rec.proposal)
  {
  }

  lemma MovingDoesNotRest(cfg: Config, v: View, t: Turn)
    requires CanRun(v, t.segment, t.now) && GistOf(TakeTurn(cfg, v, t)) != GistOf(v)
    ensures !RestsForGood(cfg, v)
  {
    hide TakeTurn;
  }
}
