/** Whole runs of the rail: every segment only plans steps that may be taken, so every run keeps
    `Core`, and every truthful run in which no observation comes too late keeps `Orderly`. */
module RailRuns {
  import opened RailStates
  import opened Artifacts
  import opened EventStore
  import opened Verify
  import opened Recovery
  import opened RailModel
  import opened RailInvariant

  /** `Core`, and `Orderly` too when the run is regular. */
  ghost predicate Good(cfg: Config, v: View, regular: bool) {
    Core(cfg, v) && (regular ==> Orderly(cfg, v))
  }

  ghost predicate MayTake(cfg: Config, v: View, step: Step, regular: bool) {
    Enabled(cfg, v, step) && (regular ==> EnabledOrderly(cfg, v, step))
  }

  /** Each step may be taken where the steps before it lead. */
  ghost predicate AllMayBeTaken(cfg: Config, v: View, steps: seq<Step>, regular: bool) {
    steps == [] ||
    var init := steps[..|steps| - 1];
    AllMayBeTaken(cfg, v, init, regular) && MayTake(cfg, ApplyAll(cfg, v, init), steps[|steps| - 1], regular)
  }

  lemma StepKeepsGood(cfg: Config, v: View, step: Step, regular: bool)
    requires SoundSignatures(cfg.crypto)
    requires Good(cfg, v, regular) && MayTake(cfg, v, step, regular)
    ensures Good(cfg, Apply(cfg, v, step), regular)
  {
    StepKeepsCore(cfg, v, step);
    if regular {
      StepKeepsOrder(cfg, v, step);
    }
  }

  /** The invariant survives a plan cut short anywhere. */
  lemma {:induction false} StepsKeepGood(cfg: Config, v: View, steps: seq<Step>, k: nat, regular: bool)
    requires SoundSignatures(cfg.crypto)
    requires Good(cfg, v, regular) && AllMayBeTaken(cfg, v, steps, regular) && k <= |steps|
    ensures Good(cfg, ApplyAll(cfg, v, steps[..k]), regular)
    decreases |steps|
  {
    hide Good, MayTake, Apply;
    if steps == [] {
    } else if k < |steps| {
      var init := steps[..|steps| - 1];
      assert init[..k] == steps[..k];
      StepsKeepGood(cfg, v, init, k, regular);
    } else {
      var init := steps[..|steps| - 1];
      assert init[..|init|] == init && steps[..k] == steps;
      StepsKeepGood(cfg, v, init, |init|, regular);
      StepKeepsGood(cfg, ApplyAll(cfg, v, init), steps[|steps| - 1], regular);
    }
  }

  lemma SingleStep(cfg: Config, v: View, step: Step, regular: bool)
    requires MayTake(cfg, v, step, regular)
    ensures AllMayBeTaken(cfg, v, [step], regular)
    ensures ApplyAll(cfg, v, [step]) == Apply(cfg, v, step)
  {
    assert [step][..0] == [];
    assert ApplyAll(cfg, v, []) == v;
  }

  lemma Snoc(cfg: Config, v: View, steps: seq<Step>, regular: bool)
    requires steps != []
    ensures var init := steps[..|steps| - 1];
            && ApplyAll(cfg, v, steps) == Apply(cfg, ApplyAll(cfg, v, init), steps[|steps| - 1])
            && (AllMayBeTaken(cfg, v, steps, regular) <==>
                  AllMayBeTaken(cfg, v, init, regular)
                    && MayTake(cfg, ApplyAll(cfg, v, init), steps[|steps| - 1], regular))
  {
  }

  lemma {:induction false} Compose(cfg: Config, v: View, pre: seq<Step>, post: seq<Step>, regular: bool)
    requires AllMayBeTaken(cfg, v, pre, regular)
    requires AllMayBeTaken(cfg, ApplyAll(cfg, v, pre), post, regular)
    ensures AllMayBeTaken(cfg, v, pre + post, regular)
    ensures ApplyAll(cfg, v, pre + post) == ApplyAll(cfg, ApplyAll(cfg, v, pre), post)
    decreases |post|
  {
    hide Apply, MayTake;
    if post == [] {
      assert pre + post == pre;
    } else {
      var init := post[..|post| - 1];
      Compose(cfg, v, pre, init, regular);
      var both := pre + post;
      assert both[..|both| - 1] == pre + init && both[|both| - 1] == post[|post| - 1];
      Snoc(cfg, v, both, regular);
      Snoc(cfg, ApplyAll(cfg, v, pre), post, regular);
    }
  }

  lemma FirstThen(cfg: Config, v: View, step: Step, rest: seq<Step>, regular: bool)
    requires MayTake(cfg, v, step, regular)
    requires AllMayBeTaken(cfg, Apply(cfg, v, step), rest, regular)
    ensures AllMayBeTaken(cfg, v, [step] + rest, regular)
  {
    SingleStep(cfg, v, step, regular);
    Compose(cfg, v, [step], rest, regular);
  }

  // ----- Parts of plans -----

  lemma FinalizeIsAllowed(cfg: Config, v: View, release: bool, reason: string, a: Answers, regular: bool)
    requires regular ==> Finished(v.rec.state) && v.rec.state != CLOSED
    ensures AllMayBeTaken(cfg, v, FinalizePlan(v, release, reason, a), regular)
  {
    var plan := FinalizePlan(v, release, reason, a);
    if plan != [] {
      SingleStep(cfg, v, plan[0], regular);
      assert plan == [plan[0]];
    }
  }

  /** What is awaited behind a decision may be awaited behind CLOSED. */
  lemma DecidedAwaitsClosed(pending: multiset<Token>, s: State, held: nat)
    requires OutcomeOf(s).Some? && Awaited(pending, s, held)
    ensures Awaited(pending, CLOSED, held)
  {
  }

  lemma SettlementIsAllowed(cfg: Config, v: View, o: Outcome, regular: bool)
    requires OutcomeOf(v.rec.state) == Some(o) && v.rec.recourseRecorded.Some?
    requires regular ==> PendingFits(v) && v.rec.recourseRecorded != Some(StatusUnknown)
    ensures AllMayBeTaken(cfg, v, [Settles(o)], regular)
  {
    OutcomeStatesClose(v.rec.state);
    if regular {
      DecidedAwaitsClosed(v.pending, v.rec.state, |v.rec.evidence|);
    }
    SingleStep(cfg, v, Settles(o), regular);
  }

  lemma CloseIsAllowed(cfg: Config, v: View, a: Answers, regular: bool)
    requires regular ==> PendingFits(v)
    ensures AllMayBeTaken(cfg, v, ClosePlan(v, a), regular)
  {
    hide MayTake, MakeReceipt, Awaited;
    match OutcomeOf(v.rec.state) {
      case None =>
      case Some(o) =>
        var finalize := FinalizePlan(v, o != Disputed, SettlementReason(o), a);
        FinalizeIsAllowed(cfg, v, o != Disputed, SettlementReason(o), a, regular);
        var final := FinalizeResult(v, o != Disputed, a);
        if final.FinalStatus? && final.status != StatusUnknown {
          var w := ApplyAll(cfg, v, finalize);
          if finalize != [] {
            assert finalize == [finalize[0]] && finalize[..0] == [];
            assert w == Apply(cfg, v, finalize[0]);
          }
          SettlementIsAllowed(cfg, w, o, regular);
          Compose(cfg, v, finalize, [Settles(o)], regular);
        } else {
          assert finalize + [] == finalize;
        }
    }
  }

  /** A move which, where the transition table allows it, the replies awaited and, in a regular
      run, the evidence at hand allow too. */
  ghost predicate PlainMove(v: View, to: State, regular: bool) {
    && to !in {AUTHORIZED, DENIED, RECOURSE_RESERVED, PERMITTED, CLOSED, EXECUTING}
    && (to in {EXPIRED, REVOKED} ==> v.rec.state != AUTHORIZED)
    && (regular && Allowed(v.rec.state, to) ==>
          Awaited(v.pending, to, |v.rec.evidence|) && EvidenceFits(to, v.rec.evidence) && v.rec.recourseRecorded.None?)
  }

  /** What a regular run knows about evidence and recourse. */
  ghost predicate Tidy(cfg: Config, v: View) { EvidenceSound(cfg, v) && RecourseLast(cfg, v) }

  /** Nothing but answers to status queries is awaited. */
  ghost predicate Calm(v: View) { PendingFits(v) && forall t <- v.pending :: Asks(t) }

  /** Status queries stay answerable wherever the action moves. */
  lemma CalmMoves(v: View, to: State, held: nat)
    requires Calm(v) && Allowed(v.rec.state, to)
    ensures Awaited(v.pending, to, held)
  {
    forall t | t in v.pending
      ensures MayAwait(t, to, held) && Asks(t)
    {
      assert MayAwait(t, v.rec.state, |v.rec.evidence|);
    }
  }

  /** No call but a status query waits in these states, and none at all before execution. */
  lemma RestingIsCalm(v: View)
    requires PendingFits(v)
    requires v.rec.state !in {EXECUTING, VERIFYING, REMEDIATING, REMEDY_VERIFYING, REMEDY_FAILED, CLOSED}
    ensures Calm(v)
  {
    forall t | t in v.pending
      ensures Asks(t)
    {
      assert MayAwait(t, v.rec.state, |v.rec.evidence|);
    }
  }

  /** Behind the one reply that ends a waiting state, nothing but status queries waits. */
  lemma ArrivedIsCalm(v: View, t: Token)
    requires PendingFits(v) && !Asks(t) && v.rec.state == AwaitingState(t) && t !in v.pending
    ensures Calm(v)
  {
    forall u | u in v.pending
      ensures Asks(u)
    {
      assert MayAwait(u, v.rec.state, |v.rec.evidence|);
    }
  }

  lemma PlainMoveMayBeTaken(cfg: Config, v: View, to: State, reason: string, details: Details, regular: bool)
    requires PlainMove(v, to, regular) && Allowed(v.rec.state, to)
    ensures MayTake(cfg, v, Move(to, reason, details), regular)
  {
  }

  lemma MoveIsAllowed(cfg: Config, v: View, to: State, reason: string, details: Details, rest: seq<Step>, regular: bool)
    requires PlainMove(v, to, regular)
    requires Allowed(v.rec.state, to) ==> AllMayBeTaken(cfg, Apply(cfg, v, Move(to, reason, details)), rest, regular)
    ensures AllMayBeTaken(cfg, v, MoveThen(v, to, reason, details, rest), regular)
  {
    if Allowed(v.rec.state, to) {
      PlainMoveMayBeTaken(cfg, v, to, reason, details, regular);
      FirstThen(cfg, v, Move(to, reason, details), rest, regular);
    }
  }

  lemma MoveLeads(cfg: Config, v: View, to: State, reason: string, details: Details)
    ensures var w := Apply(cfg, v, Move(to, reason, details));
            && w.rec.state == to && w.pending == v.pending && w.rec.evidence == v.rec.evidence
            && w.rec.recourseRecorded == v.rec.recourseRecorded
  {
    hide NextEvent;
  }

  lemma MoveAndCloseIsAllowed(cfg: Config, v: View, to: State, reason: string, details: Details, a: Answers,
      regular: bool)
    requires PlainMove(v, to, regular)
    ensures AllMayBeTaken(cfg, v, MoveAndClose(cfg, v, to, reason, details, a), regular)
  {
    hide ClosePlan, Awaited, EvidenceFits;
    var w := Apply(cfg, v, Move(to, reason, details));
    if Allowed(v.rec.state, to) {
      MoveLeads(cfg, v, to, reason, details);
      CloseIsAllowed(cfg, w, a, regular);
    }
    MoveIsAllowed(cfg, v, to, reason, details, ClosePlan(w, a), regular);
  }

  lemma MoveAndFinalizeIsAllowed(cfg: Config, v: View, to: State, reason: string, details: Details, a: Answers,
      regular: bool)
    requires PlainMove(v, to, regular) && to in {EXPIRED, REVOKED, FAILED}
    ensures AllMayBeTaken(cfg, v, MoveAndFinalize(cfg, v, to, reason, details, a), regular)
  {
    var w := Apply(cfg, v, Move(to, reason, details));
    FinalizeIsAllowed(cfg, w, true, reason, a, regular);
    MoveIsAllowed(cfg, v, to, reason, details, FinalizePlan(w, true, reason, a), regular);
  }

  // ----- Regular runs -----

  /** What a regular run assumes of one segment, seen from where its own steps begin: the reply
      that arrives was awaited here, and the environment is truthful. */
  ghost predicate RegularHere(v: View, s: Segment) {
    && (Awaits(s).Some? ==>
          var t := Awaits(s).value;
          && MayAwait(t, v.rec.state, |v.rec.evidence|)
          && (!Asks(t) ==> t !in v.pending && v.rec.state == AwaitingState(t)))
    && Truthful(v, s)
  }

  /** A truthful environment: the commitment was not reserved in the future, the proposal was not
      requested after its permit, and reported facts echo the currency or SKU. */
  predicate Truthful(v: View, s: Segment) {
    match s
    case Reserving(_, _, m) => m.Some? ==> m.value.body.reservedAt <= v.clock
    case IssuingPermit(_, _, _) => v.rec.proposal.requestedAt <= v.clock
    case OutcomeObserved(o, _) => o.Reported? ==> FactsEcho(v.rec.proposal.parameters, o.facts)
    case RemedyObserved(o, _) => o.Reported? ==> FactsEcho(v.rec.proposal.parameters, o.facts)
    case _ => true
  }

  /** The environment answers truthfully, and no observation comes behind a decision. Calls may
      overlap in every other way. */
  ghost predicate Regular(v: View, s: Segment, now: Time) {
    && (s.RemedyObserved? ==> v.rec.state == REMEDY_VERIFYING)
    && Truthful(v.(clock := now), s)
  }

  /** `w` is `v` at a later time, possibly with fewer replies awaited. */
  ghost predicate Later(v: View, w: View) {
    w == v.(clock := w.clock, pending := w.pending) && v.clock <= w.clock && w.pending <= v.pending
  }

  lemma LaterKeepsCore(cfg: Config, v: View, w: View)
    requires Core(cfg, v) && Later(v, w)
    ensures Core(cfg, w)
  {
    assert LogSound(cfg, w.rec, w.log, w.clock);
    assert RecordedAgrees(cfg, w);
    assert CallsOk(cfg, w);
  }

  lemma LaterKeepsFit(v: View, w: View)
    requires PendingFits(v) && Later(v, w)
    ensures PendingFits(w)
  {
    hide MayAwait;
    forall t | t in w.pending
      ensures MayAwait(t, w.rec.state, |w.rec.evidence|) && (Asks(t) || w.pending[t] == 1)
    {
      assert t in v.pending && w.pending[t] <= v.pending[t];
    }
  }

  lemma LaterKeepsEvidence(cfg: Config, v: View, w: View)
    requires EvidenceSound(cfg, v) && Later(v, w)
    ensures EvidenceSound(cfg, w)
  {
    hide EvidenceFits, EvidenceGood, Accepts, LastState, DigestEvidence, Fresh;
    assert Deciding(w) == Deciding(v);
    assert AcceptancesMatch(cfg, w);
  }

  lemma LaterKeepsRecourse(cfg: Config, v: View, w: View)
    requires RecourseLast(cfg, v) && Later(v, w)
    ensures RecourseLast(cfg, w)
  {
    hide Finished, OutcomeOf, EndsInRecourseEvent, IsRecourseEvent, Moved, MakeReceipt, CanSettle, SettlementReason,
         LastState;
    assert Deciding(w) == Deciding(v);
    if v.rec.state == CLOSED {
      assert ClosedProperly(cfg, w);
    }
  }

  lemma LaterKeepsOrder(cfg: Config, v: View, w: View)
    requires Orderly(cfg, v) && Later(v, w)
    ensures Orderly(cfg, w)
  {
    LaterKeepsFit(v, w);
    LaterKeepsEvidence(cfg, v, w);
    LaterKeepsRecourse(cfg, v, w);
  }

  lemma EnteringKeepsGood(cfg: Config, v: View, s: Segment, now: Time, regular: bool)
    requires Good(cfg, v, regular) && CanRun(v, s, now) && (regular ==> Regular(v, s, now))
    ensures Good(cfg, Entered(v, s, now), regular)
    ensures regular ==> RegularHere(Entered(v, s, now), s)
  {
    var w := Entered(v, s, now);
    assert Later(v, w);
    LaterKeepsCore(cfg, v, w);
    if regular {
      LaterKeepsOrder(cfg, v, w);
      EnteringIsRegular(v, s, now);
    }
  }

  lemma EnteringIsRegular(v: View, s: Segment, now: Time)
    requires PendingFits(v) && CanRun(v, s, now) && Regular(v, s, now)
    ensures RegularHere(Entered(v, s, now), s)
  {
    if Awaits(s).Some? {
      assert MayAwait(Awaits(s).value, v.rec.state, |v.rec.evidence|);
    }
  }

  // ----- Segment by segment -----

  predicate BeforeEvidence(s: State) {
    s in {PROPOSED, AUTHORIZED, RECOURSE_RESERVED, PERMITTED, EXECUTING, UNKNOWN, EXECUTED}
  }

  lemma EarlyStatesHoldNothing(cfg: Config, v: View)
    requires EvidenceSound(cfg, v) && RecourseLast(cfg, v) && BeforeEvidence(v.rec.state)
    ensures v.rec.evidence == [] && v.rec.recourseRecorded.None?
  {
  }

  lemma GrantsAwaitNothing(v: View, to: State)
    requires PendingFits(v) && v.rec.state in {PROPOSED, AUTHORIZED, RECOURSE_RESERVED, PERMITTED}
             && Allowed(v.rec.state, to)
    ensures Calm(v) && Awaited(v.pending, to, |v.rec.evidence|)
  {
    RestingIsCalm(v);
    CalmMoves(v, to, |v.rec.evidence|);
  }

  lemma AuthorizeIsAllowed(cfg: Config, v: View, d: Decision, regular: bool)
    requires regular ==> Tidy(cfg, v) && PendingFits(v)
    ensures AllMayBeTaken(cfg, v, PlanAuthorize(cfg, v, d), regular)
  {
    var plan := PlanAuthorize(cfg, v, d);
    if plan != [] {
      if regular {
        EarlyStatesHoldNothing(cfg, v);
        GrantsAwaitNothing(v, Target(plan[0]).value);
      }
      SingleStep(cfg, v, plan[0], regular);
    }
  }

  lemma ReservationIsGood(cfg: Config, rec: Record, r: RecourseRequest, caps: Option<Capabilities>, m: Commitment,
      now: Time)
    requires rec.proposal.mode != Observed && RequestValid(rec, r, caps, now) && CommitmentMatches(r, m.body)
    requires CheckSignature(cfg.crypto, CommitmentB(m.body), m.sig, cfg.connectorKeys) == SignatureGood
    ensures ReservationGood(cfg, rec, MakeReservation(cfg, r, m, now))
  {
  }

  lemma GrantingFacts(cfg: Config, rec: Record)
    requires RecordOk(cfg, rec)
    ensures rec.state == AUTHORIZED ==> rec.reservation.None? && rec.permit.None?
    ensures rec.state == RECOURSE_RESERVED ==> rec.reservation.Some? && rec.permit.None? && rec.authorization.Some?
    ensures rec.state == PERMITTED ==> rec.reservation.Some? && rec.permit.Some? && rec.authorization.Some?
  {
  }

  lemma ReserveIsAllowed(cfg: Config, v: View, r: RecourseRequest, caps: Option<Capabilities>, m: Option<Commitment>,
      regular: bool)
    requires RecordOk(cfg, v.rec)
    requires regular ==> Tidy(cfg, v) && PendingFits(v) && RegularHere(v, Reserving(r, caps, m))
    ensures AllMayBeTaken(cfg, v, PlanReserve(cfg, v, r, caps, m), regular)
  {
    var plan := PlanReserve(cfg, v, r, caps, m);
    if plan != [] {
      ReservationIsGood(cfg, v.rec, r, caps, m.value, v.clock);
      GrantingFacts(cfg, v.rec);
      if regular {
        EarlyStatesHoldNothing(cfg, v);
        GrantsAwaitNothing(v, RECOURSE_RESERVED);
      }
      SingleStep(cfg, v, plan[0], regular);
    }
  }

  lemma AcceptPreflightIsAllowed(cfg: Config, v: View, b: DrillBundle, measured: Option<Digest>, regular: bool)
    ensures AllMayBeTaken(cfg, v, PlanAcceptPreflight(cfg, v, b, measured), regular)
  {
    hide VerifyPreflight, CoversAction, RecoveryBound;
    var plan := PlanAcceptPreflight(cfg, v, b, measured);
    if plan != [] {
      assert plan == [plan[0]] && v.rec.state == RECOURSE_RESERVED && plan[0].AcceptedPreflight?;
      SingleStep(cfg, v, plan[0], regular);
    }
  }

  lemma PermitMayBeIssued(cfg: Config, v: View, regular: bool)
    requires RecordOk(cfg, v.rec) && (regular ==> Tidy(cfg, v))
    requires v.rec.state == RECOURSE_RESERVED && v.rec.reservation.Some?
    requires v.clock < v.rec.proposal.expiresAt
    requires v.rec.authorization.Some? && (v.rec.authorization.value.requirePreflight ==> v.rec.preflight.Some?)
    requires regular ==> PendingFits(v) && v.rec.proposal.requestedAt <= v.clock
    ensures var permit := MakePermit(cfg, v.rec, v.rec.reservation.value, v.clock);
            AllMayBeTaken(cfg, v, [Permitted(permit, PermittedAttestation(cfg.crypto, v.rec))], regular)
  {
    GrantingFacts(cfg, v.rec);
    if regular {
      EarlyStatesHoldNothing(cfg, v);
      GrantsAwaitNothing(v, PERMITTED);
    }
    SingleStep(cfg, v, Permitted(MakePermit(cfg, v.rec, v.rec.reservation.value, v.clock),
      PermittedAttestation(cfg.crypto, v.rec)), regular);
  }

  /** The moves that end an action before it executes. */
  lemma EarlyEndIsAllowed(cfg: Config, v: View, to: State, reason: string, details: Details, a: Answers, regular: bool)
    requires v.rec.state in {RECOURSE_RESERVED, PERMITTED} && to in {EXPIRED, REVOKED}
    requires regular ==> Tidy(cfg, v) && PendingFits(v)
    ensures AllMayBeTaken(cfg, v, MoveAndFinalize(cfg, v, to, reason, details, a), regular)
  {
    if regular {
      EarlyStatesHoldNothing(cfg, v);
      GrantsAwaitNothing(v, to);
    }
    MoveAndFinalizeIsAllowed(cfg, v, to, reason, details, a, regular);
  }

  lemma IssuePermitIsAllowed(cfg: Config, v: View, caps: Option<Capabilities>, a: Answers, measured: Option<Digest>,
      regular: bool)
    requires RecordOk(cfg, v.rec)
    requires regular ==> Tidy(cfg, v) && PendingFits(v) && RegularHere(v, IssuingPermit(caps, a, measured))
    ensures AllMayBeTaken(cfg, v, PlanIssuePermit(cfg, v, caps, a, measured), regular)
  {
    hide Apply, FinalizePlan;
    if v.rec.state != RECOURSE_RESERVED || v.rec.reservation.None? || v.rec.authorization.None? {
    } else if v.rec.proposal.expiresAt <= v.clock {
      EarlyEndIsAllowed(cfg, v, EXPIRED, "ACTION_EXPIRED", NoDetails, a, regular);
    } else if v.rec.reservation.value.body.expiresAt <= v.clock {
      EarlyEndIsAllowed(cfg, v, EXPIRED, "RECOURSE_EXPIRED", NoDetails, a, regular);
    } else {
      match ReadStatus(v.rec, a.probe) {
        case None =>
        case Some(status) =>
          if status != StatusActive {
            EarlyEndIsAllowed(cfg, v, REVOKED, "CONNECTOR_RECOURSE_NOT_ACTIVE", StatusDetails(status), a, regular);
          } else if v.rec.authorization.value.requirePreflight ==> v.rec.preflight.Some? {
            PermitMayBeIssued(cfg, v, regular);
          }
      }
    }
  }

  /** The call of connector.execute, right behind the event that consumed the permit. */
  lemma ExecutionIsPlanned(cfg: Config, v: View, override: Option<Proposal>, a: Answers, measured: Option<Digest>)
    requires var plan := PlanExecute(cfg, v, override, a, measured); |plan| == 2 && plan[1].CallsExecute?
    ensures v.rec.state == PERMITTED && v.rec.permitUses == 0
    ensures v.rec.permit.Some? && v.rec.reservation.Some? && v.rec.authorization.Some?
    ensures v.clock < v.rec.permit.value.body.expiresAt && v.clock < v.rec.reservation.value.body.expiresAt
    ensures CheckSignature(cfg.crypto, PermitB(v.rec.permit.value.body), v.rec.permit.value.sig,
            cfg.Keys()) == SignatureGood
    ensures v.rec.preflight.Some? ==>
              PreflightHolds(cfg, v.rec.reservation.value, v.rec.preflight.value, Some(v.clock), measured)
    ensures var plan := PlanExecute(cfg, v, override, a, measured);
            var candidate := if override.Some? then override.value else v.rec.proposal;
            && DigestProposal(cfg.crypto, candidate) == v.rec.actionDigest
            && plan == [plan[0], plan[1]] && plan[0].Move? && plan[0].to == EXECUTING
            && plan[1].execution == ExecuteCall(v.clock, v.rec.proposal, v.rec.proposal.idempotencyKey, candidate,
                 v.rec.permit.value, v.rec.reservation.value, StatusActive, v.rec.authorization.value, v.rec.preflight,
                   measured)
  {
    hide Apply, CheckSignature, DigestProposal, PreflightHolds, DigestPermit, ReadStatus;
  }

  lemma ExecutionIsCovered(cfg: Config, v: View, override: Option<Proposal>, a: Answers, measured: Option<Digest>)
    requires Core(cfg, v)
    requires var plan := PlanExecute(cfg, v, override, a, measured); |plan| == 2 && plan[1].CallsExecute?
    ensures var plan := PlanExecute(cfg, v, override, a, measured);
            && plan == [plan[0], plan[1]]
            && plan[0].Move? && plan[0].to == EXECUTING
            && v.rec.state == PERMITTED && v.rec.permitUses == 0
            && Covered(cfg, v.rec, plan[1].execution) && plan[1].execution.preflight == v.rec.preflight
            && v.rec.permit.Some? && v.rec.permit.value.body.issuedAt <= v.clock < v.rec.permit.value.body.expiresAt
  {
    hide Apply, LogAgrees, PlanExecute, CheckSignature, DigestProposal, PreflightHolds;
    ExecutionIsPlanned(cfg, v, override, a, measured);
  }

  lemma CoverageStays(cfg: Config, r: Record, s: Record, call: ExecuteCall)
    requires SameGrants(r, s) && Covered(cfg, r, call)
    ensures Covered(cfg, s, call)
  {
  }

  /** One more reply may be awaited in the state the call is made in. */
  lemma CallIsAwaited(v: View, t: Token)
    requires Calm(v) && MayAwait(t, v.rec.state, |v.rec.evidence|)
    ensures Awaited(v.pending + multiset{t}, v.rec.state, |v.rec.evidence|)
  {
    hide MayAwait;
  }

  lemma ExecuteCallMayBeTaken(cfg: Config, v: View, call: ExecuteCall, regular: bool)
    requires |v.executeCalls| < v.rec.permitUses && Covered(cfg, v.rec, call) && call.preflight == v.rec.preflight
    requires regular ==> Calm(v) && v.rec.state == EXECUTING
    ensures AllMayBeTaken(cfg, v, [CallsExecute(call)], regular)
  {
    hide Covered, AllMayBeTaken, Apply;
    if regular {
      CallIsAwaited(v, ExecuteReply);
    }
    SingleStep(cfg, v, CallsExecute(call), regular);
  }

  lemma ConsumptionMayBeTaken(cfg: Config, v: View, move: Step, regular: bool)
    requires regular ==> Tidy(cfg, v) && PendingFits(v)
    requires v.rec.state == PERMITTED && move.Move? && move.to == EXECUTING
    requires v.rec.permit.Some? && v.rec.permit.value.body.issuedAt <= v.clock < v.rec.permit.value.body.expiresAt
    ensures MayTake(cfg, v, move, regular)
    ensures regular ==> Calm(Apply(cfg, v, move))
    ensures var w := Apply(cfg, v, move);
            SameGrants(v.rec, w.rec) && w.rec.permitUses == v.rec.permitUses + 1 && w.rec.state == EXECUTING
            && w.executeCalls == v.executeCalls && w.pending == v.pending && w.rec.preflight == v.rec.preflight
  {
    hide Awaited;
    if regular {
      EarlyStatesHoldNothing(cfg, v);
      GrantsAwaitNothing(v, EXECUTING);
    }
  }

  lemma ExecutionMayBegin(cfg: Config, v: View, move: Step, call: ExecuteCall, regular: bool)
    requires regular ==> Tidy(cfg, v) && PendingFits(v)
    requires v.rec.state == PERMITTED && v.executeCalls == []
    requires move.Move? && move.to == EXECUTING
    requires v.rec.permit.Some? && v.rec.permit.value.body.issuedAt <= v.clock < v.rec.permit.value.body.expiresAt
    requires Covered(cfg, v.rec, call) && call.preflight == v.rec.preflight
    ensures AllMayBeTaken(cfg, v, [move, CallsExecute(call)], regular)
  {
    hide Apply, AllMayBeTaken, Covered, Tidy, PendingFits, Calm;
    var w := Apply(cfg, v, move);
    ConsumptionMayBeTaken(cfg, v, move, regular);
    CoverageStays(cfg, v.rec, w.rec, call);
    ExecuteCallMayBeTaken(cfg, w, call, regular);
    FirstThen(cfg, v, move, [CallsExecute(call)], regular);
    assert [move] + [CallsExecute(call)] == [move, CallsExecute(call)];
  }

  lemma ExecuteIsAllowed(cfg: Config, v: View, override: Option<Proposal>, a: Answers, measured: Option<Digest>,
      regular: bool)
    requires Core(cfg, v) && (regular ==> Tidy(cfg, v) && PendingFits(v))
    ensures AllMayBeTaken(cfg, v, PlanExecute(cfg, v, override, a, measured), regular)
  {
    hide Apply, Covered, Tidy, MoveAndFinalize, PendingFits, PlanConsume, PreflightHolds, CheckSignature,
         DigestProposal, LogAgrees, CallsOk, RecordOk;
    if v.rec.permitUses != 0 || v.rec.state != PERMITTED || v.rec.permit.None? || v.rec.reservation.None?
      || v.rec.authorization.None? {
    } else if v.rec.permit.value.body.expiresAt <= v.clock {
      EarlyEndIsAllowed(cfg, v, EXPIRED, "PERMIT_EXPIRED", NoDetails, a, regular);
    } else if v.rec.reservation.value.body.expiresAt <= v.clock {
      EarlyEndIsAllowed(cfg, v, EXPIRED, "RECOURSE_EXPIRED", NoDetails, a, regular);
    } else {
      var plan := PlanExecute(cfg, v, override, a, measured);
      if plan != [] {
        ConsumeIsAllowed(cfg, v, override, a, measured, regular);
      }
    }
  }

  /** The last of these segments, where the permit is used up. */
  lemma ConsumeIsAllowed(cfg: Config, v: View, override: Option<Proposal>, a: Answers, measured: Option<Digest>,
      regular: bool)
    requires Core(cfg, v) && (regular ==> Tidy(cfg, v) && PendingFits(v))
    requires v.rec.state == PERMITTED && v.rec.permit.Some? && v.rec.reservation.Some? && v.rec.authorization.Some?
    requires PlanExecute(cfg, v, override, a, measured) ==
               PlanConsume(cfg, v, if override.Some? then override.value else v.rec.proposal, a, measured)
    ensures AllMayBeTaken(cfg, v, PlanExecute(cfg, v, override, a, measured), regular)
  {
    hide Apply, Covered, Tidy, MoveAndFinalize, PendingFits, PlanExecute, LogAgrees, RecordOk;
    match ReadStatus(v.rec, a.probe) {
      case None =>
      case Some(status) =>
        if status != StatusActive {
          EarlyEndIsAllowed(cfg, v, REVOKED, "CONNECTOR_RECOURSE_NOT_ACTIVE", StatusDetails(status), a, regular);
        } else {
          var plan := PlanExecute(cfg, v, override, a, measured);
          ExecutionIsCovered(cfg, v, override, a, measured);
          ExecutionMayBegin(cfg, v, plan[0], plan[1].execution, regular);
        }
    }
  }

  // Replies. In a regular run the reply of a call with an effect finds the state it was made in;
  // a status answer may find the action further on.

  lemma ExecuteFailureIsAllowed(cfg: Config, v: View, e: ErrorKind, a: Answers, regular: bool)
    requires regular ==> Tidy(cfg, v) && Calm(v) && v.rec.state == EXECUTING
    ensures AllMayBeTaken(cfg, v, PlanExecuteFailure(cfg, v, e, a), regular)
  {
    hide Awaited;
    if regular {
      EarlyStatesHoldNothing(cfg, v);
      CalmMoves(v, FAILED, 0);
      CalmMoves(v, UNKNOWN, 0);
    }
    if e != OtherFailure {
      MoveAndFinalizeIsAllowed(cfg, v, FAILED, ErrorCode(e), KeyReference(cfg.crypto, v.rec), a, regular);
    } else {
      MoveIsAllowed(cfg, v, UNKNOWN, "EXECUTION_AMBIGUOUS", KeyReference(cfg.crypto, v.rec), [], regular);
    }
  }

  lemma ExecuteReplyIsAllowed(cfg: Config, v: View, reply: ConnectorReply, refusal: Option<ErrorKind>, a: Answers,
      regular: bool)
    requires regular ==> Tidy(cfg, v) && Calm(v) && v.rec.state == EXECUTING
    ensures AllMayBeTaken(cfg, v, PlanExecuteReply(cfg, v, reply, refusal, a), regular)
  {
    hide Apply, FinalizePlan, DigestText, EvidenceSound, RecourseLast, Awaited, Calm;
    if regular {
      EarlyStatesHoldNothing(cfg, v);
      CalmMoves(v, EXECUTED, 0);
    }
    ExecuteFailureIsAllowed(cfg, v, OtherFailure, a, regular);
    if refusal.Some? {
      ExecuteFailureIsAllowed(cfg, v, refusal.value, a, regular);
    }
    if reply.Threw? {
      ExecuteFailureIsAllowed(cfg, v, reply.error, a, regular);
    }
    if Allowed(v.rec.state, EXECUTED) {
      MoveIsAllowed(cfg, v, EXECUTED, "CONNECTOR_EXECUTED", ReplyReference(cfg.crypto, v.rec, reply), [], regular);
      assert [Move(EXECUTED, "CONNECTOR_EXECUTED", ReplyReference(cfg.crypto, v.rec, reply))] + [] ==
             [Move(EXECUTED, "CONNECTOR_EXECUTED", ReplyReference(cfg.crypto, v.rec, reply))];
    }
  }

  lemma CallIsAllowed(cfg: Config, v: View, t: Token, regular: bool)
    requires regular ==> Calm(v) && v.rec.state == AwaitingState(t) && MayAwait(t, v.rec.state, |v.rec.evidence|)
    ensures AllMayBeTaken(cfg, v, [Calls(t)], regular)
  {
    hide Awaited, MayAwait, Calm, AllMayBeTaken;
    if regular {
      CallIsAwaited(v, t);
    }
    SingleStep(cfg, v, Calls(t), regular);
  }

  /** Where the answer to a status query of an execution can move an action. */
  lemma StatusMoves(cfg: Config, v: View, to: State, regular: bool)
    requires to in {EXECUTED, FAILED, REVIEW_REQUIRED}
    requires regular ==> Tidy(cfg, v) && PendingFits(v) && AfterExecution(v.rec.state)
    ensures PlainMove(v, to, regular)
  {
    hide Awaited, EvidenceSound, RecourseLast, EvidenceFits;
    if regular && Allowed(v.rec.state, to) {
      RestingIsCalm(v);
      CalmMoves(v, to, |v.rec.evidence|);
      if v.rec.state == UNKNOWN {
        EarlyStatesHoldNothing(cfg, v);
        NoEvidenceFits(to);
      } else {
        BreachEvidenceFits(cfg, v, to);
      }
    }
  }

  lemma NoEvidenceFits(to: State)
    requires to in {EXECUTED, FAILED, REVIEW_REQUIRED}
    ensures EvidenceFits(to, [])
  {
  }

  lemma ReconcileReplyIsAllowed(cfg: Config, v: View, reply: ConnectorReply, a: Answers, regular: bool)
    requires regular ==> Tidy(cfg, v) && PendingFits(v) && AfterExecution(v.rec.state)
    ensures AllMayBeTaken(cfg, v, PlanReconcileReply(cfg, v, reply, a), regular)
  {
    hide Apply, MoveAndFinalize, MoveAndClose, Tidy, PendingFits;
    StatusMoves(cfg, v, EXECUTED, regular);
    StatusMoves(cfg, v, FAILED, regular);
    StatusMoves(cfg, v, REVIEW_REQUIRED, regular);
    match AcceptedStatus(reply, v.rec.proposal.idempotencyKey, EXECUTION_STATUSES) {
      case None =>
      case Some(Executed) =>
        MoveIsAllowed(cfg, v, EXECUTED, "STATUS_CONFIRMED_EXECUTED", ReplyReference(cfg.crypto, v.rec, reply), [],
          regular);
      case Some(NoEffect) =>
        MoveAndFinalizeIsAllowed(cfg, v, FAILED, "STATUS_CONFIRMED_NO_EFFECT", KeyReference(cfg.crypto, v.rec), a,
          regular);
      case Some(_) =>
        MoveAndCloseIsAllowed(cfg, v, REVIEW_REQUIRED, "STATUS_UNRESOLVED", NoDetails, a, regular);
    }
  }

  lemma MoveThenCallIsAllowed(cfg: Config, v: View, to: State, reason: string, details: Details, t: Token,
      regular: bool)
    requires PlainMove(v, to, regular) && to == AwaitingState(t)
    requires regular && Allowed(v.rec.state, to) ==> Calm(v) && MayAwait(t, to, |v.rec.evidence|)
    ensures AllMayBeTaken(cfg, v, MoveThen(v, to, reason, details, [Calls(t)]), regular)
  {
    hide Apply, Awaited, MayAwait, EvidenceFits;
    if Allowed(v.rec.state, to) {
      MoveLeads(cfg, v, to, reason, details);
      CallIsAllowed(cfg, Apply(cfg, v, Move(to, reason, details)), t, regular);
    }
    MoveIsAllowed(cfg, v, to, reason, details, [Calls(t)], regular);
  }

  lemma VerifyOutcomeIsAllowed(cfg: Config, v: View, regular: bool)
    requires regular ==> Tidy(cfg, v) && PendingFits(v)
    ensures AllMayBeTaken(cfg, v, PlanVerifyOutcome(v), regular)
  {
    hide Awaited, Apply;
    if v.rec.state == EXECUTED {
      if regular {
        EarlyStatesHoldNothing(cfg, v);
        RestingIsCalm(v);
        CalmMoves(v, VERIFYING, 0);
      }
      MoveThenCallIsAllowed(cfg, v, VERIFYING, "OUTCOME_VERIFICATION_STARTED", NoDetails, ObserveReply, regular);
      assert PlanVerifyOutcome(v) == MoveThen(v, VERIFYING, "OUTCOME_VERIFICATION_STARTED", NoDetails,
        [Calls(ObserveReply)]);
    }
  }

  /** The phase a regular run observes in, and the evidence it holds before the answer. */
  ghost predicate Observing(v: View, phase: Phase) {
    && Calm(v)
    && (if phase == Initial then v.rec.state == VERIFYING && v.rec.evidence == []
        else v.rec.state == REMEDY_VERIFYING && |v.rec.evidence| == 1)
  }

  lemma ObservingIsUnfinished(cfg: Config, v: View, phase: Phase)
    requires Observing(v, phase) && Tidy(cfg, v)
    ensures v.rec.recourseRecorded.None?
    ensures EvidenceFits(if phase == PostRemedy then REMEDY_INCONCLUSIVE else INCONCLUSIVE, v.rec.evidence)
    ensures phase == PostRemedy ==> InitialEvidence(v.rec.evidence, false)
  {
  }

  lemma RejectionIsAllowed(cfg: Config, v: View, phase: Phase, code: string, a: Answers, regular: bool)
    requires regular ==> Tidy(cfg, v) && Observing(v, phase)
    ensures AllMayBeTaken(cfg, v, RejectionPlan(cfg, v, phase, code, a), regular)
  {
    hide MoveAndClose, AllMayBeTaken, StepEvent, AcceptancesMatch, NextEvent, ClosedProperly, EvidenceFits,
         EndsInRecourseEvent, OutcomeOf;
    var reject := RejectedEvidence(phase, code);
    var to := if phase == PostRemedy then REMEDY_INCONCLUSIVE else INCONCLUSIVE;
    var w := Apply(cfg, v, reject);
    assert w.rec == v.rec && w.pending == v.pending;
    if regular {
      ObservingIsUnfinished(cfg, v, phase);
      CalmMoves(w, to, |w.rec.evidence|);
    }
    MoveAndCloseIsAllowed(cfg, w, to, code, NoDetails, a, regular);
    FirstThen(cfg, v, reject, MoveAndClose(cfg, w, to, code, NoDetails, a), regular);
  }

  /** What an accepted assessment guarantees about the evidence. */
  lemma AcceptedEvidenceIsGood(cfg: Config, v: View, o: Observation, phase: Phase)
    requires Assess(cfg, v.rec, v.clock, o, phase).Accept?
    requires o.Reported? ==> FactsEcho(v.rec.proposal.parameters, o.facts)
    ensures var e := Assess(cfg, v.rec, v.clock, o, phase).evidence;
            EvidenceGood(cfg, v.rec, e) && Fresh(v.rec.proposal, e, v.clock) && e.body.phase == phase
  {
  }

  lemma AcceptanceMayBeTaken(cfg: Config, v: View, o: Observation, phase: Phase, regular: bool)
    requires regular ==> Tidy(cfg, v) && Observing(v, phase)
    requires regular && o.Reported? ==> FactsEcho(v.rec.proposal.parameters, o.facts)
    requires Assess(cfg, v.rec, v.clock, o, phase).Accept?
    ensures var e := Assess(cfg, v.rec, v.clock, o, phase).evidence;
            && MayTake(cfg, v, AcceptedEvidence(e), regular)
            && (regular ==> v.rec.recourseRecorded.None? && e.body.phase == phase)
  {
    hide Awaited, ClosedProperly, RecourseLast, EvidenceFits, Deciding, EvidenceSound, Assess;
    if regular {
      AcceptedEvidenceIsGood(cfg, v, o, phase);
      ObservingIsUnfinished(cfg, v, phase);
      CalmHolds(v, |v.rec.evidence| + 1);
    }
  }

  /** Status queries stay answerable whatever evidence is held. */
  lemma CalmHolds(v: View, held: nat)
    requires Calm(v)
    ensures Awaited(v.pending, v.rec.state, held)
  {
    forall t | t in v.pending
      ensures MayAwait(t, v.rec.state, held) && Asks(t)
    {
      assert MayAwait(t, v.rec.state, |v.rec.evidence|);
    }
  }

  lemma NewEvidenceFits(cfg: Config, v: View, phase: Phase, e: Evidence)
    requires Tidy(cfg, v) && Observing(v, phase) && e.body.phase == phase
    ensures var es := v.rec.evidence + [e];
            if phase == Initial then EvidenceFits(if e.body.evaluation.satisfied then SATISFIED else BREACHED, es)
            else EvidenceFits(if e.body.evaluation.satisfied then REMEDIATED else REMEDY_INCONCLUSIVE, es)
  {
    ObservingIsUnfinished(cfg, v, phase);
    var es := v.rec.evidence + [e];
    assert phase == PostRemedy ==> es[0] == v.rec.evidence[0] && es[1] == e;
  }

  lemma BreachIsAllowed(cfg: Config, v: View, details: Details, due: Details, regular: bool)
    requires regular ==> Calm(v) && EvidenceFits(BREACHED, v.rec.evidence) && v.rec.recourseRecorded.None?
    ensures AllMayBeTaken(cfg, v, MoveThen(v, BREACHED, "POSTCONDITION_BREACHED", details,
              [Move(REMEDY_DUE, "RESERVED_REMEDY_DUE", due)]), regular)
  {
    hide Apply, Awaited, AllMayBeTaken, EvidenceFits;
    var remedyDue := Move(REMEDY_DUE, "RESERVED_REMEDY_DUE", due);
    if Allowed(v.rec.state, BREACHED) {
      if regular {
        CalmMoves(v, BREACHED, |v.rec.evidence|);
      }
      MoveLeads(cfg, v, BREACHED, "POSTCONDITION_BREACHED", details);
      RemedyDueIsAllowed(cfg, Apply(cfg, v, Move(BREACHED, "POSTCONDITION_BREACHED", details)), due, regular);
    }
    MoveIsAllowed(cfg, v, BREACHED, "POSTCONDITION_BREACHED", details, [remedyDue], regular);
  }

  lemma RemedyDueIsAllowed(cfg: Config, v: View, due: Details, regular: bool)
    requires v.rec.state == BREACHED
    requires regular ==> Calm(v) && EvidenceFits(BREACHED, v.rec.evidence) && v.rec.recourseRecorded.None?
    ensures AllMayBeTaken(cfg, v, [Move(REMEDY_DUE, "RESERVED_REMEDY_DUE", due)], regular)
  {
    hide Awaited, AllMayBeTaken;
    if regular {
      CalmMoves(v, REMEDY_DUE, |v.rec.evidence|);
    }
    PlainMoveMayBeTaken(cfg, v, REMEDY_DUE, "RESERVED_REMEDY_DUE", due, regular);
    SingleStep(cfg, v, Move(REMEDY_DUE, "RESERVED_REMEDY_DUE", due), regular);
  }

  lemma JudgementIsAllowed(cfg: Config, w: View, e: Evidence, a: Answers, regular: bool)
    requires regular ==>
      Calm(w) && w.rec.recourseRecorded.None? &&
      EvidenceFits(if e.body.evaluation.satisfied then SATISFIED else BREACHED, w.rec.evidence)
    ensures AllMayBeTaken(cfg, w, JudgementPlan(cfg, w, e, a), regular)
  {
    hide Apply, Awaited, EvidenceFits, DigestEvidence, AllMayBeTaken;
    var details := EvidenceDetails(DigestEvidence(cfg.crypto, e));
    if regular && Allowed(w.rec.state, SATISFIED) {
      CalmMoves(w, SATISFIED, |w.rec.evidence|);
    }
    if e.body.evaluation.satisfied {
      MoveAndCloseIsAllowed(cfg, w, SATISFIED, "POSTCONDITION_SATISFIED", details, a, regular);
    } else {
      BreachIsAllowed(cfg, w, details, ReservationReference(cfg.crypto, w.rec), regular);
    }
  }

  lemma AcceptanceAddsEvidence(cfg: Config, v: View, e: Evidence)
    ensures var w := Apply(cfg, v, AcceptedEvidence(e));
            && w.pending == v.pending && w.rec == v.rec.(evidence := v.rec.evidence + [e])
            && (Calm(v) ==> Calm(w))
  {
    hide Awaited;
    if Calm(v) {
      CalmHolds(v, |v.rec.evidence| + 1);
    }
  }

  lemma AcceptedOutcomeIsAllowed(cfg: Config, v: View, o: Observation, a: Answers, regular: bool)
    requires regular ==> Tidy(cfg, v) && Observing(v, Initial)
    requires regular && o.Reported? ==> FactsEcho(v.rec.proposal.parameters, o.facts)
    requires Assess(cfg, v.rec, v.clock, o, Initial).Accept?
    ensures var e := Assess(cfg, v.rec, v.clock, o, Initial).evidence;
            AllMayBeTaken(cfg, v, [AcceptedEvidence(e)] + JudgementPlan(cfg, Apply(cfg, v, AcceptedEvidence(e)), e, a),
              regular)
  {
    var e := Assess(cfg, v.rec, v.clock, o, Initial).evidence;
    var w := Apply(cfg, v, AcceptedEvidence(e));
    AcceptanceMayBeTaken(cfg, v, o, Initial, regular);
    AcceptanceAddsEvidence(cfg, v, e);
    if regular {
      NewEvidenceFits(cfg, v, Initial, e);
    }
    JudgementIsAllowed(cfg, w, e, a, regular);
    FirstThen(cfg, v, AcceptedEvidence(e), JudgementPlan(cfg, w, e, a), regular);
  }

  lemma ObservedIsAllowed(cfg: Config, v: View, o: Observation, a: Answers, regular: bool)
    requires regular ==> Tidy(cfg, v) && Observing(v, Initial)
    requires regular && o.Reported? ==> FactsEcho(v.rec.proposal.parameters, o.facts)
    ensures AllMayBeTaken(cfg, v, PlanObserved(cfg, v, o, a), regular)
  {
    match Assess(cfg, v.rec, v.clock, o, Initial) {
      case Unavailable => RejectionIsAllowed(cfg, v, Initial, "EVIDENCE_UNAVAILABLE", a, regular);
      case RejectAs(code) => RejectionIsAllowed(cfg, v, Initial, code, a, regular);
      case Accept(e) => AcceptedOutcomeIsAllowed(cfg, v, o, a, regular);
    }
  }

  lemma RemedyObservedIsAllowed(cfg: Config, v: View, o: Observation, a: Answers, regular: bool)
    requires regular ==> Tidy(cfg, v) && Observing(v, PostRemedy)
    requires regular && o.Reported? ==> FactsEcho(v.rec.proposal.parameters, o.facts)
    ensures AllMayBeTaken(cfg, v, PlanRemedyObserved(cfg, v, o, a), regular)
  {
    hide MoveAndClose, AllMayBeTaken, DigestEvidence, Assess, Awaited, Apply;
    match Assess(cfg, v.rec, v.clock, o, PostRemedy) {
      case Unavailable => RejectionIsAllowed(cfg, v, PostRemedy, "REMEDY_EVIDENCE_UNAVAILABLE", a, regular);
      case RejectAs(code) => RejectionIsAllowed(cfg, v, PostRemedy, code, a, regular);
      case Accept(e) =>
        AcceptanceMayBeTaken(cfg, v, o, PostRemedy, regular);
        var accept := AcceptedEvidence(e);
        var w := Apply(cfg, v, accept);
        var details := EvidenceDetails(DigestEvidence(cfg.crypto, e));
        AcceptanceAddsEvidence(cfg, v, e);
        if regular {
          NewEvidenceFits(cfg, v, PostRemedy, e);
          CalmMoves(w, REMEDIATED, |w.rec.evidence|);
          CalmMoves(w, REMEDY_INCONCLUSIVE, |w.rec.evidence|);
        }
        var to := if e.body.evaluation.satisfied then REMEDIATED else REMEDY_INCONCLUSIVE;
        var reason := if e.body.evaluation.satisfied then "REMEDY_VERIFIED" else "REMEDY_POSTCONDITION_UNRESOLVED";
        MoveAndCloseIsAllowed(cfg, w, to, reason, details, a, regular);
        FirstThen(cfg, v, accept, MoveAndClose(cfg, w, to, reason, details, a), regular);
    }
  }

  /** The evidence held from a breach until the remedy is observed. */
  lemma BreachEvidenceFits(cfg: Config, v: View, to: State)
    requires Tidy(cfg, v) && v.rec.state in {REMEDY_DUE, REMEDIATING, REMEDY_UNKNOWN}
    requires to in {REVIEW_REQUIRED, REMEDIATING, REMEDY_UNKNOWN, REMEDY_FAILED, REMEDY_VERIFYING}
    ensures EvidenceFits(to, v.rec.evidence) && |v.rec.evidence| == 1 && v.rec.recourseRecorded.None?
  {
    hide AcceptancesMatch, ClosedProperly;
  }

  lemma RemedyMayBegin(cfg: Config, v: View, move: Step, call: RemediateCall, regular: bool)
    requires v.rec.state == REMEDY_DUE && |v.remediateCalls| <= v.rec.remedyAttempts
    requires move.Move? && move.to == REMEDIATING
    requires v.rec.reservation == Some(call.reservation) && call.proposal == v.rec.proposal
             && call.key == v.rec.remedyKey
    requires regular ==> Tidy(cfg, v) && Calm(v)
    ensures AllMayBeTaken(cfg, v, [move, CallsRemediate(call)], regular)
  {
    hide Apply, AllMayBeTaken, Calm, Awaited;
    if regular {
      BreachEvidenceFits(cfg, v, REMEDIATING);
      CalmMoves(v, REMEDIATING, |v.rec.evidence|);
    }
    PlainMoveMayBeTaken(cfg, v, REMEDIATING, move.reason, move.details, regular);
    RemedyCallMayBeTaken(cfg, v, move, call, regular);
    FirstThen(cfg, v, move, [CallsRemediate(call)], regular);
    assert [move] + [CallsRemediate(call)] == [move, CallsRemediate(call)];
  }

  lemma RemedyCallMayBeTaken(cfg: Config, v: View, move: Step, call: RemediateCall, regular: bool)
    requires |v.remediateCalls| <= v.rec.remedyAttempts && move.Move? && move.to == REMEDIATING
    requires v.rec.reservation == Some(call.reservation) && call.proposal == v.rec.proposal
             && call.key == v.rec.remedyKey
    requires regular ==> Calm(v) && Allowed(v.rec.state, REMEDIATING)
    ensures AllMayBeTaken(cfg, Apply(cfg, v, move), [CallsRemediate(call)], regular)
  {
    hide Awaited, AllMayBeTaken, Allowed, Asks, DigestReservation, DigestPermit, Head, NextEvent, MakeSignature;
    if regular {
      CalmMoves(v, REMEDIATING, |v.rec.evidence|);
      CallIsAwaited(Apply(cfg, v, move), RemediateReply);
    }
    SingleStep(cfg, Apply(cfg, v, move), CallsRemediate(call), regular);
  }

  lemma ReviewIsAllowed(cfg: Config, v: View, reason: string, details: Details, a: Answers, regular: bool)
    requires v.rec.state == REMEDY_DUE && (regular ==> Tidy(cfg, v) && Calm(v))
    ensures AllMayBeTaken(cfg, v, MoveAndClose(cfg, v, REVIEW_REQUIRED, reason, details, a), regular)
  {
    hide Apply, Awaited, AllMayBeTaken;
    if regular {
      BreachEvidenceFits(cfg, v, REVIEW_REQUIRED);
      CalmMoves(v, REVIEW_REQUIRED, |v.rec.evidence|);
    }
    MoveAndCloseIsAllowed(cfg, v, REVIEW_REQUIRED, reason, details, a, regular);
  }

  lemma RemediateIsAllowed(cfg: Config, v: View, a: Answers, measured: Option<Digest>, regular: bool)
    requires |v.remediateCalls| <= v.rec.remedyAttempts
    requires regular ==> Tidy(cfg, v) && PendingFits(v)
    ensures AllMayBeTaken(cfg, v, PlanRemediate(cfg, v, a, measured), regular)
  {
    hide Apply, ClosePlan, Awaited, Tidy, EvidenceSound, Deciding, EnabledOrderly, RecourseLast, ReadStatus, MayTake,
         EndsInRecourseEvent, PreflightHolds, PendingFits;
    if regular && v.rec.state == REMEDY_DUE {
      RestingIsCalm(v);
    }
    if v.rec.state != REMEDY_DUE || v.rec.reservation.None? {
    } else if v.rec.reservation.value.body.expiresAt <= v.clock {
      ReviewIsAllowed(cfg, v, "RECOURSE_EXPIRED", NoDetails, a, regular);
    } else {
      var reservation := v.rec.reservation.value;
      match ReadStatus(v.rec, a.probe) {
        case None =>
        case Some(status) =>
          if status != StatusActive {
            ReviewIsAllowed(cfg, v, "RECOURSE_NOT_ACTIVE", StatusDetails(status), a, regular);
          } else if reservation.body.kind == Escalate {
            ReviewIsAllowed(cfg, v, "REMEDY_REQUIRES_CHILD_ACTION", KindDetails(Escalate), a, regular);
          } else {
            RemedyMayBegin(cfg, v,
              Move(REMEDIATING, "REMEDY_STARTED",
                AttemptDetails(v.rec.remedyAttempts + 1, DigestReservation(cfg.crypto, reservation))),
              RemediateCall(v.clock, v.rec.proposal, reservation, v.rec.remedyKey), regular);
          }
      }
    }
  }

  lemma RemedyConfirmedIsAllowed(cfg: Config, v: View, reason: string, details: Details, regular: bool)
    requires regular ==> Tidy(cfg, v) && PendingFits(v)
    requires regular ==> AfterRemedy(v.rec.state) || (v.rec.state == REMEDIATING && Calm(v))
    ensures AllMayBeTaken(cfg, v, MoveThen(v, REMEDY_VERIFYING, reason, details, [Calls(RemedyObserveReply)]), regular)
  {
    hide Apply, Awaited, AllMayBeTaken;
    if regular && Allowed(v.rec.state, REMEDY_VERIFYING) {
      if v.rec.state == REMEDY_UNKNOWN {
        RestingIsCalm(v);
      }
      BreachEvidenceFits(cfg, v, REMEDY_VERIFYING);
      CalmMoves(v, REMEDY_VERIFYING, |v.rec.evidence|);
    }
    MoveThenCallIsAllowed(cfg, v, REMEDY_VERIFYING, reason, details, RemedyObserveReply, regular);
  }

  /** A remedy can also be found to have failed while its outcome is being observed. */
  lemma OvertakingIsAwaited(v: View)
    requires PendingFits(v) && v.rec.state == REMEDY_VERIFYING
    ensures Awaited(v.pending, REMEDY_FAILED, |v.rec.evidence|)
  {
    forall t | t in v.pending
      ensures MayAwait(t, REMEDY_FAILED, |v.rec.evidence|) && (Asks(t) || v.pending[t] == 1)
    {
      assert MayAwait(t, v.rec.state, |v.rec.evidence|);
    }
  }

  lemma VerifyingHoldsRemedyEvidence(cfg: Config, v: View)
    requires Tidy(cfg, v) && v.rec.state == REMEDY_VERIFYING
    ensures EvidenceFits(REMEDY_FAILED, v.rec.evidence) && v.rec.recourseRecorded.None?
  {
  }

  lemma RemedyEndIsAllowed(cfg: Config, v: View, to: State, reason: string, details: Details, a: Answers, regular: bool)
    requires to in {REMEDY_FAILED, REVIEW_REQUIRED}
    requires regular ==> Tidy(cfg, v) && PendingFits(v)
    requires regular ==> AfterRemedy(v.rec.state) || (v.rec.state == REMEDIATING && Calm(v))
    ensures AllMayBeTaken(cfg, v, MoveAndClose(cfg, v, to, reason, details, a), regular)
  {
    hide Apply, Awaited, AllMayBeTaken, EvidenceFits, EvidenceSound, RecourseLast;
    if regular && Allowed(v.rec.state, to) {
      if v.rec.state == REMEDY_VERIFYING {
        VerifyingHoldsRemedyEvidence(cfg, v);
        OvertakingIsAwaited(v);
      } else {
        if v.rec.state == REMEDY_UNKNOWN {
          RestingIsCalm(v);
        }
        BreachEvidenceFits(cfg, v, to);
        CalmMoves(v, to, |v.rec.evidence|);
      }
    }
    MoveAndCloseIsAllowed(cfg, v, to, reason, details, a, regular);
  }

  lemma RemediateReplyIsAllowed(cfg: Config, v: View, reply: ConnectorReply, a: Answers, regular: bool)
    requires regular ==> Tidy(cfg, v) && Calm(v) && v.rec.state == REMEDIATING
    ensures AllMayBeTaken(cfg, v, PlanRemediateReply(cfg, v, reply, a), regular)
  {
    hide Apply, ClosePlan, AllMayBeTaken, DigestText, Awaited;
    var key := RemedyKeyReference(cfg.crypto, v.rec);
    if regular {
      BreachEvidenceFits(cfg, v, REMEDY_UNKNOWN);
      CalmMoves(v, REMEDY_UNKNOWN, |v.rec.evidence|);
    }
    match AcceptedStatus(reply, v.rec.remedyKey, REMEDY_RESULTS) {
      case None =>
        RemedyEndIsAllowed(cfg, v, REMEDY_FAILED, "IDEMPOTENCY_CONFLICT", key, a, regular);
        MoveIsAllowed(cfg, v, REMEDY_UNKNOWN, "REMEDY_EXECUTION_AMBIGUOUS", key, [], regular);
      case Some(Remediated) => RemedyConfirmedIsAllowed(cfg, v, "REMEDY_EXECUTION_CONFIRMED", key, regular);
      case Some(status) =>
        RemedyEndIsAllowed(cfg, v, REMEDY_FAILED, "REMEDY_CONNECTOR_FAILED", ResultDetails(ResultName(status)), a,
          regular);
    }
  }

  lemma ReconcileRemedyReplyIsAllowed(cfg: Config, v: View, reply: ConnectorReply, a: Answers, regular: bool)
    requires regular ==> Tidy(cfg, v) && PendingFits(v) && AfterRemedy(v.rec.state)
    ensures AllMayBeTaken(cfg, v, PlanReconcileRemedyReply(cfg, v, reply, a), regular)
  {
    hide Apply, MoveAndClose, Tidy, PendingFits, RemedyKeyReference;
    var key := RemedyKeyReference(cfg.crypto, v.rec);
    match AcceptedStatus(reply, v.rec.remedyKey, REMEDY_STATUSES) {
      case None =>
      case Some(Remediated) => RemedyConfirmedIsAllowed(cfg, v, "REMEDY_STATUS_CONFIRMED", key, regular);
      case Some(status) =>
        RemedyEndIsAllowed(cfg, v, REMEDY_FAILED, "REMEDY_STATUS_CONFIRMED_NO_EFFECT",
          ResultDetails(ResultName(status)), a, regular);
        RemedyEndIsAllowed(cfg, v, REVIEW_REQUIRED, "REMEDY_STATUS_UNRESOLVED", key, a, regular);
    }
  }

  /** What the segments below use of `Good` and `RegularHere`. */
  lemma GroundsOfPlans(cfg: Config, v: View, s: Segment, regular: bool)
    requires Good(cfg, v, regular) && (regular ==> RegularHere(v, s))
    ensures RecordOk(cfg, v.rec) && |v.remediateCalls| <= v.rec.remedyAttempts
    ensures regular ==> Tidy(cfg, v) && PendingFits(v) && Truthful(v, s) && ArrivesInPlace(v, s)
  {
    hide LogAgrees, EvidenceSound, RecourseLast, ReservationGood, PermitGood, Covered, Awaited;
    if regular && Awaits(s).Some? && !Asks(Awaits(s).value) {
      ArrivedIsCalm(v, Awaits(s).value);
    }
  }

  /** Where the replies of a regular run find the action. */
  ghost predicate ArrivesInPlace(v: View, s: Segment) {
    match s
    case ExecuteReplied(_, _, _) => Calm(v) && v.rec.state == EXECUTING
    case Reconciled(_, _) => AfterExecution(v.rec.state)
    case OutcomeObserved(_, _) => Observing(v, Initial)
    case RemedyReplied(_, _) => Calm(v) && v.rec.state == REMEDIATING
    case RemedyReconciled(_, _) => AfterRemedy(v.rec.state)
    case RemedyObserved(_, _) => Observing(v, PostRemedy)
    case _ => true
  }

  lemma GrantingSegmentIsAllowed(cfg: Config, v: View, s: Segment, regular: bool)
    requires Good(cfg, v, regular) && (regular ==> RegularHere(v, s))
    requires s.Authorizing? || s.Reserving? || s.AcceptingPreflight? || s.IssuingPermit? || s.Executing?
    ensures AllMayBeTaken(cfg, v, SegmentPlan(cfg, v, s), regular)
  {
    hide PlanAuthorize, PlanReserve, PlanAcceptPreflight, PlanIssuePermit, PlanExecute, AllMayBeTaken, LogAgrees,
         EvidenceSound, RecourseLast, ReservationGood, PermitGood, Covered,
         PendingFits;
    GroundsOfPlans(cfg, v, s, regular);
    match s {
      case Authorizing(d) => AuthorizeIsAllowed(cfg, v, d, regular);
      case Reserving(r, caps, m) => ReserveIsAllowed(cfg, v, r, caps, m, regular);
      case AcceptingPreflight(b, measured) => AcceptPreflightIsAllowed(cfg, v, b, measured, regular);
      case IssuingPermit(caps, a, measured) => IssuePermitIsAllowed(cfg, v, caps, a, measured, regular);
      case Executing(override, a, measured) => ExecuteIsAllowed(cfg, v, override, a, measured, regular);
    }
  }

  lemma LaterSegmentIsAllowed(cfg: Config, v: View, s: Segment, regular: bool)
    requires |v.remediateCalls| <= v.rec.remedyAttempts
    requires regular ==> Tidy(cfg, v) && PendingFits(v) && Truthful(v, s) && ArrivesInPlace(v, s)
    requires !(s.Authorizing? || s.Reserving? || s.AcceptingPreflight? || s.IssuingPermit? || s.Executing?)
    ensures AllMayBeTaken(cfg, v, SegmentPlan(cfg, v, s), regular)
  {
    hide PlanExecuteReply, PlanReconcileReply, PlanObserved, PlanRemediate, PlanRemediateReply,
         PlanReconcileRemedyReply, PlanRemedyObserved, Tidy, MayTake, Awaited, Calm;
    match s {
      case ExecuteReplied(reply, refusal, a) => ExecuteReplyIsAllowed(cfg, v, reply, refusal, a, regular);
      case Reconciling =>
        if v.rec.state == UNKNOWN {
          if regular {
            RestingIsCalm(v);
          }
          CallIsAllowed(cfg, v, StatusReply, regular);
        }
      case Reconciled(reply, a) => ReconcileReplyIsAllowed(cfg, v, reply, a, regular);
      case VerifyingOutcome => VerifyOutcomeIsAllowed(cfg, v, regular);
      case OutcomeObserved(o, a) => ObservedIsAllowed(cfg, v, o, a, regular);
      case Remediating(a, measured) => RemediateIsAllowed(cfg, v, a, measured, regular);
      case RemedyReplied(reply, a) => RemediateReplyIsAllowed(cfg, v, reply, a, regular);
      case ReconcilingRemedy =>
        if v.rec.state == REMEDY_UNKNOWN {
          if regular {
            RestingIsCalm(v);
          }
          CallIsAllowed(cfg, v, RemedyStatusReply, regular);
        }
      case RemedyReconciled(reply, a) => ReconcileRemedyReplyIsAllowed(cfg, v, reply, a, regular);
      case RemedyObserved(o, a) => RemedyObservedIsAllowed(cfg, v, o, a, regular);
    }
  }

  /** Every segment plans only steps that may be taken. */
  lemma SegmentIsAllowed(cfg: Config, v: View, s: Segment, regular: bool)
    requires Good(cfg, v, regular) && (regular ==> RegularHere(v, s))
    ensures AllMayBeTaken(cfg, v, SegmentPlan(cfg, v, s), regular)
  {
    if s.Authorizing? || s.Reserving? || s.AcceptingPreflight? || s.IssuingPermit? || s.Executing? {
      GrantingSegmentIsAllowed(cfg, v, s, regular);
    } else {
      GroundsOfPlans(cfg, v, s, regular);
      LaterSegmentIsAllowed(cfg, v, s, regular);
    }
  }

  /** One turn of any segment, cut short anywhere, keeps the invariant. */
  lemma TurnKeepsGood(cfg: Config, v: View, t: Turn, regular: bool)
    requires SoundSignatures(cfg.crypto)
    requires Good(cfg, v, regular) && CanRun(v, t.segment, t.now) && (regular ==> Regular(v, t.segment, t.now))
    ensures Good(cfg, TakeTurn(cfg, v, t), regular)
  {
    hide SegmentPlan, Good, AllMayBeTaken, ApplyAll, Regular;
    var w := Entered(v, t.segment, t.now);
    EnteringKeepsGood(cfg, v, t.segment, t.now, regular);
    SegmentIsAllowed(cfg, w, t.segment, regular);
    var plan := Plan(cfg, v, t.segment, t.now);
    StepsKeepGood(cfg, w, plan, if t.performed <= |plan| then t.performed else |plan|, regular);
  }

  lemma ProposedIsGood(cfg: Config, p: Proposal, now: Time)
    requires SoundSignatures(cfg.crypto)
    requires ProposalValid(p, now)
    ensures Core(cfg, Proposed(cfg, p, now)) && Orderly(cfg, Proposed(cfg, p, now))
  {
    hide ClosedProperly, EvidenceGood, ReservationGood, PermitGood, Covered, LegalPath, ProposalShape, EvidenceDigests;
    var v := Proposed(cfg, p, now);
    var event := v.log[0];
    assert v.log == [] + [event];
    AppendKeepsChain(cfg.crypto, cfg.signer, cfg.Keys(), [], v.rec.actionId, "rail", now,
      ActionProposed(v.rec.actionDigest, ActionTypeOf(p.parameters), p.mode));
    assert Replay(v.rec.actionId, []) == Some([PROPOSED]);
    ReplayExtends(v.rec.actionId, [], event);
    FoldsExtend([], event);
    AcceptsExtend([], event, Initial);
    AcceptsExtend([], event, PostRemedy);
    assert LastState(v.log) == LastState(v.log[..0]) == PROPOSED;
    assert multiset([PROPOSED])[EXECUTING] == 0 && multiset([PROPOSED])[REMEDIATING] == 0;
    assert LogSound(cfg, v.rec, v.log, v.clock);
    assert RecordedAgrees(cfg, v);
  }

  ghost predicate RegularRun(turns: seq<Turn>, views: seq<View>)
    requires |views| == |turns| + 1
  {
    forall i :: 0 <= i < |turns| ==> Regular(views[i], turns[i].segment, turns[i].now)
  }

  /** Every view of every run is good: `Core` whatever interleaves and fails, `Orderly` besides
      when the run is regular. */
  lemma {:induction false} RunsAreGood(cfg: Config, p: Proposal, start: Time, turns: seq<Turn>, views: seq<View>,
      i: nat, regular: bool)
    requires SoundSignatures(cfg.crypto)
    requires Run(cfg, p, start, turns, views) && i <= |turns|
    requires regular ==> RegularRun(turns, views)
    ensures Good(cfg, views[i], regular)
  {
    if i == 0 {
      ProposedIsGood(cfg, p, start);
    } else {
      RunsAreGood(cfg, p, start, turns, views, i - 1, regular);
      TurnKeepsGood(cfg, views[i - 1], turns[i - 1], regular);
    }
  }
}
