/** What the rail promises, over every run: at most one execution and one remedy, agreement of
    log and record, recourse behind every execution, and exports that verify. */
module RailTheorems {
  import opened RailStates
  import opened Artifacts
  import opened Postconditions
  import opened EventStore
  import opened Verify
  import opened VerifySoundness
  import opened Recovery
  import opened RailModel
  import opened RailInvariant
  import opened RailRuns

  // ----- At most once -----

  lemma EnteredAtMostOnce(cfg: Config, v: View, s: State)
    requires LogAgrees(cfg, v)
    ensures Times(v.rec.actionId, v.log, s) <= 1
  {
    VisitedAtMostOnce(Replay(v.rec.actionId, v.log).value, s);
  }

  /** In any run, whatever interleaves, whatever the connector answers and whichever appends
      the store refuses, one action calls connector.execute at most once and
      connector.remediate at most once, and no more often than its reservation allows. */
  lemma AtMostOnce(cfg: Config, p: Proposal, start: Time, turns: seq<Turn>, views: seq<View>, i: nat)
    requires SoundSignatures(cfg.crypto)
    requires Run(cfg, p, start, turns, views) && i <= |turns|
    ensures |views[i].executeCalls| <= views[i].rec.permitUses <= 1
    ensures |views[i].remediateCalls| <= views[i].rec.remedyAttempts <= 1
    ensures forall call <- views[i].remediateCalls :: |views[i].remediateCalls| <= call.reservation.body.maxAttempts
  {
    var v := views[i];
    RunsAreGood(cfg, p, start, turns, views, i, false);
    EnteredAtMostOnce(cfg, v, EXECUTING);
    EnteredAtMostOnce(cfg, v, REMEDIATING);
    RemedyWithinReservation(cfg, v);
  }

  lemma RemedyWithinReservation(cfg: Config, v: View)
    requires Core(cfg, v)
    ensures forall call <- v.remediateCalls :: 1 <= call.reservation.body.maxAttempts
  {
    forall call | call in v.remediateCalls
      ensures 1 <= call.reservation.body.maxAttempts
    {
      assert v.rec.reservation == Some(call.reservation);
      assert ReservationGood(cfg, v.rec, call.reservation);
    }
  }

  // ----- Log agreement -----

  /** What a reader of the log alone would reconstruct. */
  datatype Reconstruction = Reconstruction(
    state: State, permitUses: nat, remedyAttempts: nat, evidence: seq<Digest>, recourse: seq<RecourseStatus>)

  function StatusOf(e: Event): RecourseStatus {
    match e.Payload()
    case RecourseFinalized(_, status, _) => status
    case RecourseStatusRecorded(_, status, _) => status
    case _ => StatusUnknown
  }

  function StatusesOf(es: seq<Event>): seq<RecourseStatus> {
    seq(|es|, i requires 0 <= i < |es| => StatusOf(es[i]))
  }

  function Reconstruct(id: Id, log: seq<Event>): Option<Reconstruction> {
    match Replay(id, log)
    case None => None
    case Some(path) =>
      Some(Reconstruction(
        path[|path| - 1], multiset(path)[EXECUTING], multiset(path)[REMEDIATING], AcceptedDigests(log),
          StatusesOf(RecourseEvents(log))))
  }

  function RecordSays(cfg: Config, rec: Record): Reconstruction {
    Reconstruction(rec.state, rec.permitUses, rec.remedyAttempts, EvidenceDigests(cfg.crypto, rec.evidence),
                   if rec.recourseRecorded.Some? then [rec.recourseRecorded.value] else [])
  }

  lemma RecordedStatusIsLogged(cfg: Config, v: View)
    requires RecordedAgrees(cfg, v)
    ensures StatusesOf(RecourseEvents(v.log)) == if v.rec.recourseRecorded.Some? then [v.rec.recourseRecorded.value]
            else []
  {
  }

  lemma AgreementReconstructs(cfg: Config, v: View)
    requires LogAgrees(cfg, v)
    ensures Reconstruct(v.rec.actionId, v.log) == Some(RecordSays(cfg, v.rec))
  {
    ReplayReachesLastState(v.rec.actionId, v.log);
    RecordedStatusIsLogged(cfg, v);
  }

  /** In every reachable view of every run, also after a refused append cut a call short, the
      log is a verified chain and reconstructs exactly the record; a receipt exists exactly
      when the replayed state is CLOSED. */
  lemma LogAgreesWithRecord(cfg: Config, p: Proposal, start: Time, turns: seq<Turn>, views: seq<View>, i: nat)
    requires SoundSignatures(cfg.crypto)
    requires Run(cfg, p, start, turns, views) && i <= |turns|
    ensures ChainValid(cfg.crypto, cfg.Keys(), views[i].log)
    ensures Reconstruct(views[i].rec.actionId, views[i].log) == Some(RecordSays(cfg, views[i].rec))
    ensures views[i].rec.receipt.Some? <==> views[i].rec.state == CLOSED
  {
    RunsAreGood(cfg, p, start, turns, views, i, false);
    AgreementReconstructs(cfg, views[i]);
  }

  // ----- No recourse, no execution -----

  /** An event that issued `permit` on the strength of the drill `attestation` names. */
  predicate IssuesPermit(c: Crypto, e: Event, permit: Permit, attestation: Option<Digest>) {
    e.Payload() == Moved(c, RECOURSE_RESERVED, PERMITTED, "PERMIT_ISSUED",
      PermitDetails(DigestPermit(c, permit), permit.body.mode, permit.body.bypassPossible, attestation))
  }

  ghost predicate PermitIsLogged(c: Crypto, rec: Record, log: seq<Event>) {
    rec.permit.Some? ==> exists e <- log :: IssuesPermit(c, e, rec.permit.value, PermittedAttestation(c, rec))
  }

  /** The permit stands in the log with the drill it was issued on, and every call ran on that drill. */
  ghost predicate Attested(c: Crypto, v: View) {
    && PermitIsLogged(c, v.rec, v.log)
    && forall call <- v.executeCalls :: call.preflight == v.rec.preflight
  }

  lemma LogGrowthKeepsPermit(c: Crypto, r: Record, s: Record, log: seq<Event>, e: Event)
    requires PermitIsLogged(c, r, log) && r.permit == s.permit
    requires r.permit.Some? ==> PermittedAttestation(c, r) == PermittedAttestation(c, s)
    ensures PermitIsLogged(c, s, log + [e])
  {
    hide IssuesPermit, PermittedAttestation;
    if r.permit.Some? {
      var issued :| issued in log && IssuesPermit(c, issued, r.permit.value, PermittedAttestation(c, r));
      assert issued in log + [e];
    }
  }

  /** What an event can do to the fields a permit was issued on. */
  lemma GroundsStay(cfg: Config, v: View, step: Step)
    requires RecordOk(cfg, v.rec) && CallsOk(cfg, v) && Enabled(cfg, v, step) && !step.Permitted?
    ensures var w := Apply(cfg, v, step);
            && v.rec.permit == w.rec.permit
            && (v.rec.permit.Some? ==> v.rec.preflight == w.rec.preflight && v.rec.authorization == w.rec.authorization)
            && (v.executeCalls != [] ==> v.rec.preflight == w.rec.preflight)
  {
    hide PermitGood, ReservationGood, NextEvent, Covered;
    CalledMeansGranted(cfg, v);
  }

  lemma StepKeepsAttested(cfg: Config, v: View, step: Step)
    requires RecordOk(cfg, v.rec) && CallsOk(cfg, v) && Enabled(cfg, v, step) && Attested(cfg.crypto, v)
    ensures Attested(cfg.crypto, Apply(cfg, v, step))
  {
    hide Apply, RecordOk, CallsOk, PermittedAttestation;
    var w := Apply(cfg, v, step);
    if StepEvent(cfg.crypto, v.rec, step).None? {
      CallKeepsAttested(cfg, v, step);
    } else if step.Permitted? {
      PermitIsAttested(cfg, v, step);
    } else {
      StepAppends(cfg, v, step);
      GroundsStay(cfg, v, step);
      GroundsKeepAttestation(cfg.crypto, v.rec, w.rec);
      LogGrowthKeepsPermit(cfg.crypto, v.rec, w.rec, v.log, w.log[|v.log|]);
    }
  }

  lemma GroundsKeepAttestation(c: Crypto, r: Record, s: Record)
    requires r.permit.Some? ==> r.preflight == s.preflight && r.authorization == s.authorization
    ensures r.permit.Some? ==> PermittedAttestation(c, r) == PermittedAttestation(c, s)
  {
  }

  lemma CallKeepsAttested(cfg: Config, v: View, step: Step)
    requires Enabled(cfg, v, step) && Attested(cfg.crypto, v) && StepEvent(cfg.crypto, v.rec, step).None?
    ensures Attested(cfg.crypto, Apply(cfg, v, step))
  {
    hide PermitIsLogged, Covered;
  }

  lemma PermitIsAttested(cfg: Config, v: View, step: Step)
    requires step.Permitted? && RecordOk(cfg, v.rec) && CallsOk(cfg, v) && Enabled(cfg, v, step)
             && Attested(cfg.crypto, v)
    ensures Attested(cfg.crypto, Apply(cfg, v, step))
  {
    hide Apply, PermittedAttestation, RecordOk;
    var w := Apply(cfg, v, step);
    StepAppends(cfg, v, step);
    GrantChanges(cfg, v, step);
    GroundsOfPermit(cfg, v, step);
    assert w.log[|v.log|] in w.log;
    assert PermittedAttestation(cfg.crypto, w.rec) == PermittedAttestation(cfg.crypto, v.rec) by {
      SameGroundsSameAttestation(cfg.crypto, v.rec, w.rec);
    }
  }

  lemma SameGroundsSameAttestation(c: Crypto, r: Record, s: Record)
    requires r.preflight == s.preflight && r.authorization == s.authorization
    ensures PermittedAttestation(c, r) == PermittedAttestation(c, s)
  {
  }

  /** A permit is issued in RECOURSE_RESERVED. */
  lemma GroundsOfPermit(cfg: Config, v: View, step: Step)
    requires step.Permitted? && Enabled(cfg, v, step)
    ensures v.rec.state == RECOURSE_RESERVED
  {
  }

  lemma {:induction false} StepsKeepAttested(cfg: Config, v: View, steps: seq<Step>, k: nat)
    requires SoundSignatures(cfg.crypto) && Good(cfg, v, false) && Attested(cfg.crypto, v)
    requires AllMayBeTaken(cfg, v, steps, false) && k <= |steps|
    ensures Attested(cfg.crypto, ApplyAll(cfg, v, steps[..k]))
    decreases |steps|
  {
    hide Apply, LogAgrees, Enabled, RecordOk, CallsOk, Attested;
    if steps != [] {
      var init := steps[..|steps| - 1];
      if k < |steps| {
        assert init[..k] == steps[..k];
        StepsKeepAttested(cfg, v, init, k);
      } else {
        assert init[..|init|] == init && steps[..k] == steps;
        StepsKeepAttested(cfg, v, init, |init|);
        StepsKeepGood(cfg, v, init, |init|, false);
        StepKeepsAttested(cfg, ApplyAll(cfg, v, init), steps[|init|]);
      }
    }
  }

  lemma TurnKeepsAttested(cfg: Config, v: View, t: Turn)
    requires SoundSignatures(cfg.crypto)
    requires Good(cfg, v, false) && CanRun(v, t.segment, t.now) && Attested(cfg.crypto, v)
    ensures Attested(cfg.crypto, TakeTurn(cfg, v, t))
  {
    hide SegmentPlan, Good, AllMayBeTaken, ApplyAll, PermitIsLogged;
    var w := Entered(v, t.segment, t.now);
    EnteringKeepsGood(cfg, v, t.segment, t.now, false);
    SegmentIsAllowed(cfg, w, t.segment, false);
    var plan := Plan(cfg, v, t.segment, t.now);
    StepsKeepAttested(cfg, w, plan, if t.performed <= |plan| then t.performed else |plan|);
  }

  lemma {:induction false} RunsAreAttested(cfg: Config, p: Proposal, start: Time, turns: seq<Turn>, views: seq<View>,
      i: nat)
    requires SoundSignatures(cfg.crypto)
    requires Run(cfg, p, start, turns, views) && i <= |turns|
    ensures Attested(cfg.crypto, views[i])
  {
    hide Good, TakeTurn, Attested, ProposalValid;
    if i == 0 {
      NothingToAttest(cfg, p, start);
    } else {
      RunsAreGood(cfg, p, start, turns, views, i - 1, false);
      RunsAreAttested(cfg, p, start, turns, views, i - 1);
      TurnKeepsAttested(cfg, views[i - 1], turns[i - 1]);
    }
  }

  lemma NothingToAttest(cfg: Config, p: Proposal, now: Time)
    ensures Attested(cfg.crypto, Proposed(cfg, p, now))
  {
  }

  /** At every call of connector.execute the permit is unexpired, the payload is the authorized
      one up to digest, the connector reports the signed reservation active, its scope and
      validity cover the action, and a required drill is still bound, current, exact and the one
      whose attestation the event that issued the permit names. */
  lemma NoRecourseNoExecution(cfg: Config, p: Proposal, start: Time, turns: seq<Turn>, views: seq<View>, i: nat)
    requires SoundSignatures(cfg.crypto)
    requires Run(cfg, p, start, turns, views) && i <= |turns|
    ensures forall call <- views[i].executeCalls ::
      && call.at < call.permit.body.expiresAt && call.at < call.reservation.body.expiresAt
      && DigestProposal(cfg.crypto, call.candidate) == DigestProposal(cfg.crypto,
           call.proposal) == views[i].rec.actionDigest
      && call.permit.body.reservationDigest == DigestReservation(cfg.crypto, call.reservation)
      && call.authorization.allow
      && call.reported == StatusActive
      && ScopeCovers(call.proposal.parameters, call.reservation.body.commitment.body.scope)
      && call.reservation.body.expiresAt >= call.permit.body.expiresAt
           + call.reservation.body.remedyWindowSeconds * 1000
      && (call.authorization.requirePreflight ==>
            && call.preflight.Some?
            && VerifyPreflight(cfg.crypto, call.preflight.value, cfg.recoveryKeys, Some(call.at)).Ok?
            && VerifyPreflight(cfg.crypto, call.preflight.value, cfg.recoveryKeys,
                 Some(call.at)).value.qualification == QualifiedExact
            && RecoveryBound(cfg, call.reservation, call.preflight.value.contract, call.measured)
            && exists e <- views[i].log ::
                 IssuesPermit(cfg.crypto, e, call.permit,
                   Some(DigestAttestation(cfg.crypto, call.preflight.value.attestation))))
  {
    hide Attested, IssuesPermit, VerifyPreflight, RecoveryBound, ScopeCovers, LogAgrees, RecordOk, CallsOk, TakeTurn;
    RunsAreGood(cfg, p, start, turns, views, i, false);
    RunsAreAttested(cfg, p, start, turns, views, i);
    CallsAreBacked(cfg, views[i]);
    CallsAreAttested(cfg, views[i]);
  }

  /** Where policy requires a drill, every call of connector.execute has behind it a drill of a
      synthetic fixture that damaged a state and restored it exactly, up to digest collisions,
      and that is not older than its contract allows. */
  lemma RequiredDrillRestored(cfg: Config, p: Proposal, start: Time, turns: seq<Turn>, views: seq<View>, i: nat)
    requires SoundSignatures(cfg.crypto)
    requires Run(cfg, p, start, turns, views) && i <= |turns|
    ensures forall call <- views[i].executeCalls :: call.authorization.requirePreflight ==>
      call.preflight.Some? && ShowsRestoration(cfg.crypto, call.preflight.value, call.at)
  {
    hide VerifyPreflight, ShowsRestoration, RecoveryBound, ScopeCovers, IssuesPermit, TakeTurn, ProposalValid;
    NoRecourseNoExecution(cfg, p, start, turns, views, i);
    forall call | call in views[i].executeCalls && call.authorization.requirePreflight
      ensures call.preflight.Some? && ShowsRestoration(cfg.crypto, call.preflight.value, call.at)
    {
      ExactBundleShowsRestoration(cfg.crypto, call.preflight.value, cfg.recoveryKeys, call.at);
    }
  }

  lemma CallsAreAttested(cfg: Config, v: View)
    requires Core(cfg, v) && Attested(cfg.crypto, v)
    ensures forall call <- v.executeCalls :: call.authorization.requirePreflight ==>
      && call.preflight.Some?
      && exists e <- v.log ::
           IssuesPermit(cfg.crypto, e, call.permit,
             Some(DigestAttestation(cfg.crypto, call.preflight.value.attestation)))
  {
    hide IssuesPermit, LogAgrees, RecordOk, PreflightHolds, ScopeCovers, CheckSignature;
    forall call | call in v.executeCalls && call.authorization.requirePreflight
      ensures call.preflight.Some?
      ensures exists e <- v.log ::
        IssuesPermit(cfg.crypto, e, call.permit, Some(DigestAttestation(cfg.crypto, call.preflight.value.attestation)))
    {
      assert Covered(cfg, v.rec, call);
    }
  }

  lemma CallsAreBacked(cfg: Config, v: View)
    requires RecordOk(cfg, v.rec) && CallsOk(cfg, v)
    ensures forall call <- v.executeCalls ::
      && Covered(cfg, v.rec, call)
      && call.permit.body.reservationDigest == DigestReservation(cfg.crypto, call.reservation)
      && DigestProposal(cfg.crypto, call.proposal) == v.rec.actionDigest
  {
    forall call | call in v.executeCalls
      ensures call.permit.body.reservationDigest == DigestReservation(cfg.crypto, call.reservation)
      ensures DigestProposal(cfg.crypto, call.proposal) == v.rec.actionDigest
    {
      assert Covered(cfg, v.rec, call);
      assert PermitGood(cfg, v.rec, call.reservation, call.permit);
    }
  }

  // ----- Exports verify -----

  function ExportBundle(cfg: Config, v: View, profile: Profile): Bundle
    requires v.rec.receipt.Some? && v.rec.reservation.Some? && v.rec.permit.Some?
  {
    var rec := v.rec;
    var audit := profile == AuditProfile;
    Bundle(
      rec.proposal.version,
      profile,
      ActionSummary(rec.actionId, rec.actionDigest, ActionTypeOf(rec.proposal.parameters),
                    DigestText(cfg.crypto, rec.proposal.resourceId), if audit then Some(rec.proposal) else None),
      rec.reservation.value,
      rec.permit.value,
      EvidenceDigests(cfg.crypto, rec.evidence),
      if audit then rec.evidence else [],
      rec.receipt.value,
      v.log)
  }

  // Positions in a log, found from what the folds over it say.

  predicate IsAcceptance(e: Event, phase: Phase) {
    if phase == Initial then e.Payload().EvidenceAccepted? else e.Payload().RemedyEvidenceAccepted?
  }

  function AcceptanceAt(log: seq<Event>, i: nat): Acceptance
    requires i < |log|
  {
    match log[i].Payload()
    case EvidenceAccepted(d, s) => Acceptance(d, s, LastState(log[..i]), log[i].RecordedAt())
    case RemedyEvidenceAccepted(d, s) => Acceptance(d, s, LastState(log[..i]), log[i].RecordedAt())
    case _ => Acceptance("", false, LastState(log[..i]), log[i].RecordedAt())
  }

  lemma {:induction false} AcceptanceIsListed(log: seq<Event>, phase: Phase, i: nat)
    requires i < |log| && IsAcceptance(log[i], phase)
    ensures AcceptanceAt(log, i) in Accepts(log, phase)
    decreases |log|
  {
    var n := |log| - 1;
    if i < n {
      assert log[..n][..i] == log[..i];
      AcceptanceIsListed(log[..n], phase, i);
    }
  }

  lemma {:induction false} ListedAcceptanceIsThere(log: seq<Event>, phase: Phase) returns (i: nat)
    requires Accepts(log, phase) != []
    ensures i < |log| && IsAcceptance(log[i], phase)
    decreases |log|
  {
    var n := |log| - 1;
    if IsAcceptance(log[n], phase) {
      i := n;
    } else {
      i := ListedAcceptanceIsThere(log[..n], phase);
    }
  }

  /** The only acceptance of a phase is what `find` finds. */
  lemma OnlyAcceptanceIsFound(log: seq<Event>, phase: Phase, a: Acceptance)
    requires Accepts(log, phase) == [a]
    ensures var found := FindFirst(log, AcceptanceOf(phase, a.evidence));
            && found.Some?
            && log[found.value].RecordedAt() == a.at
            && AcceptedSatisfied(log[found.value]) == a.satisfied
            && LastState(log[..found.value]) == a.during
  {
    hide Accepts, LastState;
    var i := ListedAcceptanceIsThere(log, phase);
    AcceptanceIsListed(log, phase, i);
    assert AcceptanceAt(log, i) == a;
    assert AcceptanceOf(phase, a.evidence)(log[i]);
    var found := FindFirst(log, AcceptanceOf(phase, a.evidence)).value;
    AcceptanceIsListed(log, phase, found);
    assert AcceptanceAt(log, found) == a;
  }

  lemma {:induction false} ExecutionIsTimed(log: seq<Event>, i: nat)
    requires i < |log| && TransitionTo(EXECUTING)(log[i])
    ensures log[i].RecordedAt() in ExecutionTimes(log)
    decreases |log|
  {
    if i < |log| - 1 {
      ExecutionIsTimed(log[..|log| - 1], i);
    }
  }

  lemma {:induction false} TimedExecutionIsThere(log: seq<Event>) returns (i: nat)
    requires ExecutionTimes(log) != []
    ensures i < |log| && TransitionTo(EXECUTING)(log[i])
    decreases |log|
  {
    var n := |log| - 1;
    if TransitionTo(EXECUTING)(log[n]) {
      i := n;
    } else {
      i := TimedExecutionIsThere(log[..n]);
    }
  }

  lemma {:induction false} RecourseEventIsListed(log: seq<Event>, i: nat)
    requires i < |log| && IsRecourseEvent(log[i])
    ensures log[i] in RecourseEvents(log)
    decreases |log|
  {
    if i < |log| - 1 {
      RecourseEventIsListed(log[..|log| - 1], i);
    }
  }

  // Legal paths that settle.

  predicate FromExecutionOn(s: State) {
    s !in {PROPOSED, AUTHORIZED, DENIED, RECOURSE_RESERVED, PERMITTED, EXPIRED, REVOKED}
  }

  lemma {:induction false} ExecutionComesFirst(path: seq<State>)
    requires LegalPath(path) && FromExecutionOn(path[|path| - 1])
    ensures EXECUTING in path
    decreases |path|
  {
    var n := |path| - 1;
    if path[n] != EXECUTING {
      assert Allowed(path[n - 1], path[n]);
      ExecutionComesFirst(path[..n]);
    }
  }

  predicate RemedySide(s: State) {
    s in {BREACHED, REMEDY_DUE, REMEDIATING, REMEDY_UNKNOWN, REMEDY_VERIFYING, REMEDIATED, REMEDY_FAILED,
      REMEDY_INCONCLUSIVE, REVIEW_REQUIRED, CLOSED}
  }

  lemma {:induction false} BreachStaysOnRemedySide(path: seq<State>, i: nat, j: nat)
    requires LegalPath(path) && i <= j < |path| && path[i] == BREACHED
    ensures RemedySide(path[j])
    decreases j - i
  {
    if i < j {
      BreachStaysOnRemedySide(path, i, j - 1);
      assert Allowed(path[j - 1], path[j]);
    }
  }

  lemma SettledPathHasNoBreach(path: seq<State>)
    requires LegalPath(path) && |path| >= 2 && path[|path| - 2] == SATISFIED && path[|path| - 1] == CLOSED
    ensures BREACHED !in path
  {
    if BREACHED in path {
      var i :| 0 <= i < |path| && path[i] == BREACHED;
      BreachStaysOnRemedySide(path, i, |path| - 1);
      if i <= |path| - 2 {
        BreachStaysOnRemedySide(path, i, |path| - 2);
      }
    }
  }

  lemma LastMove(id: Id, log: seq<Event>)
    requires log != [] && Replay(id, log).Some? && log[|log| - 1].Payload().StateTransition?
    ensures var path := Replay(id, log).value;
            var init := log[..|log| - 1];
            && |path| >= 2
            && path[|path| - 1] == log[|log| - 1].Payload().to
            && path[|path| - 2] == LastState(init)
  {
    var init := log[..|log| - 1];
    assert Replay(id, init).Some?;
    ReplayReachesLastState(id, init);
  }

  /** A closed view replays to a complete path that passed its deciding state last. */
  lemma ClosedPath(cfg: Config, v: View)
    requires Replay(v.rec.actionId, v.log).Some? && v.rec.state == CLOSED
    requires v.log != [] && v.log[|v.log| - 1].Payload().StateTransition? && v.log[|v.log| - 1].Payload().to == CLOSED
    ensures var path := Replay(v.rec.actionId, v.log).value;
            && |path| >= 2
            && path[|path| - 1] == CLOSED
            && path[|path| - 2] == Deciding(v)
  {
    LastMove(v.rec.actionId, v.log);
  }

  // The stages of verifyBundle, for an audit export of a closed view.

  ghost predicate Exportable(cfg: Config, v: View) {
    && SoundSignatures(cfg.crypto)
    && Core(cfg, v) && Orderly(cfg, v)
    && v.rec.state == CLOSED
    && v.rec.receipt.Some? && v.rec.reservation.Some? && v.rec.permit.Some?
  }

  lemma ExportHasShape(cfg: Config, v: View, profile: Profile)
    requires v.rec.receipt.Some? && v.rec.reservation.Some? && v.rec.permit.Some?
    requires RecordOk(cfg, v.rec) && ClosedProperly(cfg, v)
    ensures ShapeOk(ExportBundle(cfg, v, profile))
  {
    assert ReservationGood(cfg, v.rec, v.rec.reservation.value);
    assert PermitGood(cfg, v.rec, v.rec.reservation.value, v.rec.permit.value);
  }

  lemma ExportSignaturesCheck(cfg: Config, v: View, profile: Profile)
    requires SoundSignatures(cfg.crypto)
    requires v.rec.receipt.Some? && v.rec.reservation.Some? && v.rec.permit.Some?
    requires RecordOk(cfg, v.rec) && ClosedProperly(cfg, v)
    requires forall e <- v.rec.evidence :: EvidenceGood(cfg, v.rec, e)
    ensures var checks := SignatureChecks(cfg.crypto, ExportBundle(cfg, v, profile), cfg.Keys(), cfg.connectorKeys);
            forall i :: 0 <= i < |checks| ==> checks[i] == SignatureGood
  {
    var c := cfg.crypto;
    var b := ExportBundle(cfg, v, profile);
    var checks := SignatureChecks(c, b, cfg.Keys(), cfg.connectorKeys);
    assert ReservationGood(cfg, v.rec, v.rec.reservation.value);
    assert PermitGood(cfg, v.rec, v.rec.reservation.value, v.rec.permit.value);
    OwnSignatureChecks(c, ReservationB(b.reservation.body), cfg.signer, cfg.Keys());
    OwnSignatureChecks(c, PermitB(b.permit.body), cfg.signer, cfg.Keys());
    OwnSignatureChecks(c, ReceiptB(b.receipt.body), cfg.signer, cfg.Keys());
    forall i | 0 <= i < |b.outcomeEvidence|
      ensures CheckSignature(c, EvidenceB(b.outcomeEvidence[i].body), b.outcomeEvidence[i].sig,
              cfg.Keys()) == SignatureGood
    {
      assert EvidenceGood(cfg, v.rec, b.outcomeEvidence[i]);
      OwnSignatureChecks(c, EvidenceB(b.outcomeEvidence[i].body), cfg.signer, cfg.Keys());
    }
  }

  lemma ExportBindings(cfg: Config, v: View, profile: Profile)
    requires v.rec.receipt.Some? && v.rec.reservation.Some? && v.rec.permit.Some?
    requires RecordOk(cfg, v.rec) && ClosedProperly(cfg, v) && LogSound(cfg, v.rec, v.log, v.clock)
    ensures BindingsOk(cfg.crypto, ExportBundle(cfg, v, profile))
  {
    hide ChainValid, CheckSignature, ReservationGood, Replay, LastState, EvidenceDigests, ProposalShape, OutcomeOf;
    assert PermitGood(cfg, v.rec, v.rec.reservation.value, v.rec.permit.value);
  }

  lemma ExportArtifactSemantics(cfg: Config, v: View)
    requires v.rec.receipt.Some? && v.rec.reservation.Some? && v.rec.permit.Some?
    requires RecordOk(cfg, v.rec) && TimesFit(v)
    ensures ArtifactSemantics(cfg.crypto, ExportBundle(cfg, v, AuditProfile), v.rec.proposal)
  {
    assert ReservationGood(cfg, v.rec, v.rec.reservation.value);
    assert PermitGood(cfg, v.rec, v.rec.reservation.value, v.rec.permit.value);
  }

  lemma DecidingComesAfterExecution(s: State)
    requires OutcomeOf(s).Some?
    ensures FromExecutionOn(s)
  {
  }

  lemma ReceiptSays(cfg: Config, rec: Record, log: seq<Event>, o: Outcome)
    requires CanSettle(rec, log)
    ensures var body := MakeReceipt(cfg, rec, log, o).body;
            && body.outcome == o
            && Some(body.recourseFinalStatus) == rec.recourseRecorded
            && body.postconditionSatisfied == (o != Disputed)
            && body.closedAt == log[|log| - 1].RecordedAt()
  {
  }

  lemma ExportReplays(cfg: Config, v: View)
    requires v.rec.receipt.Some? && v.rec.reservation.Some? && v.rec.permit.Some?
    requires LogAgrees(cfg, v) && v.rec.state == CLOSED && ClosedProperly(cfg, v)
    ensures var b := ExportBundle(cfg, v, AuditProfile);
            var states := CompleteReplay(b.events, b.action);
            && states.Some?
            && states == Replay(v.rec.actionId, v.log)
            && DeriveOutcome(states.value) == OutcomeOf(Deciding(v)) == Some(b.receipt.body.outcome)
            && b.receipt.body.postconditionSatisfied == (b.receipt.body.outcome != Disputed)
            && EXECUTING in states.value
            && multiset(states.value)[EXECUTING] == 1 == v.rec.permitUses
            && |states.value| >= 2 && states.value[|states.value| - 2] == Deciding(v)
  {
    hide Replay, LastState, MakeReceipt, RecordedAgrees, ChainValid, Deciding, DeriveOutcome, SettlementReason,
         EvidenceDigests;
    var path := Replay(v.rec.actionId, v.log).value;
    ClosedPath(cfg, v);
    OutcomeIsTheStateBeforeClosed(path);
    ReceiptSays(cfg, v.rec.(receipt := None), v.log, OutcomeOf(Deciding(v)).value);
    DecidingComesAfterExecution(Deciding(v));
    ExecutionComesFirst(path[..|path| - 1]);
    VisitedAtMostOnce(path, EXECUTING);
    assert Times(v.rec.actionId, v.log, EXECUTING) == multiset(path)[EXECUTING];
  }

  lemma ExportExecutionTime(cfg: Config, v: View)
    requires RecordedAgrees(cfg, v) && v.rec.permitUses == 1 && v.rec.permit.Some?
    ensures var found := FindFirst(v.log, TransitionTo(EXECUTING));
            && found.Some?
            && v.rec.permit.value.body.issuedAt <= v.log[found.value].RecordedAt() < v.rec.permit.value.body.expiresAt
  {
    var i := TimedExecutionIsThere(v.log);
    ExecutionIsTimed(v.log, FindFirst(v.log, TransitionTo(EXECUTING)).value);
  }

  lemma ExportEvidenceSemantics(cfg: Config, v: View, e: Evidence, phase: Phase)
    requires ChainValid(cfg.crypto, cfg.Keys(), v.log)
    requires v.rec.actionDigest == DigestProposal(cfg.crypto, v.rec.proposal)
             && PostconditionValid(v.rec.proposal.postcondition)
    requires EvidenceGood(cfg, v.rec, e) && AcceptedOnce(cfg, v, e, phase)
    ensures EvidenceSemantics(cfg.crypto, e, v.rec.proposal, v.log)
  {
    var a := Accepts(v.log, phase)[0];
    assert Accepts(v.log, phase) == [a];
    OnlyAcceptanceIsFound(v.log, phase, a);
    var found := FindFirst(v.log, AcceptanceOf(phase, a.evidence)).value;
    SequenceIsPosition(cfg.crypto, cfg.Keys(), v.log, found);
  }

  lemma ExportEvidence(cfg: Config, v: View)
    requires ChainValid(cfg.crypto, cfg.Keys(), v.log)
    requires v.rec.actionDigest == DigestProposal(cfg.crypto, v.rec.proposal)
             && PostconditionValid(v.rec.proposal.postcondition)
    requires AcceptancesMatch(cfg, v) && forall e <- v.rec.evidence :: EvidenceGood(cfg, v.rec, e)
    ensures forall e <- v.rec.evidence :: EvidenceSemantics(cfg.crypto, e, v.rec.proposal, v.log)
  {
    forall e | e in v.rec.evidence
      ensures EvidenceSemantics(cfg.crypto, e, v.rec.proposal, v.log)
    {
      var i :| 0 <= i < |v.rec.evidence| && v.rec.evidence[i] == e;
      ExportEvidenceSemantics(cfg, v, e, if i == 0 then Initial else PostRemedy);
    }
  }

  /** Held evidence, seen as the bundle's evidence. */
  lemma HeldEvidenceSpeaks(cfg: Config, v: View, b: Bundle, i: nat)
    requires b.outcomeEvidence == v.rec.evidence && i < |v.rec.evidence|
    requires EvidenceGood(cfg, v.rec, v.rec.evidence[i])
    ensures SomeEvidence(b, v.rec.proposal, v.rec.evidence[i].body.phase, v.rec.evidence[i].body.evaluation.satisfied)
  {
    assert v.rec.evidence[i] in b.outcomeEvidence;
  }

  lemma ExportEvidenceSupports(cfg: Config, v: View, b: Bundle, path: seq<State>)
    requires b.outcomeEvidence == v.rec.evidence
    requires forall e <- v.rec.evidence :: EvidenceGood(cfg, v.rec, e)
    requires LegalPath(path) && |path| >= 2 && path[|path| - 1] == CLOSED
    requires OutcomeOf(path[|path| - 2]) == Some(b.receipt.body.outcome)
    requires EvidenceFits(path[|path| - 2], v.rec.evidence)
    ensures EvidenceSupportsOutcome(b, v.rec.proposal, path)
  {
    assert path[|path| - 2] in path;
    match b.receipt.body.outcome {
      case Settled =>
        HeldEvidenceSpeaks(cfg, v, b, 0);
        SettledPathHasNoBreach(path);
      case Compensated =>
        HeldEvidenceSpeaks(cfg, v, b, 0);
        HeldEvidenceSpeaks(cfg, v, b, 1);
      case Disputed =>
    }
  }

  lemma ExportRecourse(cfg: Config, v: View)
    requires v.rec.receipt.Some? && v.rec.reservation.Some? && v.rec.permit.Some?
    requires ChainValid(cfg.crypto, cfg.Keys(), v.log) && RecordedAgrees(cfg, v)
    requires v.rec.state == CLOSED && ClosedProperly(cfg, v)
    ensures RecourseSemantics(cfg.crypto, ExportBundle(cfg, v, AuditProfile))
  {
    hide MakeReceipt, AcceptedDigests, ExecutionTimes, Moved, SettlementReason, EvidenceDigests, RecourseEvents,
         StateBefore, Deciding, ChainValid, LastState;
    ReceiptSays(cfg, v.rec.(receipt := None), v.log, OutcomeOf(Deciding(v)).value);
    OneRecourseEvent(cfg, v);
    DecidedBeforeRecourse(cfg, v);
  }

  /** The recourse event stands directly before CLOSED, and there is no other. */
  lemma OneRecourseEvent(cfg: Config, v: View)
    requires RecordedAgrees(cfg, v) && v.rec.recourseRecorded.Some?
    requires |v.log| >= 2 && IsRecourseEvent(v.log[|v.log| - 2])
    ensures RecourseEvents(v.log) == [v.log[|v.log| - 2]]
    ensures v.log[|v.log| - 2].Payload() == RecoursePayloadOf(cfg, v.rec, v.log[|v.log| - 2])
  {
    hide AcceptedDigests, ExecutionTimes, EvidenceDigests, RecourseEvents, RecoursePayloadOf;
    RecourseEventIsListed(v.log, |v.log| - 2);
  }

  lemma DecidedBeforeRecourse(cfg: Config, v: View)
    requires ChainValid(cfg.crypto, cfg.Keys(), v.log) && v.rec.state == CLOSED
    requires |v.log| >= 2 && IsRecourseEvent(v.log[|v.log| - 2])
    ensures StateBefore(v.log, v.log[|v.log| - 2].signed.body.sequence) == Some(Deciding(v))
  {
    hide ChainValid;
    var n := |v.log|;
    SequenceIsPosition(cfg.crypto, cfg.Keys(), v.log, n - 2);
    assert v.log[..n - 1][..n - 2] == v.log[..n - 2];
    assert LastState(v.log[..n - 1]) == LastState(v.log[..n - 2]);
  }

  lemma ExportLifecycle(cfg: Config, v: View)
    requires Exportable(cfg, v)
    ensures var b := ExportBundle(cfg, v, AuditProfile);
            var states := CompleteReplay(b.events, b.action);
            states.Some? && LifecycleSemantics(cfg.crypto, b, states.value)
              && EvidenceSupportsOutcome(b, v.rec.proposal, states.value)
  {
    hide EvidenceSupportsOutcome, CompleteReplay, Replay, LastState, Deciding, DeriveOutcome, MakeReceipt, EvidenceFits,
         EvidenceGood, RecordOk, CallsOk, ChainValid, AcceptedOnce, RecordedAgrees, FindFirst, ClosedProperly, Times,
         SoundSignatures;
    ExportReplays(cfg, v);
    ExportExecutionTime(cfg, v);
    ExportEvidenceSupports(cfg, v, ExportBundle(cfg, v, AuditProfile), Replay(v.rec.actionId, v.log).value);
  }

  lemma ExportSemantics(cfg: Config, v: View)
    requires Exportable(cfg, v)
    ensures SemanticsOk(cfg.crypto, ExportBundle(cfg, v, AuditProfile))
  {
    hide LifecycleSemantics, EvidenceSupportsOutcome, EvidenceSemantics, ArtifactSemantics, RecourseSemantics,
         CompleteReplay, MakeReceipt, ReservationGood, PermitGood, ChainValid, Covered, CallsOk;
    ExportArtifactSemantics(cfg, v);
    ExportLifecycle(cfg, v);
    ExportEvidence(cfg, v);
    ExportRecourse(cfg, v);
  }

  /** Whatever the rail exports about a closed action verifies: the audit profile with full
      lifecycle semantics, the receipt profile with all integrity bindings. */
  lemma ExportVerifies(cfg: Config, v: View)
    requires Exportable(cfg, v)
    ensures VerifyBundle(cfg.crypto, ExportBundle(cfg, v, AuditProfile), cfg.Keys(), cfg.connectorKeys, true).Ok?
    ensures VerifyBundle(cfg.crypto, ExportBundle(cfg, v, ReceiptProfile), cfg.Keys(), cfg.connectorKeys, false).Ok?
  {
    ExportSemantics(cfg, v);
    ExportIntegrity(cfg, v, AuditProfile);
    ExportIntegrity(cfg, v, ReceiptProfile);
    AcceptedExactly(cfg.crypto, ExportBundle(cfg, v, AuditProfile), cfg.Keys(), cfg.connectorKeys, true);
    AcceptedExactly(cfg.crypto, ExportBundle(cfg, v, ReceiptProfile), cfg.Keys(), cfg.connectorKeys, false);
  }

  lemma ExportIntegrity(cfg: Config, v: View, profile: Profile)
    requires Exportable(cfg, v)
    ensures var b := ExportBundle(cfg, v, profile);
            var checks := SignatureChecks(cfg.crypto, b, cfg.Keys(), cfg.connectorKeys);
            && ShapeOk(b)
            && ChainValid(cfg.crypto, cfg.Keys(), b.events)
            && (forall i :: 0 <= i < |checks| ==> checks[i] == SignatureGood)
            && BindingsOk(cfg.crypto, b)
  {
    ExportHasShape(cfg, v, profile);
    ExportSignaturesCheck(cfg, v, profile);
    ExportBindings(cfg, v, profile);
  }

  lemma ClosedIsExportable(cfg: Config, v: View)
    requires SoundSignatures(cfg.crypto)
    requires Core(cfg, v) && Orderly(cfg, v) && v.rec.receipt.Some?
    ensures Exportable(cfg, v)
  {
  }

  ghost predicate ExportAccepted(cfg: Config, v: View) {
    && v.rec.receipt.Some? && v.rec.reservation.Some? && v.rec.permit.Some?
    && VerifyBundle(cfg.crypto, ExportBundle(cfg, v, AuditProfile), cfg.Keys(), cfg.connectorKeys, true).Ok?
    && VerifyBundle(cfg.crypto, ExportBundle(cfg, v, ReceiptProfile), cfg.Keys(), cfg.connectorKeys, false).Ok?
  }

  lemma ClosedExportsAreAccepted(cfg: Config, v: View)
    requires SoundSignatures(cfg.crypto)
    requires Core(cfg, v) && Orderly(cfg, v) && v.rec.receipt.Some?
    ensures ExportAccepted(cfg, v)
  {
    ClosedIsExportable(cfg, v);
    ExportVerifies(cfg, v);
  }

  /** Producer and verifier agree: in every truthful run in which no observation comes behind a
      decision, however calls overlap otherwise, over any connector replies and any refused
      appends, an action that has a receipt exports bundles the verifier accepts, the audit
      profile with full lifecycle semantics. */
  lemma ProducerVerifierAgree(cfg: Config, p: Proposal, start: Time, turns: seq<Turn>, views: seq<View>, i: nat)
    requires SoundSignatures(cfg.crypto)
    requires Run(cfg, p, start, turns, views) && RegularRun(turns, views) && i <= |turns|
    requires views[i].rec.receipt.Some?
    ensures ExportAccepted(cfg, views[i])
  {
    RunsAreGood(cfg, p, start, turns, views, i, true);
    ClosedExportsAreAccepted(cfg, views[i]);
  }
}
