/** The orchestrator itself (src/rail-class.js): one object that holds every action's record and
    updates it in place behind each durable append.

    Each lifecycle call is a method; an async call is two, before and after its await. A method
    promises which steps of the call's plan it performed: all of them, unless the store refused
    an append, and then exactly those before the refusal. */
module ConsequenceRails {
  import opened RailStates
  import opened Artifacts
  import opened EventStore
  import opened Verify
  import opened Recovery
  import opened RailModel
  import opened RailInvariant
  import opened RailRuns
  import opened RailTheorems

  /** The suspended calls of an action and the connector calls it has made so far. */
  datatype Traffic = Traffic(pending: multiset<Token>, executeCalls: seq<ExecuteCall>,
    remediateCalls: seq<RemediateCall>)

  datatype TransitionResult = Done | IllegalTransition | StoreRefused
  datatype CallResult = ActionNotFound | Finished | Refused
  datatype ProposeResult = CapacityReached | ProposalInvalid | ActionExists | EventRefused | Registered

  function Aged(views: map<Id, View>, now: Time): map<Id, View> {
    map id <- views :: views[id].(clock := now)
  }

  /** `done` is what a plan comes to: all of it, or a beginning of it when the store refused. */
  predicate Performed(plan: seq<Step>, done: seq<Step>, refused: bool) {
    done <= plan && (!refused ==> done == plan)
  }

  class ConsequenceRail {
    const cfg: Config
    const eventStore: MemoryEventStore
    const maxActions: nat
    var actions: map<Id, Record>
    /** The latest time read from the clock. */
    var clock: Time
    ghost var traffic: map<Id, Traffic>

    constructor (cfg: Config, maxActions: nat, start: Time)
      requires SoundSignatures(cfg.crypto)
      ensures Valid() && fresh(eventStore)
      ensures this.cfg == cfg && this.maxActions == maxActions && actions == map[] && clock == start
    {
      this.cfg := cfg;
      this.maxActions := maxActions;
      eventStore := new MemoryEventStore(cfg.crypto, cfg.signer);
      actions := map[];
      clock := start;
      traffic := map[];
    }

    ghost function ViewOf(id: Id): View
      requires id in actions && id in traffic
      reads this, eventStore
    {
      View(actions[id], eventStore.List(id), traffic[id].pending, traffic[id].executeCalls, traffic[id].remediateCalls,
        clock)
    }

    ghost function Views(): map<Id, View>
      requires actions.Keys == traffic.Keys
      reads this, eventStore
    {
      map id <- actions :: ViewOf(id)
    }

    /** Everything the rail holds about the actions other than `id`. */
    ghost function Rest(id: Id): map<Id, View>
      requires actions.Keys == traffic.Keys
      reads this, eventStore
    {
      map other | other in actions && other != id :: ViewOf(other)
    }

    ghost predicate WellFormed()
      reads this, eventStore
    {
      && eventStore.crypto == cfg.crypto && eventStore.signer == cfg.signer
      && actions.Keys == traffic.Keys
      && eventStore.byAction.Keys <= actions.Keys
      && forall id <- actions :: actions[id].actionId == id
    }

    ghost predicate Valid()
      reads this, eventStore
    {
      && SoundSignatures(cfg.crypto)
      && WellFormed()
      && AllCore(cfg, Views())
    }

    /** The action's view is `v`. */
    ghost predicate At(id: Id, v: View)
      reads this, eventStore
    {
      WellFormed() && id in actions && ViewOf(id) == v
    }

    /** `id` has gone on to `v`, and no other action is touched. */
    twostate predicate Became(id: Id, v: View)
      requires old(WellFormed())
      reads this, eventStore
    {
      At(id, v) && Rest(id) == old(Rest(id))
    }

    // ----- The parts every call is made of -----

    /** eventStore.append for one action: one event becomes visible, or nothing changes. */
    method Append(id: Id, actor: string, payload: Payload) returns (ok: bool)
      requires WellFormed() && id in actions
      modifies eventStore
      ensures WellFormed() && Rest(id) == old(Rest(id))
      ensures ok ==> eventStore.List(id) == old(eventStore.List(id)) +
                       [NextEvent(cfg.crypto, cfg.signer, old(eventStore.List(id)), id, actor, clock, payload)]
      ensures !ok ==> eventStore.byAction == old(eventStore.byAction)
    {
      ok := eventStore.TryAppend(id, actor, clock, payload);
    }

    /** transition(): refuse an illegal move, append, then set the state. */
    method Transition(id: Id, to: State, reason: string, details: Details) returns (r: TransitionResult)
      requires WellFormed() && id in actions
      modifies this`actions, eventStore
      ensures WellFormed() && id in actions && Rest(id) == old(Rest(id))
      ensures r == IllegalTransition <==> !Allowed(old(actions[id].state), to)
      ensures r == Done ==> actions[id] == old(actions[id]).(state := to)
      ensures r == Done ==>
                var payload := Moved(cfg.crypto, old(actions[id].state), to, reason, details);
                eventStore.List(id) ==
                  old(eventStore.List(id)) + [NextEvent(cfg.crypto, cfg.signer, old(eventStore.List(id)), id, "rail",
                    clock, payload)]
      ensures r != Done ==> actions == old(actions) && eventStore.byAction == old(eventStore.byAction)
    {
      hide NextEvent, Moved;
      var previousState := actions[id].state;
      if !Allowed(previousState, to) {
        return IllegalTransition;
      }
      var ok := Append(id, "rail", Moved(cfg.crypto, previousState, to, reason, details));
      if !ok {
        return StoreRefused;
      }
      actions := actions[id := actions[id].(state := to)];
      return Done;
    }

    /** The counter that goes with entering a state. */
    method Count(id: Id, entered: State)
      requires WellFormed() && id in actions
      modifies this`actions
      ensures WellFormed() && id in actions && Rest(id) == old(Rest(id))
      ensures var rec := old(actions[id]);
              actions[id] == rec.(permitUses := if entered == EXECUTING then rec.permitUses + 1 else rec.permitUses,
                                  remedyAttempts := if entered == REMEDIATING then rec.remedyAttempts + 1
                                    else rec.remedyAttempts)
    {
      var rec := actions[id];
      if entered == EXECUTING {
        actions := actions[id := rec.(permitUses := rec.permitUses + 1)];
      } else if entered == REMEDIATING {
        actions := actions[id := rec.(remedyAttempts := rec.remedyAttempts + 1)];
      }
    }

    /** A transition together with its counter. */
    method MoveTo(id: Id, to: State, reason: string, details: Details, ghost v: View) returns (r: TransitionResult)
      requires At(id, v)
      modifies this`actions, eventStore
      ensures Became(id, if r == Done then Apply(cfg, v, Move(to, reason, details)) else v)
      ensures r == IllegalTransition <==> !Allowed(v.rec.state, to)
    {
      hide Apply;
      r := Transition(id, to, reason, details);
      if r == Done {
        Count(id, to);
        MoveIsApply(cfg, v, ViewOf(id), to, reason, details);
      }
    }

    method FinalizeRecourse(id: Id, release: bool, reason: string, a: Answers, ghost v: View)
      returns (final: Finalized, refused: bool, ghost done: seq<Step>)
      requires At(id, v)
      modifies this`actions, eventStore
      ensures Performed(FinalizePlan(v, release, reason, a), done, refused) && Became(id, ApplyAll(cfg, v, done))
      ensures !refused ==> final == FinalizeResult(v, release, a)
    {
      hide Apply, RecoursePayload;
      refused, done := false, [];
      var rec := actions[id];
      if rec.reservation.None? {
        return NoReservation, false, [];
      }
      if rec.recourseRecorded.Some? {
        return FinalStatus(rec.recourseRecorded.value), false, [];
      }
      if release && !a.releaseOk {
        return FinalizeThrew, false, [];
      }
      match ReadStatus(rec, a.final) {
        case None => return FinalizeThrew, false, [];
        case Some(status) =>
          var ok := RecordRecourse(id, status, reason, v);
          if !ok {
            return FinalizeThrew, true, [];
          }
          ApplySingle(cfg, v, RecordedRecourse(status, reason));
          return FinalStatus(status), false, [RecordedRecourse(status, reason)];
      }
    }

    /** The event first; only then the record. */
    method RecordRecourse(id: Id, status: RecourseStatus, reason: string, ghost v: View) returns (ok: bool)
      requires At(id, v)
      modifies this`actions, eventStore
      ensures Became(id, if ok then Apply(cfg, v, RecordedRecourse(status, reason)) else v)
    {
      hide Apply, RecoursePayload, NextEvent, WellFormed;
      ok := Append(id, "connector", RecoursePayload(cfg.crypto, actions[id], status, reason));
      if ok {
        Amend(id, actions[id].(recourseRecorded := Some(status)));
        StepIsApply(cfg, v, ViewOf(id), RecordedRecourse(status, reason));
      }
    }

    method Issue(id: Id, events: seq<Event>, outcome: Outcome)
      requires WellFormed() && id in actions
      modifies this`actions
      ensures WellFormed() && id in actions && Rest(id) == old(Rest(id))
      ensures var rec := old(actions[id]);
              actions[id] == if CanSettle(rec, events)
                then rec.(receipt := Some(MakeReceipt(cfg, rec, events, outcome))) else rec
    {
      var rec := actions[id];
      if CanSettle(rec, events) {
        Amend(id, rec.(receipt := Some(MakeReceipt(cfg, rec, events, outcome))));
      }
    }

    /** The end of close(): the CLOSED transition, then the signed receipt. */
    method Settle(id: Id, outcome: Outcome, ghost v: View) returns (refused: bool)
      requires At(id, v) && Allowed(v.rec.state, CLOSED)
      modifies this`actions, eventStore
      ensures Became(id, if refused then v else Apply(cfg, v, Settles(outcome)))
    {
      var r := Transition(id, CLOSED, SettlementReason(outcome), OutcomeDetails(outcome));
      refused := r == StoreRefused;
      if r == Done {
        var events := eventStore.List(id);
        Issue(id, events, outcome);
        SettleIsApply(cfg, v, ViewOf(id), outcome);
      }
    }

    method Close(id: Id, a: Answers, ghost v: View) returns (refused: bool, ghost done: seq<Step>)
      requires At(id, v)
      modifies this`actions, eventStore
      ensures Performed(ClosePlan(v, a), done, refused) && Became(id, ApplyAll(cfg, v, done))
    {
      match OutcomeOf(actions[id].state) {
        case None => return false, [];
        case Some(outcome) =>
          var final;
          final, refused, done := FinalizeRecourse(id, outcome != Disputed, SettlementReason(outcome), a, v);
          ClosePlanShape(v, a);
          if refused || !final.FinalStatus? || final.status == StatusUnknown {
            return;
          }
          ghost var w := ApplyAll(cfg, v, done);
          FinalizeKeepsState(cfg, v, outcome != Disputed, SettlementReason(outcome), a);
          refused := Settle(id, outcome, w);
          if !refused {
            ApplyOne(cfg, v, done, Settles(outcome));
            done := done + [Settles(outcome)];
          }
      }
    }

    /** A transition to a state that closes, then close(). */
    method MoveAndCloseIt(id: Id, to: State, reason: string, details: Details, a: Answers, ghost v: View)
      returns (refused: bool, ghost done: seq<Step>)
      requires At(id, v)
      modifies this`actions, eventStore
      ensures Performed(MoveAndClose(cfg, v, to, reason, details, a), done, refused)
              && Became(id, ApplyAll(cfg, v, done))
    {
      var r := MoveTo(id, to, reason, details, v);
      if r != Done {
        return r == StoreRefused, [];
      }
      refused, done := Close(id, a, Apply(cfg, v, Move(to, reason, details)));
      done := MoveAndCloseDone(cfg, v, to, reason, details, a, done, refused);
    }

    /** A transition to a state that only finalizes the recourse. */
    method MoveAndFinalizeIt(id: Id, to: State, reason: string, details: Details, a: Answers, ghost v: View)
      returns (refused: bool, ghost done: seq<Step>)
      requires At(id, v)
      modifies this`actions, eventStore
      ensures Performed(MoveAndFinalize(cfg, v, to, reason, details, a), done, refused)
              && Became(id, ApplyAll(cfg, v, done))
    {
      var r := MoveTo(id, to, reason, details, v);
      if r != Done {
        return r == StoreRefused, [];
      }
      var final;
      final, refused, done := FinalizeRecourse(id, true, reason, a, Apply(cfg, v, Move(to, reason, details)));
      done := MoveAndFinalizeDone(cfg, v, to, reason, details, a, done, refused);
    }

    /** Sets one record in place. */
    method Amend(id: Id, rec: Record)
      requires WellFormed() && id in actions && rec.actionId == id
      modifies this`actions
      ensures WellFormed() && id in actions && actions[id] == rec && Rest(id) == old(Rest(id))
    {
      actions := actions[id := rec];
    }

    // ----- The lifecycle calls up to execution -----

    method Authorize(id: Id, d: Decision, ghost v: View) returns (refused: bool, ghost done: seq<Step>)
      requires At(id, v)
      modifies this`actions, eventStore
      ensures Performed(PlanAuthorize(cfg, v, d), done, refused) && Became(id, ApplyAll(cfg, v, done))
    {
      hide Apply, NextEvent, Moved, StepEvent, Mutate, Allowed;
      if actions[id].state != PROPOSED {
        return false, [];
      }
      var authorization := Authorization(d.allow, d.policyId, d.policyDigest, cfg.requirePreflight
        || d.requirePreflight, clock);
      var r := Transition(id, if d.allow then AUTHORIZED else DENIED, if d.allow then "POLICY_ALLOWED"
        else "POLICY_DENIED",
                          PolicyDetails(d.policyId, d.policyDigest));
      if r != Done {
        return true, [];
      }
      Amend(id, actions[id].(authorization := Some(authorization)));
      AuthorizationIsApply(cfg, v, ViewOf(id), authorization);
      ApplySingle(cfg, v, Authorized(authorization));
      return false, [Authorized(authorization)];
    }

    method ReserveRecourse(id: Id, r: RecourseRequest, caps: Option<Capabilities>, m: Option<Commitment>, ghost v: View)
      returns (refused: bool, ghost done: seq<Step>)
      requires At(id, v)
      modifies this`actions, eventStore
      ensures Performed(PlanReserve(cfg, v, r, caps, m), done, refused) && Became(id, ApplyAll(cfg, v, done))
    {
      hide Apply, RequestValid, CommitmentMatches, CheckSignature, MakeReservation;
      var rec := actions[id];
      if rec.state != AUTHORIZED || rec.proposal.mode == Observed || !RequestValid(rec, r, caps, clock) {
        return false, [];
      }
      if m.None? || CheckSignature(cfg.crypto, CommitmentB(m.value.body), m.value.sig,
        cfg.connectorKeys) != SignatureGood
        || !CommitmentMatches(r, m.value.body) {
        return false, [];
      }
      refused := KeepReservation(id, MakeReservation(cfg, r, m.value, clock), r.idempotencyKey, v);
      if refused {
        return true, [];
      }
      ApplySingle(cfg, v, Reserved(MakeReservation(cfg, r, m.value, clock), r.idempotencyKey));
      return false, [Reserved(MakeReservation(cfg, r, m.value, clock), r.idempotencyKey)];
    }

    /** The transition first; only then the record. */
    method KeepReservation(id: Id, reservation: Reservation, key: string, ghost v: View) returns (refused: bool)
      requires At(id, v) && v.rec.state == AUTHORIZED
      modifies this`actions, eventStore
      ensures Became(id, if refused then v else Apply(cfg, v, Reserved(reservation, key)))
    {
      hide Apply, NextEvent, DigestReservation, DigestCommitment, Moved, StepEvent, Mutate;
      var result := Transition(id, RECOURSE_RESERVED, "RECOURSE_VERIFIED",
        ReservationDetails(DigestReservation(cfg.crypto, reservation), reservation.body.kind,
          reservation.body.capability, DigestCommitment(cfg.crypto, reservation.body.commitment)));
      if result != Done {
        return true;
      }
      Amend(id, actions[id].(reservation := Some(reservation), remedyKey := key));
      ReservationIsApply(cfg, v, ViewOf(id), reservation, key);
      return false;
    }

    method AcceptRecoveryQualification(id: Id, b: DrillBundle, measured: Option<Digest>, ghost v: View)
      returns (refused: bool, ghost done: seq<Step>)
      requires At(id, v)
      modifies this`actions, eventStore
      ensures Performed(PlanAcceptPreflight(cfg, v, b, measured), done, refused) && Became(id, ApplyAll(cfg, v, done))
    {
      var rec := actions[id];
      if rec.state != RECOURSE_RESERVED || rec.reservation.None? {
        return false, [];
      }
      match VerifyPreflight(cfg.crypto, b, cfg.recoveryKeys, Some(clock)) {
        case Err(_) => return false, [];
        case Ok(verification) =>
          if verification.qualification != QualifiedExact || !CoversAction(cfg.crypto, rec, b.contract)
            || !RecoveryBound(cfg, rec.reservation.value, b.contract, measured) {
            return false, [];
          }
          refused, done := RecordPreflight(id, b, verification, v);
      }
    }

    /** The event first; only then the record. */
    method RecordPreflight(id: Id, b: DrillBundle, verification: DrillVerification, ghost v: View)
      returns (refused: bool, ghost done: seq<Step>)
      requires At(id, v)
      modifies this`actions, eventStore
      ensures Performed([AcceptedPreflight(b, verification)], done, refused) && Became(id, ApplyAll(cfg, v, done))
    {
      var ok := Append(id, "recovery-preflight",
        RecoveryPreflightAccepted(verification.attestationDigest, verification.coverageDigest, verification.expiresAt));
      if !ok {
        return true, [];
      }
      Amend(id, actions[id].(preflight := Some(b)));
      StepIsApply(cfg, v, ViewOf(id), AcceptedPreflight(b, verification));
      ApplySingle(cfg, v, AcceptedPreflight(b, verification));
      return false, [AcceptedPreflight(b, verification)];
    }

    method IssuePermit(id: Id, caps: Option<Capabilities>, a: Answers, measured: Option<Digest>, ghost v: View)
      returns (refused: bool, ghost done: seq<Step>)
      requires At(id, v)
      modifies this`actions, eventStore
      ensures Performed(PlanIssuePermit(cfg, v, caps, a, measured), done, refused) && Became(id, ApplyAll(cfg, v, done))
    {
      hide Apply, FinalizePlan, PreflightHolds, MakePermit, DigestAttestation;
      var rec := actions[id];
      if rec.state != RECOURSE_RESERVED || rec.reservation.None? || rec.authorization.None? {
        return false, [];
      }
      var reservation := rec.reservation.value;
      if rec.proposal.expiresAt <= clock {
        refused, done := MoveAndFinalizeIt(id, EXPIRED, "ACTION_EXPIRED", NoDetails, a, v);
        return;
      }
      if reservation.body.expiresAt <= clock {
        refused, done := MoveAndFinalizeIt(id, EXPIRED, "RECOURSE_EXPIRED", NoDetails, a, v);
        return;
      }
      if caps.None? || (rec.proposal.mode == Enforced && !caps.value.exclusiveCustody) {
        return false, [];
      }
      match ReadStatus(rec, a.probe) {
        case None => return false, [];
        case Some(status) =>
          if status != StatusActive {
            refused, done := MoveAndFinalizeIt(id, REVOKED, "CONNECTOR_RECOURSE_NOT_ACTIVE", StatusDetails(status), a,
              v);
            return;
          }
          if rec.authorization.value.requirePreflight
            && (rec.preflight.None? || !PreflightHolds(cfg, reservation, rec.preflight.value, Some(clock), measured)) {
            return false, [];
          }
          refused, done := GrantPermit(id, reservation, v);
      }
    }

    /** The permit itself: signed, recorded in the log, then kept. */
    method GrantPermit(id: Id, reservation: Reservation, ghost v: View) returns (refused: bool, ghost done: seq<Step>)
      requires At(id, v) && v.rec.state == RECOURSE_RESERVED && v.rec.authorization.Some?
      modifies this`actions, eventStore
      ensures var attestation := PermittedAttestation(cfg.crypto, v.rec);
              Performed([Permitted(MakePermit(cfg, v.rec, reservation, v.clock), attestation)], done, refused)
      ensures Became(id, ApplyAll(cfg, v, done))
    {
      hide Apply, MakePermit, DigestAttestation;
      var rec := actions[id];
      var permit := MakePermit(cfg, rec, reservation, clock);
      var attestation := if rec.authorization.value.requirePreflight && rec.preflight.Some?
        then Some(DigestAttestation(cfg.crypto, rec.preflight.value.attestation)) else None;
      refused := KeepPermit(id, permit, attestation, v);
      if refused {
        return true, [];
      }
      ApplySingle(cfg, v, Permitted(permit, attestation));
      return false, [Permitted(permit, attestation)];
    }

    method KeepPermit(id: Id, permit: Permit, attestation: Option<Digest>, ghost v: View) returns (refused: bool)
      requires At(id, v) && v.rec.state == RECOURSE_RESERVED
      modifies this`actions, eventStore
      ensures Became(id, if refused then v else Apply(cfg, v, Permitted(permit, attestation)))
    {
      hide Apply, NextEvent, DigestPermit, Moved, StepEvent, Mutate, Allowed;
      var r := Transition(id, PERMITTED, "PERMIT_ISSUED",
        PermitDetails(DigestPermit(cfg.crypto, permit), permit.body.mode, permit.body.bypassPossible, attestation));
      if r != Done {
        return true;
      }
      Amend(id, actions[id].(permit := Some(permit)));
      PermitIsApply(cfg, v, ViewOf(id), permit, attestation);
      return false;
    }

    // ----- Execution -----

    /** A connector call leaves; its reply is awaited. */
    ghost method Leave(id: Id, call: Step, v: View)
      requires At(id, v) && (call.CallsExecute? || call.CallsRemediate? || call.Calls?)
      modifies this`traffic
      ensures Became(id, Apply(cfg, v, call))
    {
      hide Apply;
      var w := Apply(cfg, v, call);
      CallIsTraffic(cfg, v, call);
      traffic := traffic[id := Traffic(w.pending, w.executeCalls, w.remediateCalls)];
    }

    /** A transition, then a connector call. */
    method MoveAndCall(id: Id, to: State, reason: string, details: Details, ghost call: Step, ghost v: View)
      returns (refused: bool, ghost done: seq<Step>)
      requires At(id, v) && (call.CallsExecute? || call.CallsRemediate? || call.Calls?)
      modifies this`actions, this`traffic, eventStore
      ensures Performed(MoveThen(v, to, reason, details, [call]), done, refused) && Became(id, ApplyAll(cfg, v, done))
    {
      var r := MoveTo(id, to, reason, details, v);
      if r != Done {
        return r == StoreRefused, [];
      }
      ghost var w := Apply(cfg, v, Move(to, reason, details));
      Leave(id, call, w);
      ApplySingle(cfg, w, call);
      done := StepThen(cfg, v, Move(to, reason, details), [call], [call], false);
      return false, done;
    }

    /** A transition and nothing more. */
    method MoveOnly(id: Id, to: State, reason: string, details: Details, ghost v: View)
      returns (refused: bool, ghost done: seq<Step>)
      requires At(id, v)
      modifies this`actions, eventStore
      ensures Performed(MoveThen(v, to, reason, details, []), done, refused) && Became(id, ApplyAll(cfg, v, done))
    {
      var r := MoveTo(id, to, reason, details, v);
      if r != Done {
        return r == StoreRefused, [];
      }
      ApplySingle(cfg, v, Move(to, reason, details));
      return false, [Move(to, reason, details)];
    }

    /** execute() up to its await. */
    method Execute(id: Id, override: Option<Proposal>, a: Answers, measured: Option<Digest>, ghost v: View)
      returns (refused: bool, ghost done: seq<Step>)
      requires At(id, v)
      modifies this`actions, this`traffic, eventStore
      ensures Performed(PlanExecute(cfg, v, override, a, measured), done, refused) && Became(id, ApplyAll(cfg, v, done))
    {
      hide Apply, FinalizePlan, PreflightHolds, CheckSignature, DigestProposal, PlanConsume;
      var rec := actions[id];
      if rec.permitUses != 0 || rec.state != PERMITTED || rec.permit.None? || rec.reservation.None?
        || rec.authorization.None? {
        return false, [];
      }
      var permit := rec.permit.value;
      var reservation := rec.reservation.value;
      if permit.body.expiresAt <= clock {
        refused, done := MoveAndFinalizeIt(id, EXPIRED, "PERMIT_EXPIRED", NoDetails, a, v);
        return;
      }
      if reservation.body.expiresAt <= clock {
        refused, done := MoveAndFinalizeIt(id, EXPIRED, "RECOURSE_EXPIRED", NoDetails, a, v);
        return;
      }
      if CheckSignature(cfg.crypto, PermitB(permit.body), permit.sig, cfg.Keys()) != SignatureGood {
        return false, [];
      }
      if rec.preflight.Some? && !PreflightHolds(cfg, reservation, rec.preflight.value, Some(clock), measured) {
        return false, [];
      }
      var candidate := if override.Some? then override.value else rec.proposal;
      if DigestProposal(cfg.crypto, candidate) != rec.actionDigest {
        return false, [];
      }
      refused, done := ConsumePermit(id, candidate, a, measured, v);
    }

    /** The permit is used up in the log before connector.execute is called. */
    method ConsumePermit(id: Id, candidate: Proposal, a: Answers, measured: Option<Digest>, ghost v: View)
      returns (refused: bool, ghost done: seq<Step>)
      requires At(id, v) && v.rec.state == PERMITTED
      requires v.rec.permit.Some? && v.rec.reservation.Some? && v.rec.authorization.Some?
      modifies this`actions, this`traffic, eventStore
      ensures Performed(PlanConsume(cfg, v, candidate, a, measured), done, refused)
              && Became(id, ApplyAll(cfg, v, done))
    {
      hide Apply, MoveAndFinalize, DigestPermit, PlanConsume, MoveThen;
      ConsumptionPlans(cfg, v, candidate, a, measured);
      var rec := actions[id];
      match ReadStatus(rec, a.probe) {
        case None => return false, [];
        case Some(status) =>
          if status != StatusActive {
            refused, done := MoveAndFinalizeIt(id, REVOKED, "CONNECTOR_RECOURSE_NOT_ACTIVE", StatusDetails(status), a,
              v);
            return;
          }
          ghost var call := CallsExecute(ExecuteCall(clock, rec.proposal, rec.proposal.idempotencyKey, candidate,
            rec.permit.value,
            rec.reservation.value, status, rec.authorization.value, rec.preflight, measured));
          var details := UseDetails(DigestPermit(cfg.crypto, rec.permit.value), rec.permitUses + 1);
          refused, done := MoveAndCall(id, EXECUTING, "PERMIT_CONSUMED", details, call, v);
      }
    }

    /** The catch block of execute(). */
    method CatchExecution(id: Id, e: ErrorKind, a: Answers, ghost v: View)
      returns (refused: bool, ghost done: seq<Step>)
      requires At(id, v)
      modifies this`actions, eventStore
      ensures Performed(PlanExecuteFailure(cfg, v, e, a), done, refused) && Became(id, ApplyAll(cfg, v, done))
    {
      var reference := ReferenceDetails(DigestText(cfg.crypto, actions[id].proposal.idempotencyKey));
      if e != OtherFailure {
        refused, done := MoveAndFinalizeIt(id, FAILED, ErrorCode(e), reference, a, v);
      } else {
        refused, done := MoveOnly(id, UNKNOWN, "EXECUTION_AMBIGUOUS", reference, v);
      }
    }

    /** execute() behind its await. A store that refuses the EXECUTED event throws `storeError`
        inside the try block, so the call goes on in the catch block. */
    method ExecuteArrived(id: Id, reply: ConnectorReply, storeError: ErrorKind, a: Answers, ghost v: View)
      returns (refused: bool, ghost refusal: Option<ErrorKind>, ghost done: seq<Step>)
      requires At(id, v)
      modifies this`actions, eventStore
      ensures Performed(PlanExecuteReply(cfg, v, reply, refusal, a), done, refused)
              && Became(id, ApplyAll(cfg, v, done))
    {
      refusal := None;
      var rec := actions[id];
      if AcceptedStatus(reply, rec.proposal.idempotencyKey, EXECUTION_RESULTS).None? {
        refused, done := CatchExecution(id, if reply.Threw? then reply.error else OtherFailure, a, v);
        return;
      }
      var reference := ReplyReference(cfg.crypto, rec, reply);
      var r := MoveTo(id, EXECUTED, "CONNECTOR_EXECUTED", reference, v);
      if r == Done {
        ApplySingle(cfg, v, Move(EXECUTED, "CONNECTOR_EXECUTED", reference));
        return false, None, [Move(EXECUTED, "CONNECTOR_EXECUTED", reference)];
      }
      refusal := if r == StoreRefused then Some(storeError) else None;
      refused, done := CatchExecution(id, if r == StoreRefused then storeError else OtherFailure, a, v);
    }

    method Reconcile(id: Id, ghost v: View) returns (refused: bool, ghost done: seq<Step>)
      requires At(id, v)
      modifies this`traffic
      ensures Performed(PlanReconcile(v), done, refused) && Became(id, ApplyAll(cfg, v, done))
    {
      refused, done := false, [];
      if actions[id].state == UNKNOWN {
        Leave(id, Calls(StatusReply), v);
        ApplySingle(cfg, v, Calls(StatusReply));
        done := [Calls(StatusReply)];
      }
    }

    method StatusArrived(id: Id, reply: ConnectorReply, a: Answers, ghost v: View)
      returns (refused: bool, ghost done: seq<Step>)
      requires At(id, v)
      modifies this`actions, eventStore
      ensures Performed(PlanReconcileReply(cfg, v, reply, a), done, refused) && Became(id, ApplyAll(cfg, v, done))
    {
      var rec := actions[id];
      match AcceptedStatus(reply, rec.proposal.idempotencyKey, EXECUTION_STATUSES) {
        case None => return false, [];
        case Some(status) =>
          if status == Executed {
            refused, done := MoveOnly(id, EXECUTED, "STATUS_CONFIRMED_EXECUTED", ReplyReference(cfg.crypto, rec, reply),
              v);
          } else if status == NoEffect {
            refused, done := MoveAndFinalizeIt(id, FAILED, "STATUS_CONFIRMED_NO_EFFECT", KeyReference(cfg.crypto, rec),
              a, v);
          } else {
            refused, done := MoveAndCloseIt(id, REVIEW_REQUIRED, "STATUS_UNRESOLVED", NoDetails, a, v);
          }
      }
    }

    // ----- Evidence -----

    /** verifyOutcome() up to its await. */
    method VerifyOutcome(id: Id, ghost v: View) returns (refused: bool, ghost done: seq<Step>)
      requires At(id, v)
      modifies this`actions, this`traffic, eventStore
      ensures Performed(PlanVerifyOutcome(v), done, refused) && Became(id, ApplyAll(cfg, v, done))
    {
      if actions[id].state != EXECUTED {
        return false, [];
      }
      refused, done := MoveAndCall(id, VERIFYING, "OUTCOME_VERIFICATION_STARTED", NoDetails, Calls(ObserveReply), v);
    }

    /** Evidence that is refused or missing ends the action as inconclusive. */
    method RejectEvidence(id: Id, phase: Phase, code: string, a: Answers, ghost v: View)
      returns (refused: bool, ghost done: seq<Step>)
      requires At(id, v)
      modifies this`actions, eventStore
      ensures Performed(RejectionPlan(cfg, v, phase, code, a), done, refused) && Became(id, ApplyAll(cfg, v, done))
    {
      ghost var reject := RejectedEvidence(phase, code);
      var ok := Append(id, "rail", if phase == PostRemedy then RemedyEvidenceRejected(code)
        else EvidenceRejected(code));
      if !ok {
        return true, [];
      }
      StepIsApply(cfg, v, ViewOf(id), reject);
      ghost var w := Apply(cfg, v, reject);
      var to := if phase == PostRemedy then REMEDY_INCONCLUSIVE else INCONCLUSIVE;
      refused, done := MoveAndCloseIt(id, to, code, NoDetails, a, w);
      done := StepThen(cfg, v, reject, MoveAndClose(cfg, w, to, code, NoDetails, a), done, refused);
    }

    /** Accepted evidence: the event, then the record's list. */
    method KeepEvidence(id: Id, e: Evidence, ghost v: View) returns (ok: bool)
      requires At(id, v)
      modifies this`actions, eventStore
      ensures Became(id, if ok then Apply(cfg, v, AcceptedEvidence(e)) else v)
    {
      var satisfied := e.body.evaluation.satisfied;
      ok := Append(id, "rail", if e.body.phase == PostRemedy
        then RemedyEvidenceAccepted(DigestEvidence(cfg.crypto, e), satisfied)
        else EvidenceAccepted(DigestEvidence(cfg.crypto, e), satisfied));
      if ok {
        Amend(id, actions[id].(evidence := actions[id].evidence + [e]));
        StepIsApply(cfg, v, ViewOf(id), AcceptedEvidence(e));
      }
    }

    /** verifyOutcome() behind its await. */
    method OutcomeArrived(id: Id, o: Observation, a: Answers, ghost v: View)
      returns (refused: bool, ghost done: seq<Step>)
      requires At(id, v)
      modifies this`actions, eventStore
      ensures Performed(PlanObserved(cfg, v, o, a), done, refused) && Became(id, ApplyAll(cfg, v, done))
    {
      hide RejectionPlan, StepEvent, Apply, ApplyAll, DigestEvidence, Assess, MoveAndClose, Performed;
      match Assess(cfg, actions[id], clock, o, Initial) {
        case Unavailable => refused, done := RejectEvidence(id, Initial, "EVIDENCE_UNAVAILABLE", a, v);
        case RejectAs(code) => refused, done := RejectEvidence(id, Initial, code, a, v);
        case Accept(e) => refused, done := JudgeOutcome(id, e, a, v);
      }
    }

    method JudgeOutcome(id: Id, e: Evidence, a: Answers, ghost v: View) returns (refused: bool, ghost done: seq<Step>)
      requires At(id, v)
      modifies this`actions, eventStore
      ensures Performed([AcceptedEvidence(e)] + JudgementPlan(cfg, Apply(cfg, v, AcceptedEvidence(e)), e, a), done,
              refused)
      ensures Became(id, ApplyAll(cfg, v, done))
    {
      var ok := KeepEvidence(id, e, v);
      if !ok {
        return true, [];
      }
      ghost var w := Apply(cfg, v, AcceptedEvidence(e));
      var details := EvidenceDetails(DigestEvidence(cfg.crypto, e));
      if e.body.evaluation.satisfied {
        refused, done := MoveAndCloseIt(id, SATISFIED, "POSTCONDITION_SATISFIED", details, a, w);
      } else {
        refused, done := Breach(id, details, w);
      }
      done := StepThen(cfg, v, AcceptedEvidence(e), JudgementPlan(cfg, w, e, a), done, refused);
    }

    /** A breach makes the reserved remedy due at once. */
    method Breach(id: Id, details: Details, ghost v: View) returns (refused: bool, ghost done: seq<Step>)
      requires At(id, v)
      modifies this`actions, eventStore
      ensures Performed(MoveThen(v, BREACHED, "POSTCONDITION_BREACHED", details,
                          [Move(REMEDY_DUE, "RESERVED_REMEDY_DUE", ReservationReference(cfg.crypto, v.rec))]), done,
                            refused)
      ensures Became(id, ApplyAll(cfg, v, done))
    {
      var due := ReservationReference(cfg.crypto, actions[id]);
      var r := MoveTo(id, BREACHED, "POSTCONDITION_BREACHED", details, v);
      if r != Done {
        return r == StoreRefused, [];
      }
      refused, done := MoveOnly(id, REMEDY_DUE, "RESERVED_REMEDY_DUE", due,
        Apply(cfg, v, Move(BREACHED, "POSTCONDITION_BREACHED", details)));
      done := BreachDone(cfg, v, details, due, done, refused);
    }

    // ----- The remedy -----

    /** remediate() up to its await. */
    method Remediate(id: Id, a: Answers, measured: Option<Digest>, ghost v: View)
      returns (refused: bool, ghost done: seq<Step>)
      requires At(id, v)
      modifies this`actions, this`traffic, eventStore
      ensures Performed(PlanRemediate(cfg, v, a, measured), done, refused) && Became(id, ApplyAll(cfg, v, done))
    {
      hide PlanAttempt, ClosePlan, MoveThen, Apply, MoveAndClose, DigestReservation, ReadStatus, StepEvent;
      var rec := actions[id];
      if rec.state != REMEDY_DUE || rec.reservation.None? {
        return false, [];
      }
      var reservation := rec.reservation.value;
      if reservation.body.expiresAt <= clock {
        refused, done := MoveAndCloseIt(id, REVIEW_REQUIRED, "RECOURSE_EXPIRED", NoDetails, a, v);
        return;
      }
      match ReadStatus(rec, a.probe) {
        case None => return false, [];
        case Some(status) =>
          if status != StatusActive {
            refused, done := MoveAndCloseIt(id, REVIEW_REQUIRED, "RECOURSE_NOT_ACTIVE", StatusDetails(status), a, v);
            return;
          }
          if reservation.body.kind == Escalate {
            refused, done := MoveAndCloseIt(id, REVIEW_REQUIRED, "REMEDY_REQUIRES_CHILD_ACTION", KindDetails(Escalate),
              a, v);
            return;
          }
          refused, done := StartRemedy(id, measured, v);
      }
    }

    /** The attempt is counted in the log before connector.remediate is called. */
    method StartRemedy(id: Id, measured: Option<Digest>, ghost v: View) returns (refused: bool, ghost done: seq<Step>)
      requires At(id, v) && v.rec.state == REMEDY_DUE && v.rec.reservation.Some?
      modifies this`actions, this`traffic, eventStore
      ensures Performed(PlanAttempt(cfg, v, measured), done, refused) && Became(id, ApplyAll(cfg, v, done))
    {
      hide Apply, PreflightHolds, DigestReservation, MoveThen;
      var rec := actions[id];
      var reservation := rec.reservation.value;
      if rec.remedyAttempts >= reservation.body.maxAttempts {
        return false, [];
      }
      if rec.preflight.Some? && !PreflightHolds(cfg, reservation, rec.preflight.value, None, measured) {
        return false, [];
      }
      ghost var call := CallsRemediate(RemediateCall(clock, rec.proposal, reservation, rec.remedyKey));
      var details := AttemptDetails(rec.remedyAttempts + 1, DigestReservation(cfg.crypto, reservation));
      refused, done := MoveAndCall(id, REMEDIATING, "REMEDY_STARTED", details, call, v);
      AttemptIsMove(v, details, call);
    }

    static lemma AttemptIsMove(v: View, details: Details, call: Step)
      requires v.rec.state == REMEDY_DUE
      ensures MoveThen(v, REMEDIATING, "REMEDY_STARTED", details,
              [call]) == [Move(REMEDIATING, "REMEDY_STARTED", details), call]
    {
    }

    /** remediate() behind its first await. */
    method RemedyArrived(id: Id, reply: ConnectorReply, a: Answers, ghost v: View)
      returns (refused: bool, ghost done: seq<Step>)
      requires At(id, v)
      modifies this`actions, this`traffic, eventStore
      ensures Performed(PlanRemediateReply(cfg, v, reply, a), done, refused) && Became(id, ApplyAll(cfg, v, done))
    {
      var rec := actions[id];
      var reference := RemedyKeyReference(cfg.crypto, rec);
      match AcceptedStatus(reply, rec.remedyKey, REMEDY_RESULTS) {
        case None =>
          if reply == Threw(IdempotencyConflict) {
            refused, done := MoveAndCloseIt(id, REMEDY_FAILED, "IDEMPOTENCY_CONFLICT", reference, a, v);
          } else {
            refused, done := MoveOnly(id, REMEDY_UNKNOWN, "REMEDY_EXECUTION_AMBIGUOUS", reference, v);
          }
        case Some(status) =>
          if status != Remediated {
            refused, done := MoveAndCloseIt(id, REMEDY_FAILED, "REMEDY_CONNECTOR_FAILED",
              ResultDetails(ResultName(status)), a, v);
          } else {
            refused, done := MoveAndCall(id, REMEDY_VERIFYING, "REMEDY_EXECUTION_CONFIRMED", reference,
              Calls(RemedyObserveReply), v);
          }
      }
    }

    method ReconcileRemedy(id: Id, ghost v: View) returns (refused: bool, ghost done: seq<Step>)
      requires At(id, v)
      modifies this`traffic
      ensures Performed(PlanReconcileRemedy(v), done, refused) && Became(id, ApplyAll(cfg, v, done))
    {
      refused, done := false, [];
      if actions[id].state == REMEDY_UNKNOWN {
        Leave(id, Calls(RemedyStatusReply), v);
        ApplySingle(cfg, v, Calls(RemedyStatusReply));
        done := [Calls(RemedyStatusReply)];
      }
    }

    method RemedyStatusArrived(id: Id, reply: ConnectorReply, a: Answers, ghost v: View)
      returns (refused: bool, ghost done: seq<Step>)
      requires At(id, v)
      modifies this`actions, this`traffic, eventStore
      ensures Performed(PlanReconcileRemedyReply(cfg, v, reply, a), done, refused) && Became(id, ApplyAll(cfg, v, done))
    {
      var rec := actions[id];
      var reference := RemedyKeyReference(cfg.crypto, rec);
      match AcceptedStatus(reply, rec.remedyKey, REMEDY_STATUSES) {
        case None => return false, [];
        case Some(status) =>
          if status == Remediated {
            refused, done := MoveAndCall(id, REMEDY_VERIFYING, "REMEDY_STATUS_CONFIRMED", reference,
              Calls(RemedyObserveReply), v);
          } else if status == NoEffect || status == Failed {
            refused, done := MoveAndCloseIt(id, REMEDY_FAILED, "REMEDY_STATUS_CONFIRMED_NO_EFFECT",
              ResultDetails(ResultName(status)), a, v);
          } else {
            refused, done := MoveAndCloseIt(id, REVIEW_REQUIRED, "REMEDY_STATUS_UNRESOLVED", reference, a, v);
          }
      }
    }

    /** verifyRemedyOutcome() behind its await. */
    method RemedyOutcomeArrived(id: Id, o: Observation, a: Answers, ghost v: View)
      returns (refused: bool, ghost done: seq<Step>)
      requires At(id, v)
      modifies this`actions, eventStore
      ensures Performed(PlanRemedyObserved(cfg, v, o, a), done, refused) && Became(id, ApplyAll(cfg, v, done))
    {
      hide Apply, Assess, RejectionPlan, RemedyJudgementPlan;
      match Assess(cfg, actions[id], clock, o, PostRemedy) {
        case Unavailable => refused, done := RejectEvidence(id, PostRemedy, "REMEDY_EVIDENCE_UNAVAILABLE", a, v);
        case RejectAs(code) => refused, done := RejectEvidence(id, PostRemedy, code, a, v);
        case Accept(e) => refused, done := JudgeRemedy(id, e, a, v);
      }
    }

    method JudgeRemedy(id: Id, e: Evidence, a: Answers, ghost v: View) returns (refused: bool, ghost done: seq<Step>)
      requires At(id, v)
      modifies this`actions, eventStore
      ensures Performed([AcceptedEvidence(e)] + RemedyJudgementPlan(cfg, Apply(cfg, v, AcceptedEvidence(e)), e, a),
              done, refused)
      ensures Became(id, ApplyAll(cfg, v, done))
    {
      var ok := KeepEvidence(id, e, v);
      if !ok {
        return true, [];
      }
      ghost var w := Apply(cfg, v, AcceptedEvidence(e));
      var details := EvidenceDetails(DigestEvidence(cfg.crypto, e));
      if e.body.evaluation.satisfied {
        refused, done := MoveAndCloseIt(id, REMEDIATED, "REMEDY_VERIFIED", details, a, w);
      } else {
        refused, done := MoveAndCloseIt(id, REMEDY_INCONCLUSIVE, "REMEDY_POSTCONDITION_UNRESOLVED", details, a, w);
      }
      done := StepThen(cfg, v, AcceptedEvidence(e), RemedyJudgementPlan(cfg, w, e, a), done, refused);
    }

    // ----- Whole calls -----

    /** Time passes, and the reply a resumed call waited for arrives. */
    method Enter(id: Id, ghost segment: Segment, now: Time)
      requires WellFormed() && id in actions
      modifies this`clock, this`traffic
      ensures At(id, Entered(old(ViewOf(id)), segment, now))
      ensures Rest(id) == Aged(old(Views()), now) - {id} && clock == now
    {
      hide Awaits;
      ghost var w, before := Entered(ViewOf(id), segment, now), Views();
      clock := now;
      traffic := traffic[id := traffic[id].(pending := w.pending)];
      RestAges(id, before);
    }

    /** Time passes for the actions that a call is not about. */
    lemma RestAges(id: Id, before: map<Id, View>)
      requires actions.Keys == traffic.Keys == before.Keys
      requires forall other <- actions :: other != id ==> ViewOf(other) == before[other].(clock := clock)
      ensures Rest(id) == Aged(before, clock) - {id}
    {
      var rest := Aged(before, clock) - {id};
      assert Rest(id).Keys == rest.Keys;
      assert forall other <- rest :: Rest(id)[other] == ViewOf(other) == rest[other];
    }

    /** The method behind each segment up to the permit. */
    method DispatchGrant(id: Id, segment: Segment, ghost v: View) returns (refused: bool, ghost done: seq<Step>)
      requires At(id, v) && IsGranting(segment)
      modifies this`actions, this`traffic, eventStore
      ensures Performed(SegmentPlan(cfg, v, segment), done, refused) && Became(id, ApplyAll(cfg, v, done))
    {
      hide PlanAuthorize, PlanReserve, PlanAcceptPreflight, PlanIssuePermit, ApplyAll, Performed;
      match segment {
        case Authorizing(d) =>
          refused, done := Authorize(id, d, v);
        case Reserving(r, caps, m) =>
          refused, done := ReserveRecourse(id, r, caps, m, v);
        case AcceptingPreflight(b, measured) =>
          refused, done := AcceptRecoveryQualification(id, b, measured, v);
        case IssuingPermit(caps, a, measured) =>
          refused, done := IssuePermit(id, caps, a, measured, v);
      }
    }

    /** The method behind each segment of execution and observation. */
    method DispatchEffect(id: Id, segment: Segment, ghost v: View) returns (refused: bool, ghost done: seq<Step>)
      requires At(id, v) && IsEffect(segment)
      modifies this`actions, this`traffic, eventStore
      ensures Performed(SegmentPlan(cfg, v, segment), done, refused) && Became(id, ApplyAll(cfg, v, done))
    {
      hide PlanExecute, PlanReconcile, PlanReconcileReply, PlanVerifyOutcome, PlanObserved, ApplyAll, Performed, At;
      match segment {
        case Executing(override, a, measured) =>
          refused, done := Execute(id, override, a, measured, v);
        case Reconciling =>
          refused, done := Reconcile(id, v);
        case Reconciled(reply, a) =>
          refused, done := StatusArrived(id, reply, a, v);
        case VerifyingOutcome =>
          refused, done := VerifyOutcome(id, v);
        case OutcomeObserved(o, a) =>
          refused, done := OutcomeArrived(id, o, a, v);
      }
    }

    /** The method behind each segment of the remedy. */
    method DispatchRemedy(id: Id, segment: Segment, ghost v: View) returns (refused: bool, ghost done: seq<Step>)
      requires At(id, v) && IsRemedy(segment)
      modifies this`actions, this`traffic, eventStore
      ensures Performed(SegmentPlan(cfg, v, segment), done, refused) && Became(id, ApplyAll(cfg, v, done))
    {
      hide PlanRemediate, PlanRemediateReply, PlanReconcileRemedy, PlanReconcileRemedyReply, PlanRemedyObserved,
           ApplyAll, Performed, At;
      match segment {
        case Remediating(a, measured) =>
          refused, done := Remediate(id, a, measured, v);
        case RemedyReplied(reply, a) =>
          refused, done := RemedyArrived(id, reply, a, v);
        case ReconcilingRemedy =>
          refused, done := ReconcileRemedy(id, v);
        case RemedyReconciled(reply, a) =>
          refused, done := RemedyStatusArrived(id, reply, a, v);
        case RemedyObserved(o, a) =>
          refused, done := RemedyOutcomeArrived(id, o, a, v);
      }
    }

    method Dispatch(id: Id, segment: Segment, storeError: ErrorKind, ghost v: View)
      returns (refused: bool, ghost taken: Segment, ghost done: seq<Step>)
      requires At(id, v)
      modifies this`actions, this`traffic, eventStore
      ensures SameCall(segment, taken)
      ensures Performed(SegmentPlan(cfg, v, taken), done, refused) && Became(id, ApplyAll(cfg, v, done))
    {
      hide PlanExecuteReply, ApplyAll, Performed, At, WellFormed, ViewOf, VerifyPreflight, Apply, RequestValid;
      taken := segment;
      if segment.ExecuteReplied? {
        ghost var refusal;
        refused, refusal, done := ExecuteArrived(id, segment.reply, storeError, segment.answers, v);
        taken := ExecuteReplied(segment.reply, refusal, segment.answers);
      } else if IsGranting(segment) {
        refused, done := DispatchGrant(id, segment, v);
      } else if IsEffect(segment) {
        refused, done := DispatchEffect(id, segment, v);
      } else {
        refused, done := DispatchRemedy(id, segment, v);
      }
    }

    /** One segment of one action's call, on the object itself: the action takes one turn, no
        other action is touched, and what holds of every action's record and log still holds. */
    method Call(id: Id, segment: Segment, storeError: ErrorKind, now: Time) returns (r: CallResult, ghost turn: Turn)
      requires Valid() && clock <= now
      requires id in actions ==> CanRun(ViewOf(id), segment, now)
      requires id !in actions ==> Awaits(segment).None?
      modifies this, eventStore
      ensures Valid() && clock == now
      ensures r == ActionNotFound <==> id !in old(actions)
      ensures r == ActionNotFound ==> Views() == Aged(old(Views()), now)
      ensures r != ActionNotFound ==>
                && turn.now == now && SameCall(segment, turn.segment)
                && Views() == Aged(old(Views()), now)[id := TakeTurn(cfg, old(ViewOf(id)), turn)]
                && (r == Finished ==> turn.performed == |Plan(cfg, old(ViewOf(id)), turn.segment, now)|)
    {
      hide Core, TakeTurn, Plan;
      if id !in actions {
        Tick(now);
        return ActionNotFound, Turn(segment, now, 0);
      }
      ghost var views := Views();
      r, turn := CallKnown(id, segment, storeError, now);
      TurnKeepsAllCore(cfg, views, id, old(clock), turn);
    }

    method CallKnown(id: Id, segment: Segment, storeError: ErrorKind, now: Time)
      returns (r: CallResult, ghost turn: Turn)
      requires WellFormed() && clock <= now && id in actions && CanRun(ViewOf(id), segment, now)
      modifies this, eventStore
      ensures WellFormed() && clock == now && r != ActionNotFound
      ensures turn.now == now && SameCall(segment, turn.segment)
      ensures Views() == Aged(old(Views()), now)[id := TakeTurn(cfg, old(ViewOf(id)), turn)]
      ensures r == Finished ==> turn.performed == |Plan(cfg, old(ViewOf(id)), turn.segment, now)|
    {
      hide SegmentPlan, ApplyAll, Plan;
      ghost var v, views := ViewOf(id), Views();
      Enter(id, segment, now);
      var refused;
      ghost var taken, done;
      refused, taken, done := Dispatch(id, segment, storeError, Entered(v, segment, now));
      turn := TurnTaken(cfg, v, segment, taken, now, done, refused);
      TogetherWithRest(id, Aged(views, now));
      r := if refused then Refused else Finished;
    }

    /** The views are those of the rest, and that of `id`. */
    lemma TogetherWithRest(id: Id, views: map<Id, View>)
      requires actions.Keys == traffic.Keys && id in actions && Rest(id) == views - {id}
      ensures Views() == views[id := ViewOf(id)]
    {
      var whole := views[id := ViewOf(id)];
      assert Rest(id).Keys == actions.Keys - {id} && (views - {id}).Keys == views.Keys - {id};
      assert Views().Keys == actions.Keys == (actions.Keys - {id}) + {id};
      assert whole.Keys == views.Keys + {id} == (views.Keys - {id}) + {id};
      forall other <- Views()
        ensures Views()[other] == whole[other]
      {
        if other != id {
          assert Rest(id)[other] == ViewOf(other);
        }
      }
    }

    method Propose(p: Proposal, now: Time) returns (r: ProposeResult, id: Id)
      requires Valid() && clock <= now
      modifies this, eventStore
      ensures Valid() && clock == now
      ensures id == Proposed(cfg, p, now).rec.actionId
      ensures r == Registered ==> id !in old(actions) && Views() == Aged(old(Views()), now)[id := Proposed(cfg, p, now)]
      ensures r != Registered ==> Views() == Aged(old(Views()), now)
      ensures r == CapacityReached <==> |old(actions)| >= maxActions
      ensures r == ProposalInvalid <==> |old(actions)| < maxActions && !ProposalValid(p, now)
      ensures r == ActionExists <==> |old(actions)| < maxActions && ProposalValid(p, now) && id in old(actions)
    {
      Tick(now);
      var actionDigest := DigestProposal(cfg.crypto, p);
      id := "act_" + Prefix20(actionDigest);
      if |actions| >= maxActions {
        return CapacityReached, id;
      }
      if !ProposalValid(p, now) {
        return ProposalInvalid, id;
      }
      if id in actions {
        return ActionExists, id;
      }
      ghost var views := Views();
      var ok := OpenAction(Record(id, actionDigest, p, PROPOSED, 0, 0, [], None, None, None, "", None, None, None));
      if ok {
        ProposedKeepsAllCore(cfg, views, p, now);
      }
      r := if ok then Registered else EventRefused;
    }

    /** The event first; only then the record. */
    method OpenAction(record: Record) returns (ok: bool)
      requires WellFormed() && record.actionId !in actions
      requires record == Proposed(cfg, record.proposal, clock).rec
      modifies this`actions, this`traffic, eventStore
      ensures WellFormed()
      ensures Views() == if ok then old(Views())[record.actionId := Proposed(cfg, record.proposal, clock)]
              else old(Views())
      ensures !ok ==> actions == old(actions)
    {
      var p := record.proposal;
      ok := AppendFirst(record.actionId, ActionProposed(record.actionDigest, ActionTypeOf(p.parameters), p.mode));
      if ok {
        Register(record.actionId, record);
      }
    }

    /** exportBundle(): only an action with a receipt has a bundle, and then it has the whole one. */
    method Export(id: Id, profile: Profile) returns (r: Option<Bundle>)
      requires Valid()
      ensures r.Some? <==> id in actions && actions[id].receipt.Some?
      ensures r.Some? ==> actions[id].reservation.Some? && actions[id].permit.Some?
                          && r.value == ExportBundle(cfg, ViewOf(id), profile)
    {
      if id !in actions || actions[id].receipt.None? {
        return None;
      }
      ghost var v := Views()[id];
      ReceiptMeansGranted(cfg, v);
      var rec := actions[id];
      var audit := profile == AuditProfile;
      return Some(Bundle(
        rec.proposal.version,
        profile,
        ActionSummary(rec.actionId, rec.actionDigest, ActionTypeOf(rec.proposal.parameters),
                      DigestText(cfg.crypto, rec.proposal.resourceId), if audit then Some(rec.proposal) else None),
        rec.reservation.value,
        rec.permit.value,
        EvidenceDigests(cfg.crypto, rec.evidence),
        if audit then rec.evidence else [],
        rec.receipt.value,
        eventStore.List(id)));
    }

    method AppendFirst(id: Id, payload: Payload) returns (ok: bool)
      requires WellFormed() && id !in actions
      modifies eventStore
      ensures Views() == old(Views()) && eventStore.byAction.Keys <= actions.Keys + {id}
      ensures ok ==> eventStore.List(id) == [NextEvent(cfg.crypto, cfg.signer, [], id, "rail", clock, payload)]
      ensures !ok ==> eventStore.byAction == old(eventStore.byAction)
    {
      ok := eventStore.TryAppend(id, "rail", clock, payload);
      assert eventStore.byAction.Keys <= actions.Keys + {id};
    }

    method Tick(now: Time)
      requires Valid() && clock <= now
      modifies this`clock
      ensures Valid() && clock == now && Views() == Aged(old(Views()), now)
    {
      hide Core;
      AgedKeepsCore(cfg, Views(), clock, now);
      clock := now;
      assert Views() == Aged(old(Views()), now);
    }

    method Register(id: Id, record: Record)
      requires actions.Keys == traffic.Keys && id !in actions
      modifies this`actions, this`traffic
      ensures actions == old(actions)[id := record] && traffic.Keys == old(traffic.Keys) + {id}
      ensures Views() == old(Views())[id := View(record, eventStore.List(id), multiset{}, [], [], clock)]
    {
      actions := actions[id := record];
      traffic := traffic[id := Traffic(multiset{}, [], [])];
      forall other <- actions
        ensures Views()[other] == old(Views())[id := View(record, eventStore.List(id), multiset{}, [], [],
                clock)][other]
      {
        assert other != id ==> ViewOf(other) == old(ViewOf(other));
      }
    }
  }

  ghost predicate AllCore(cfg: Config, views: map<Id, View>) {
    forall id <- views :: Core(cfg, views[id])
  }

  lemma AgedKeepsCore(cfg: Config, views: map<Id, View>, before: Time, now: Time)
    requires AllCore(cfg, views) && before <= now && forall id <- views :: views[id].clock == before
    ensures AllCore(cfg, Aged(views, now))
  {
    forall id <- views
      ensures Core(cfg, Aged(views, now)[id])
    {
      LaterKeepsCore(cfg, views[id], Aged(views, now)[id]);
    }
  }

  predicate IsGranting(s: Segment) { s.Authorizing? || s.Reserving? || s.AcceptingPreflight? || s.IssuingPermit? }
  predicate IsEffect(s: Segment) {
    s.Executing? || s.Reconciling? || s.Reconciled? || s.VerifyingOutcome? || s.OutcomeObserved?
  }
  predicate IsRemedy(s: Segment) {
    s.Remediating? || s.RemedyReplied? || s.ReconcilingRemedy? || s.RemedyReconciled? || s.RemedyObserved?
  }

  /** The call the caller made; only whether the store refused the EXECUTED event is found out
      during the call. */
  predicate SameCall(called: Segment, taken: Segment) {
    called == taken || (called.ExecuteReplied? && taken.ExecuteReplied? && taken.(refusal := called.refusal) == called)
  }

  lemma ReceiptMeansGranted(cfg: Config, v: View)
    requires Core(cfg, v) && v.rec.receipt.Some?
    ensures v.rec.reservation.Some? && v.rec.permit.Some?
  {
  }

  lemma TurnTaken(cfg: Config, v: View, segment: Segment, taken: Segment, now: Time, done: seq<Step>, refused: bool)
    returns (turn: Turn)
    requires SameCall(segment, taken)
    requires Performed(SegmentPlan(cfg, Entered(v, segment, now), taken), done, refused)
    ensures turn == Turn(taken, now, |done|)
    ensures TakeTurn(cfg, v, turn) == ApplyAll(cfg, Entered(v, segment, now), done)
    ensures !refused ==> |done| == |Plan(cfg, v, taken, now)|
  {
    turn := Turn(taken, now, |done|);
    assert Entered(v, segment, now) == Entered(v, taken, now);
    assert Plan(cfg, v, taken, now)[..|done|] == done;
  }

  lemma TurnKeepsAllCore(cfg: Config, views: map<Id, View>, id: Id, before: Time, turn: Turn)
    requires SoundSignatures(cfg.crypto) && AllCore(cfg, views) && forall other <- views :: views[other].clock == before
    requires id in views && CanRun(views[id], turn.segment, turn.now)
    ensures AllCore(cfg, Aged(views, turn.now)[id := TakeTurn(cfg, views[id], turn)])
  {
    AgedKeepsCore(cfg, views, before, turn.now);
    TurnKeepsGood(cfg, views[id], turn, false);
    AddedKeepsCore(cfg, Aged(views, turn.now), id, TakeTurn(cfg, views[id], turn));
  }

  lemma ProposedKeepsAllCore(cfg: Config, views: map<Id, View>, p: Proposal, now: Time)
    requires SoundSignatures(cfg.crypto) && AllCore(cfg, views) && ProposalValid(p, now)
    ensures AllCore(cfg, views[Proposed(cfg, p, now).rec.actionId := Proposed(cfg, p, now)])
  {
    ProposedIsGood(cfg, p, now);
    AddedKeepsCore(cfg, views, Proposed(cfg, p, now).rec.actionId, Proposed(cfg, p, now));
  }

  lemma AddedKeepsCore(cfg: Config, views: map<Id, View>, id: Id, v: View)
    requires AllCore(cfg, views) && Core(cfg, v)
    ensures AllCore(cfg, views[id := v])
  {
    var all := views[id := v];
    forall other <- all
      ensures Core(cfg, all[other])
    {
      assert other != id ==> other in views;
    }
  }

  /** A step, then what the rest of the plan came to. */
  lemma StepThen(cfg: Config, v: View, first: Step, plan: seq<Step>, rest: seq<Step>, refused: bool)
    returns (done: seq<Step>)
    requires Performed(plan, rest, refused)
    ensures Performed([first] + plan, done, refused)
    ensures ApplyAll(cfg, v, done) == ApplyAll(cfg, Apply(cfg, v, first), rest)
  {
    done := [first] + rest;
    ApplyFirst(cfg, v, first, rest);
  }

  lemma ApplyFirst(cfg: Config, v: View, first: Step, rest: seq<Step>)
    ensures ApplyAll(cfg, v, [first] + rest) == ApplyAll(cfg, Apply(cfg, v, first), rest)
  {
    ApplyConcat(cfg, v, [first], rest);
    ApplySingle(cfg, v, first);
  }

  lemma MoveAndCloseDone(cfg: Config, v: View, to: State, reason: string, details: Details, a: Answers, rest: seq<Step>,
      refused: bool)
    returns (done: seq<Step>)
    requires Allowed(v.rec.state, to)
    requires Performed(ClosePlan(Apply(cfg, v, Move(to, reason, details)), a), rest, refused)
    ensures Performed(MoveAndClose(cfg, v, to, reason, details, a), done, refused)
    ensures ApplyAll(cfg, v, done) == ApplyAll(cfg, Apply(cfg, v, Move(to, reason, details)), rest)
  {
    done := [Move(to, reason, details)] + rest;
    ApplyFirst(cfg, v, Move(to, reason, details), rest);
  }

  lemma BreachDone(cfg: Config, v: View, details: Details, due: Details, rest: seq<Step>, refused: bool)
    returns (done: seq<Step>)
    requires Allowed(v.rec.state, BREACHED)
    requires var w := Apply(cfg, v, Move(BREACHED, "POSTCONDITION_BREACHED", details));
             Performed(MoveThen(w, REMEDY_DUE, "RESERVED_REMEDY_DUE", due, []), rest, refused)
    ensures Performed(MoveThen(v, BREACHED, "POSTCONDITION_BREACHED", details,
                        [Move(REMEDY_DUE, "RESERVED_REMEDY_DUE", due)]), done, refused)
    ensures ApplyAll(cfg, v, done) == ApplyAll(cfg, Apply(cfg, v, Move(BREACHED, "POSTCONDITION_BREACHED", details)),
            rest)
  {
    done := StepThen(cfg, v, Move(BREACHED, "POSTCONDITION_BREACHED", details),
      [Move(REMEDY_DUE, "RESERVED_REMEDY_DUE", due)], rest, refused);
  }

  lemma MoveAndFinalizeDone(cfg: Config, v: View, to: State, reason: string, details: Details, a: Answers,
      rest: seq<Step>, refused: bool)
    returns (done: seq<Step>)
    requires Allowed(v.rec.state, to)
    requires Performed(FinalizePlan(Apply(cfg, v, Move(to, reason, details)), true, reason, a), rest, refused)
    ensures Performed(MoveAndFinalize(cfg, v, to, reason, details, a), done, refused)
    ensures ApplyAll(cfg, v, done) == ApplyAll(cfg, Apply(cfg, v, Move(to, reason, details)), rest)
  {
    done := [Move(to, reason, details)] + rest;
    ApplyFirst(cfg, v, Move(to, reason, details), rest);
  }

  lemma CallIsTraffic(cfg: Config, v: View, call: Step)
    requires call.CallsExecute? || call.CallsRemediate? || call.Calls?
    ensures var w := Apply(cfg, v, call);
            w == v.(pending := w.pending, executeCalls := w.executeCalls, remediateCalls := w.remediateCalls)
  {
  }

  lemma SettleIsApply(cfg: Config, v: View, w: View, outcome: Outcome)
    requires w.log == v.log + [NextEvent(cfg.crypto, cfg.signer, v.log, v.rec.actionId, "rail", v.clock,
      Moved(cfg.crypto, v.rec.state, CLOSED, SettlementReason(outcome), OutcomeDetails(outcome)))]
    requires var closed := v.rec.(state := CLOSED);
             w.rec == if CanSettle(closed, w.log)
               then closed.(receipt := Some(MakeReceipt(cfg, closed, w.log, outcome))) else closed
    requires w == v.(rec := w.rec, log := w.log)
    ensures w == Apply(cfg, v, Settles(outcome))
  {
  }

  lemma ClosePlanShape(v: View, a: Answers)
    requires OutcomeOf(v.rec.state).Some?
    ensures var o := OutcomeOf(v.rec.state).value;
            var final := FinalizeResult(v, o != Disputed, a);
            var finalizing := FinalizePlan(v, o != Disputed, SettlementReason(o), a);
            && finalizing <= ClosePlan(v, a)
            && ClosePlan(v, a) == if final.FinalStatus? && final.status != StatusUnknown then finalizing + [Settles(o)]
                 else finalizing
  {
  }

  lemma FinalizeKeepsState(cfg: Config, v: View, release: bool, reason: string, a: Answers)
    ensures ApplyAll(cfg, v, FinalizePlan(v, release, reason, a)).rec.state == v.rec.state
  {
    var plan := FinalizePlan(v, release, reason, a);
    if plan != [] {
      ApplySingle(cfg, v, plan[0]);
    }
  }

  lemma MoveIsApply(cfg: Config, v: View, w: View, to: State, reason: string, details: Details)
    requires w.rec == v.rec.(state := to,
                             permitUses := if to == EXECUTING then v.rec.permitUses + 1 else v.rec.permitUses,
                             remedyAttempts := if to == REMEDIATING then v.rec.remedyAttempts + 1
                               else v.rec.remedyAttempts)
    requires w.log == v.log + [NextEvent(cfg.crypto, cfg.signer, v.log, v.rec.actionId, "rail", v.clock,
                                         Moved(cfg.crypto, v.rec.state, to, reason, details))]
    requires w == v.(rec := w.rec, log := w.log)
    ensures w == Apply(cfg, v, Move(to, reason, details))
  {
  }

  lemma StepIsApply(cfg: Config, v: View, w: View, step: Step)
    requires StepEvent(cfg.crypto, v.rec, step).Some?
    requires var (actor, payload) := StepEvent(cfg.crypto, v.rec, step).value;
             w.log == v.log + [NextEvent(cfg.crypto, cfg.signer, v.log, v.rec.actionId, actor, v.clock, payload)]
    requires w.rec == Mutate(cfg, v.rec, w.log, step)
    requires w == v.(rec := w.rec, log := w.log)
    ensures w == Apply(cfg, v, step)
  {
  }

  lemma ReservationIsApply(cfg: Config, v: View, w: View, r: Reservation, key: string)
    requires var details := ReservationDetails(DigestReservation(cfg.crypto, r), r.body.kind, r.body.capability,
                              DigestCommitment(cfg.crypto, r.body.commitment));
             var payload := Moved(cfg.crypto, v.rec.state, RECOURSE_RESERVED, "RECOURSE_VERIFIED", details);
             w.log == v.log + [NextEvent(cfg.crypto, cfg.signer, v.log, v.rec.actionId, "rail", v.clock, payload)]
    requires w.rec == v.rec.(state := RECOURSE_RESERVED, reservation := Some(r), remedyKey := key)
    requires w == v.(rec := w.rec, log := w.log)
    ensures w == Apply(cfg, v, Reserved(r, key))
  {
    hide NextEvent, DigestReservation, DigestCommitment, Moved;
  }

  lemma AuthorizationIsApply(cfg: Config, v: View, w: View, a: Authorization)
    requires var payload := Moved(cfg.crypto, v.rec.state, if a.allow then AUTHORIZED else DENIED,
               if a.allow then "POLICY_ALLOWED" else "POLICY_DENIED", PolicyDetails(a.policyId, a.policyDigest));
             w.log == v.log + [NextEvent(cfg.crypto, cfg.signer, v.log, v.rec.actionId, "rail", v.clock, payload)]
    requires w.rec == v.rec.(state := if a.allow then AUTHORIZED else DENIED, authorization := Some(a))
    requires w == v.(rec := w.rec, log := w.log)
    ensures w == Apply(cfg, v, Authorized(a))
  {
    hide NextEvent, Moved;
  }

  /** The three ways a permit is found when it is about to be used up. */
  lemma ConsumptionPlans(cfg: Config, v: View, candidate: Proposal, a: Answers, measured: Option<Digest>)
    requires v.rec.permit.Some? && v.rec.reservation.Some? && v.rec.authorization.Some? && v.rec.state == PERMITTED
    ensures PlanConsume(cfg, v, candidate, a, measured) ==
              match ReadStatus(v.rec, a.probe)
              case None => []
              case Some(status) =>
                if status != StatusActive then
                  MoveAndFinalize(cfg, v, REVOKED, "CONNECTOR_RECOURSE_NOT_ACTIVE", StatusDetails(status), a)
                else
                  MoveThen(v, EXECUTING, "PERMIT_CONSUMED",
                    UseDetails(DigestPermit(cfg.crypto, v.rec.permit.value), v.rec.permitUses + 1),
                    [CallsExecute(ExecuteCall(v.clock, v.rec.proposal, v.rec.proposal.idempotencyKey, candidate,
                      v.rec.permit.value, v.rec.reservation.value, status, v.rec.authorization.value, v.rec.preflight,
                      measured))])
  {
    hide MoveAndFinalize, DigestPermit;
  }

  lemma PermitIsApply(cfg: Config, v: View, w: View, permit: Permit, attestation: Option<Digest>)
    requires var details := PermitDetails(DigestPermit(cfg.crypto, permit), permit.body.mode,
             permit.body.bypassPossible, attestation);
             var payload := Moved(cfg.crypto, v.rec.state, PERMITTED, "PERMIT_ISSUED", details);
             w.log == v.log + [NextEvent(cfg.crypto, cfg.signer, v.log, v.rec.actionId, "rail", v.clock, payload)]
    requires w.rec == v.rec.(state := PERMITTED, permit := Some(permit)) && w == v.(rec := w.rec, log := w.log)
    ensures w == Apply(cfg, v, Permitted(permit, attestation))
  {
    hide NextEvent, DigestPermit, Moved;
  }

  lemma ApplySingle(cfg: Config, v: View, step: Step)
    ensures ApplyAll(cfg, v, [step]) == Apply(cfg, v, step)
  {
    ApplyOne(cfg, v, [], step);
  }
}
