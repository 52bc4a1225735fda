/** One run, written out: two overlapping reconcileRemedy calls hear different answers, and the
    action ends with a receipt that no verifier accepts. */
module RailWitness {
  import opened RailStates
  import opened JsonValues
  import opened Artifacts
  import opened Postconditions
  import opened EventStore
  import opened RailModel
  import opened RailInvariant
  import opened RailRuns
  import opened RailTheorems
  import opened RailOverlap

  const CLAUSE := Clause("n", GTE, Number(1.0))
  const FACTS: Facts := Obj([Member("n", Number(0.0))])
  const PROPOSAL := Proposal(
    V1, "agent", "a", "mail", "message", "m", EmailParameters("r", "hello"), "key", 0, 10, Cooperative, [CLAUSE],
      "source", 1)
  const CAPABILITIES := Capabilities("mail", true, ["recall"])
  const ACTIVE := Answers(StatusReport("token", StatusActive), true, StatusReport("token", StatusReleased))
  const ALLOW := Authorization(true, "policy", "digest", false, 0)

  function RequestFor(d: Digest): RecourseRequest {
    RecourseRequest(d, Compensate, "mail", "recall", "reference", 10, 0, 1, MaxAmountMinor(0), "remedy")
  }

  function CommitmentFor(c: Crypto, connector: Signer, d: Digest): Commitment {
    var body := CommitmentBody("token", d, "mail", "recall", Compensate, 10, 1, MaxAmountMinor(0), 0, true);
    Commitment(body, MakeSignature(c, CommitmentB(body), connector))
  }

  function ReservationFor(cfg: Config, connector: Signer, d: Digest): Reservation {
    MakeReservation(cfg, RequestFor(d), CommitmentFor(cfg.crypto, connector, d), 0)
  }

  /** Any sound signatures, a trusted connector, no size limits met, and no drill required. */
  ghost predicate Setting(cfg: Config, connector: Signer) {
    && SoundSignatures(cfg.crypto)
    && connector.kid in cfg.connectorKeys && cfg.connectorKeys[connector.kid] == connector.key
    && !cfg.requirePreflight
    && forall a :: cfg.crypto.representable(a)
  }

  // ----- Runs, one turn at a time -----

  /** A truthful run that ends in `v`. */
  ghost predicate Leads(cfg: Config, turns: seq<Turn>, views: seq<View>, v: View) {
    Run(cfg, PROPOSAL, 0, turns, views) && TruthfulRun(turns, views) && views[|turns|] == v
  }

  lemma GoOn(cfg: Config, turns: seq<Turn>, views: seq<View>, v: View, t: Turn)
    returns (longer: seq<Turn>, more: seq<View>)
    requires Leads(cfg, turns, views, v) && CanRun(v, t.segment, t.now) && Truthful(v.(clock := t.now), t.segment)
    ensures longer == turns + [t] && more == views + [TakeTurn(cfg, v, t)]
    ensures Leads(cfg, longer, more, TakeTurn(cfg, v, t))
  {
    hide TakeTurn, CanRun, Truthful, ProposalValid;
    longer, more := turns + [t], views + [TakeTurn(cfg, v, t)];
  }

  /** A turn that performs a plan of one, two or three steps. */
  lemma PerformsPlan(cfg: Config, v: View, t: Turn, plan: seq<Step>)
    requires Plan(cfg, v, t.segment, t.now) == plan && t.performed == |plan| && 1 <= |plan| <= 3
    ensures var w := Entered(v, t.segment, t.now);
            TakeTurn(cfg, v, t) ==
              if |plan| == 1 then Apply(cfg, w, plan[0])
              else if |plan| == 2 then Apply(cfg, Apply(cfg, w, plan[0]), plan[1])
              else Apply(cfg, Apply(cfg, Apply(cfg, w, plan[0]), plan[1]), plan[2])
  {
    hide Plan, Apply, Entered, ApplyAll;
    WholeTurn(cfg, v, t);
    var w := Entered(v, t.segment, t.now);
    if |plan| == 1 {
      assert plan == [] + [plan[0]];
      ApplyOne(cfg, w, [], plan[0]);
      ApplyNone(cfg, w);
    } else if |plan| == 2 {
      assert plan == [plan[0], plan[1]];
      ThreeSteps(cfg, w, plan[0], plan[1], plan[1]);
    } else {
      assert plan == [plan[0], plan[1], plan[2]];
      ThreeSteps(cfg, w, plan[0], plan[1], plan[2]);
    }
  }

  lemma ApplyNone(cfg: Config, v: View)
    ensures ApplyAll(cfg, v, []) == v
  {
  }

  /** What steps do to record and awaited replies. */
  lemma StepChanges(cfg: Config, v: View, step: Step)
    requires !step.Settles?
    ensures var w := Apply(cfg, v, step);
            && w.clock == v.clock
            && w.pending == v.pending + (match Suspended(step) case Some(t) => multiset{t} case None => multiset{})
            && w.rec == match step
                 case Move(to, _, _) =>
                   v.rec.(state := to,
                     permitUses := if to == EXECUTING then v.rec.permitUses + 1 else v.rec.permitUses,
                     remedyAttempts := if to == REMEDIATING then v.rec.remedyAttempts + 1 else v.rec.remedyAttempts)
                 case Authorized(a) => v.rec.(state := if a.allow then AUTHORIZED else DENIED, authorization := Some(a))
                 case Reserved(r, key) => v.rec.(state := RECOURSE_RESERVED, reservation := Some(r), remedyKey := key)
                 case AcceptedPreflight(b, _) => v.rec.(preflight := Some(b))
                 case Permitted(p, _) => v.rec.(state := PERMITTED, permit := Some(p))
                 case AcceptedEvidence(e) => v.rec.(evidence := v.rec.evidence + [e])
                 case RecordedRecourse(status, _) => v.rec.(recourseRecorded := Some(status))
                 case _ => v.rec
  {
    hide NextEvent, MakeReceipt;
  }

  lemma TurnMoves(cfg: Config, v: View, t: Turn, move: Step)
    requires Plan(cfg, v, t.segment, t.now) == [move] && t.performed == 1
    requires move.Move? && move.to != EXECUTING && move.to != REMEDIATING
    ensures var w := TakeTurn(cfg, v, t);
            && w.rec == v.rec.(state := move.to) && w.pending == Entered(v, t.segment, t.now).pending
            && w.clock == t.now
  {
    hide Plan, Apply, TakeTurn;
    PerformsPlan(cfg, v, t, [move]);
    StepChanges(cfg, Entered(v, t.segment, t.now), move);
  }

  lemma TurnCalls(cfg: Config, v: View, t: Turn, move: Step, call: Step)
    requires Plan(cfg, v, t.segment, t.now) == [move, call] && t.performed == 2
    requires move.Move? && Suspended(call).Some?
    ensures var w := TakeTurn(cfg, v, t);
            && w.clock == t.now
            && w.pending == Entered(v, t.segment, t.now).pending + multiset{Suspended(call).value}
            && w.rec == v.rec.(state := move.to,
                 permitUses := if move.to == EXECUTING then v.rec.permitUses + 1 else v.rec.permitUses,
                 remedyAttempts := if move.to == REMEDIATING then v.rec.remedyAttempts + 1 else v.rec.remedyAttempts)
  {
    hide Plan, Apply, TakeTurn;
    PerformsPlan(cfg, v, t, [move, call]);
    var w := Entered(v, t.segment, t.now);
    StepChanges(cfg, w, move);
    StepChanges(cfg, Apply(cfg, w, move), call);
  }

  // ----- The record at each state of the way -----

  function Start(cfg: Config): Record {
    var d := DigestProposal(cfg.crypto, PROPOSAL);
    Record("act_" + Prefix20(d), d, PROPOSAL, PROPOSED, 0, 0, [], None, None, None, "", None, None, None)
  }

  function Granted(cfg: Config): Record { Start(cfg).(state := AUTHORIZED, authorization := Some(ALLOW)) }

  function Secured(cfg: Config, connector: Signer): Record {
    var rec := Granted(cfg);
    rec.(state := RECOURSE_RESERVED, reservation := Some(ReservationFor(cfg, connector, rec.actionDigest)),
      remedyKey := "remedy")
  }

  function Admitted(cfg: Config, connector: Signer): Record {
    var rec := Secured(cfg, connector);
    rec.(state := PERMITTED, permit := Some(MakePermit(cfg, rec, rec.reservation.value, 0)))
  }

  function Running(cfg: Config, connector: Signer, s: State): Record {
    Admitted(cfg, connector).(state := s, permitUses := 1)
  }

  /** The clock stands still at 0, and `pending` is awaited. */
  predicate Stands(v: View, rec: Record, pending: multiset<Token>) {
    v.rec == rec && v.pending == pending && v.clock == 0
  }

  /** A truthful turn that can be taken leads to this record. */
  ghost predicate Goes(cfg: Config, v: View, t: Turn, rec: Record, pending: multiset<Token>) {
    CanRun(v, t.segment, t.now) && Truthful(v.(clock := t.now), t.segment) && Stands(TakeTurn(cfg, v, t), rec, pending)
  }

  const AUTHORIZE_TURN := Turn(Authorizing(Decision(true, "policy", "digest", false)), 0, 1)

  lemma Authorizes(cfg: Config, connector: Signer, v: View)
    requires Setting(cfg, connector) && Stands(v, Start(cfg), multiset{})
    ensures Goes(cfg, v, AUTHORIZE_TURN, Granted(cfg), multiset{})
  {
    hide Apply, TakeTurn, DigestProposal;
    PerformsPlan(cfg, v, AUTHORIZE_TURN, [Authorized(ALLOW)]);
    StepChanges(cfg, Entered(v, AUTHORIZE_TURN.segment, 0), Authorized(ALLOW));
  }

  function ReserveTurn(cfg: Config, connector: Signer): Turn {
    var d := DigestProposal(cfg.crypto, PROPOSAL);
    Turn(Reserving(RequestFor(d), Some(CAPABILITIES), Some(CommitmentFor(cfg.crypto, connector, d))), 0, 1)
  }

  lemma Reserves(cfg: Config, connector: Signer, v: View)
    requires Setting(cfg, connector) && Stands(v, Granted(cfg), multiset{})
    ensures Goes(cfg, v, ReserveTurn(cfg, connector), Secured(cfg, connector), multiset{})
  {
    hide Apply, TakeTurn, DigestProposal, MakeReservation;
    var t := ReserveTurn(cfg, connector);
    var d := DigestProposal(cfg.crypto, PROPOSAL);
    OwnSignatureChecks(cfg.crypto, CommitmentB(CommitmentFor(cfg.crypto, connector, d).body), connector,
      cfg.connectorKeys);
    var step := Reserved(ReservationFor(cfg, connector, d), "remedy");
    assert "recall" in CAPABILITIES.remedies;
    PerformsPlan(cfg, v, t, [step]);
    StepChanges(cfg, Entered(v, t.segment, 0), step);
  }

  const PERMIT_TURN := Turn(IssuingPermit(Some(CAPABILITIES), ACTIVE, None), 0, 1)

  lemma PermitIsPlanned(cfg: Config, v: View)
    requires v.rec.state == RECOURSE_RESERVED && v.rec.proposal == PROPOSAL && v.clock == 0
    requires v.rec.authorization == Some(ALLOW) && v.rec.preflight.None? && v.rec.reservation.Some?
    requires v.rec.reservation.value.body.expiresAt == 10
             && v.rec.reservation.value.body.commitment.body.token == "token"
    ensures Plan(cfg, v, PERMIT_TURN.segment,
            0) == [Permitted(MakePermit(cfg, v.rec, v.rec.reservation.value, 0), None)]
  {
    hide Apply, MakePermit;
  }

  lemma Permits(cfg: Config, connector: Signer, v: View)
    requires Setting(cfg, connector) && Stands(v, Secured(cfg, connector), multiset{})
    ensures Goes(cfg, v, PERMIT_TURN, Admitted(cfg, connector), multiset{})
  {
    hide Apply, TakeTurn, DigestProposal, MakePermit, Plan, ReservationFor;
    var step := Permitted(MakePermit(cfg, v.rec, v.rec.reservation.value, 0), None);
    ReservationSays(cfg, connector, DigestProposal(cfg.crypto, PROPOSAL));
    PermitIsPlanned(cfg, v);
    PerformsPlan(cfg, v, PERMIT_TURN, [step]);
    StepChanges(cfg, Entered(v, PERMIT_TURN.segment, 0), step);
  }

  lemma ReservationSays(cfg: Config, connector: Signer, d: Digest)
    ensures var body := ReservationFor(cfg, connector, d).body;
            body.expiresAt == 10 && body.maxAttempts == 1 && body.kind == Compensate
              && body.commitment.body.token == "token"
  {
  }

  const EXECUTE_TURN := Turn(Executing(None, ACTIVE, None), 0, 2)

  function ExecutionOf(v: View): Step
    requires v.rec.permit.Some? && v.rec.reservation.Some?
  {
    CallsExecute(ExecuteCall(0, v.rec.proposal, v.rec.proposal.idempotencyKey, v.rec.proposal, v.rec.permit.value,
      v.rec.reservation.value, StatusActive, ALLOW, None, None))
  }

  lemma ExecutionIsPlanned(cfg: Config, v: View)
    requires SoundSignatures(cfg.crypto)
    requires v.rec.state == PERMITTED && v.rec.permitUses == 0 && v.rec.preflight.None?
             && v.rec.authorization == Some(ALLOW) && v.clock == 0
    requires v.rec.reservation.Some? && v.rec.permit.Some?
             && v.rec.actionDigest == DigestProposal(cfg.crypto, v.rec.proposal)
    requires v.rec.permit.value == Signed(v.rec.permit.value.body,
             MakeSignature(cfg.crypto, PermitB(v.rec.permit.value.body), cfg.signer))
    requires v.rec.permit.value.body.expiresAt == 10 && v.rec.reservation.value.body.expiresAt == 10
    requires v.rec.reservation.value.body.commitment.body.token == "token"
    ensures Plan(cfg, v, EXECUTE_TURN.segment, 0) ==
              [Move(EXECUTING, "PERMIT_CONSUMED", UseDetails(DigestPermit(cfg.crypto, v.rec.permit.value), 1)),
                ExecutionOf(v)]
  {
    hide DigestProposal, DigestPermit, MoveAndFinalize, CheckSignature;
    OwnSignatureChecks(cfg.crypto, PermitB(v.rec.permit.value.body), cfg.signer, cfg.Keys());
  }

  lemma AdmittedSays(cfg: Config, connector: Signer)
    ensures var rec := Admitted(cfg, connector);
            && rec.permit.value == Signed(rec.permit.value.body,
                 MakeSignature(cfg.crypto, PermitB(rec.permit.value.body), cfg.signer))
            && rec.permit.value.body.expiresAt == 10 && rec.actionDigest == DigestProposal(cfg.crypto, rec.proposal)
  {
    hide ReservationFor, DigestProposal, MakeSignature;
  }

  lemma GoesExecuting(cfg: Config, connector: Signer, v: View)
    requires Setting(cfg, connector) && Stands(v, Admitted(cfg, connector), multiset{})
    ensures Goes(cfg, v, EXECUTE_TURN, Running(cfg, connector, EXECUTING), multiset{ExecuteReply})
  {
    hide TakeTurn, Plan, DigestProposal, DigestPermit, MakePermit, ReservationFor, ExecutionOf, MakeSignature;
    AdmittedSays(cfg, connector);
    ReservationSays(cfg, connector, DigestProposal(cfg.crypto, PROPOSAL));
    ExecutionIsPlanned(cfg, v);
    ExecutionSuspends(v);
    TurnCalls(cfg, v, EXECUTE_TURN,
      Move(EXECUTING, "PERMIT_CONSUMED", UseDetails(DigestPermit(cfg.crypto, v.rec.permit.value), 1)), ExecutionOf(v));
  }

  lemma ExecutionSuspends(v: View)
    requires v.rec.permit.Some? && v.rec.reservation.Some?
    ensures Suspended(ExecutionOf(v)) == Some(ExecuteReply)
  {
  }

  const EXECUTED_TURN := Turn(ExecuteReplied(Replied(Executed, "key", None), None, ACTIVE), 0, 1)

  lemma GoesExecuted(cfg: Config, connector: Signer, v: View)
    requires Stands(v, Running(cfg, connector, EXECUTING), multiset{ExecuteReply})
    ensures Goes(cfg, v, EXECUTED_TURN, Running(cfg, connector, EXECUTED), multiset{})
  {
    hide Apply, TakeTurn, DigestProposal, KeyReference, MakePermit, ReservationFor;
    TurnMoves(cfg, v, EXECUTED_TURN, Move(EXECUTED, "CONNECTOR_EXECUTED", KeyReference(cfg.crypto, v.rec)));
  }

  const VERIFY_TURN := Turn(VerifyingOutcome, 0, 2)

  lemma Verifies(cfg: Config, connector: Signer, v: View)
    requires Stands(v, Running(cfg, connector, EXECUTED), multiset{})
    ensures Goes(cfg, v, VERIFY_TURN, Running(cfg, connector, VERIFYING), multiset{ObserveReply})
  {
    hide Apply, TakeTurn, DigestProposal, MakePermit, ReservationFor;
    TurnCalls(cfg, v, VERIFY_TURN, Move(VERIFYING, "OUTCOME_VERIFICATION_STARTED", NoDetails), Calls(ObserveReply));
  }

  // ----- The breach -----

  function ObservationOf(cfg: Config): Observation {
    Reported(DigestProposal(cfg.crypto, PROPOSAL), "source", "message", "m", FACTS, Some(0))
  }

  function EvidenceOf(cfg: Config): Evidence {
    SignEvidence(cfg, EvidenceBody(DigestProposal(cfg.crypto, PROPOSAL), "source", "message", "m", 0, FACTS,
                                   Evaluate([CLAUSE], FACTS), Initial))
  }

  lemma FactIsRead()
    ensures ReadPath(FACTS, "n") == Some(Number(0.0)) && ClauseValid(CLAUSE)
    ensures Missing([CLAUSE], FACTS) == [] && !Evaluate([CLAUSE], FACTS).satisfied
  {
    SplitWord("n", "");
    assert "" + "n" == "n";
    assert Property(FACTS, "n") == Some(Number(0.0)) by {
      assert FACTS.members[|FACTS.members| - 1] == Member("n", Number(0.0));
    }
    assert Reach(FACTS, ["n"], 0) == Some(FACTS) && ["n"][0] == "n";
    assert Reach(FACTS, ["n"], 1) == Property(FACTS, "n");
    EvaluationIsExact([CLAUSE], FACTS);
    assert [CLAUSE][..0] == [];
  }

  lemma EvidenceIsAccepted(cfg: Config, rec: Record)
    requires (forall a :: cfg.crypto.representable(a))
    requires rec.proposal == PROPOSAL && rec.actionDigest == DigestProposal(cfg.crypto, PROPOSAL)
    ensures Assess(cfg, rec, 0, ObservationOf(cfg), Initial) == Accept(EvidenceOf(cfg))
    ensures !EvidenceOf(cfg).body.evaluation.satisfied
  {
    hide DigestProposal, Evaluate, Missing;
    FactIsRead();
  }

  function Owing(cfg: Config, connector: Signer, s: State): Record {
    Running(cfg, connector, s).(evidence := [EvidenceOf(cfg)])
  }

  function BreachTurn(cfg: Config): Turn { Turn(OutcomeObserved(ObservationOf(cfg), ACTIVE), 0, 3) }

  lemma BreachIsPlanned(cfg: Config, v: View)
    requires (forall a :: cfg.crypto.representable(a))
    requires v.rec.state == VERIFYING && v.rec.evidence == []
    requires v.rec.proposal == PROPOSAL && v.rec.actionDigest == DigestProposal(cfg.crypto, PROPOSAL)
    requires v.rec.reservation.Some? && ObserveReply in v.pending
    ensures var plan := Plan(cfg, v, BreachTurn(cfg).segment, 0);
            && |plan| == 3 && plan[0] == AcceptedEvidence(EvidenceOf(cfg))
            && plan[1].Move? && plan[1].to == BREACHED && plan[2].Move? && plan[2].to == REMEDY_DUE
  {
    hide Apply, DigestProposal, DigestEvidence, DigestReservation, Assess, EvidenceOf;
    var w := Entered(v, BreachTurn(cfg).segment, 0);
    EvidenceIsAccepted(cfg, w.rec);
    StepChanges(cfg, w, AcceptedEvidence(EvidenceOf(cfg)));
  }

  /** A turn that accepts evidence and moves on twice. */
  lemma TurnJudges(cfg: Config, v: View, t: Turn, accept: Step, first: Step, second: Step)
    requires Plan(cfg, v, t.segment, t.now) == [accept, first, second] && t.performed == 3
    requires accept.AcceptedEvidence? && first.Move? && second.Move?
    requires first.to !in {EXECUTING, REMEDIATING} && second.to !in {EXECUTING, REMEDIATING}
    ensures var w := TakeTurn(cfg, v, t);
            && w.clock == t.now && w.pending == Entered(v, t.segment, t.now).pending
            && w.rec == v.rec.(evidence := v.rec.evidence + [accept.evidence], state := second.to)
  {
    hide Plan, Apply, TakeTurn;
    PerformsPlan(cfg, v, t, [accept, first, second]);
    var w := Entered(v, t.segment, t.now);
    StepChanges(cfg, w, accept);
    StepChanges(cfg, Apply(cfg, w, accept), first);
    StepChanges(cfg, Apply(cfg, Apply(cfg, w, accept), first), second);
  }

  lemma Breaches(cfg: Config, connector: Signer, v: View)
    requires Setting(cfg, connector) && Stands(v, Running(cfg, connector, VERIFYING), multiset{ObserveReply})
    ensures Goes(cfg, v, BreachTurn(cfg), Owing(cfg, connector, REMEDY_DUE), multiset{})
  {
    hide TakeTurn, DigestProposal, MakePermit, MakeReservation, EvidenceOf, Plan;
    BreachIsPlanned(cfg, v);
    var plan := Plan(cfg, v, BreachTurn(cfg).segment, 0);
    assert plan == [plan[0], plan[1], plan[2]];
    TurnJudges(cfg, v, BreachTurn(cfg), plan[0], plan[1], plan[2]);
  }

  // ----- The remedy -----

  function UnderRemedy(cfg: Config, connector: Signer, s: State): Record {
    Owing(cfg, connector, s).(remedyAttempts := 1)
  }

  lemma AttemptIsPlanned(cfg: Config, v: View)
    requires v.rec.state == REMEDY_DUE && v.rec.reservation.Some? && v.rec.preflight.None? && v.rec.remedyAttempts == 0
             && v.clock == 0
    requires var body := v.rec.reservation.value.body;
             body.expiresAt == 10 && body.maxAttempts == 1 && body.kind == Compensate
               && body.commitment.body.token == "token"
    ensures Plan(cfg, v, REMEDY_TURN.segment, 0) ==
              [Move(REMEDIATING, "REMEDY_STARTED",
                AttemptDetails(1, DigestReservation(cfg.crypto, v.rec.reservation.value))),
               CallsRemediate(RemediateCall(0, v.rec.proposal, v.rec.reservation.value, v.rec.remedyKey))]
  {
    hide DigestReservation, MoveAndClose;
  }

  const REMEDY_TURN := Turn(Remediating(ACTIVE, None), 0, 2)

  lemma OwingSays(cfg: Config, connector: Signer)
    ensures var rec := Owing(cfg, connector, REMEDY_DUE);
            && rec.state == REMEDY_DUE && rec.preflight.None? && rec.remedyAttempts == 0
            && rec.reservation == Some(ReservationFor(cfg, connector, DigestProposal(cfg.crypto, PROPOSAL)))
            && rec.(state := REMEDIATING, remedyAttempts := 1) == UnderRemedy(cfg, connector, REMEDIATING)
  {
    hide DigestProposal, MakePermit, EvidenceOf, ReservationFor;
  }

  lemma GoesRemedying(cfg: Config, connector: Signer, v: View)
    requires Stands(v, Owing(cfg, connector, REMEDY_DUE), multiset{})
    ensures Goes(cfg, v, REMEDY_TURN, UnderRemedy(cfg, connector, REMEDIATING), multiset{RemediateReply})
  {
    hide TakeTurn, DigestProposal, DigestReservation, ReservationFor, Plan, Owing, UnderRemedy;
    OwingSays(cfg, connector);
    ReservationSays(cfg, connector, DigestProposal(cfg.crypto, PROPOSAL));
    AttemptIsPlanned(cfg, v);
    TurnCalls(cfg, v, REMEDY_TURN,
      Move(REMEDIATING, "REMEDY_STARTED", AttemptDetails(1, DigestReservation(cfg.crypto, v.rec.reservation.value))),
      CallsRemediate(RemediateCall(0, v.rec.proposal, v.rec.reservation.value, v.rec.remedyKey)));
  }

  const LOST_TURN := Turn(RemedyReplied(Threw(OtherFailure), ACTIVE), 0, 1)

  lemma LossIsPlanned(cfg: Config, v: View)
    requires v.rec.state == REMEDIATING
    ensures Plan(cfg, v, LOST_TURN.segment, 0) ==
              [Move(REMEDY_UNKNOWN, "REMEDY_EXECUTION_AMBIGUOUS", RemedyKeyReference(cfg.crypto, v.rec))]
  {
    hide RemedyKeyReference, MoveAndClose;
  }

  lemma LosesReply(cfg: Config, connector: Signer, v: View)
    requires Stands(v, UnderRemedy(cfg, connector, REMEDIATING), multiset{RemediateReply})
    ensures Goes(cfg, v, LOST_TURN, UnderRemedy(cfg, connector, REMEDY_UNKNOWN), multiset{})
  {
    hide Plan, TakeTurn, DigestProposal, MakePermit, ReservationFor, EvidenceOf, RemedyKeyReference;
    LossIsPlanned(cfg, v);
    TurnMoves(cfg, v, LOST_TURN, Move(REMEDY_UNKNOWN, "REMEDY_EXECUTION_AMBIGUOUS",
      RemedyKeyReference(cfg.crypto, v.rec)));
  }

  const ASK_TURN := Turn(ReconcilingRemedy, 0, 1)

  lemma QueryIsPlanned(cfg: Config, v: View)
    requires v.rec.state == REMEDY_UNKNOWN
    ensures Plan(cfg, v, ASK_TURN.segment, 0) == [Calls(RemedyStatusReply)]
  {
  }

  lemma Queries(cfg: Config, v: View)
    requires v.rec.state == REMEDY_UNKNOWN && v.clock == 0
    ensures Goes(cfg, v, ASK_TURN, v.rec, v.pending + multiset{RemedyStatusReply})
  {
    hide Apply, TakeTurn, Plan;
    QueryIsPlanned(cfg, v);
    PerformsPlan(cfg, v, ASK_TURN, [Calls(RemedyStatusReply)]);
    StepChanges(cfg, Entered(v, ASK_TURN.segment, 0), Calls(RemedyStatusReply));
  }

  // ----- The run -----

  lemma Begins(cfg: Config) returns (v: View)
    ensures v == Proposed(cfg, PROPOSAL, 0) && Stands(v, Start(cfg), multiset{})
    ensures Leads(cfg, [], [v], v)
  {
    hide NextEvent;
    FactIsRead();
    v := Proposed(cfg, PROPOSAL, 0);
  }

  /** Up to an open execution. */
  lemma ReachesExecution(cfg: Config, connector: Signer) returns (turns: seq<Turn>, views: seq<View>, v: View)
    requires Setting(cfg, connector)
    ensures Leads(cfg, turns, views, v) && Stands(v, Running(cfg, connector, EXECUTED), multiset{})
  {
    hide TakeTurn, Stands, Truthful, Leads, CanRun, Setting;
    v := Begins(cfg);
    turns, views := [], [v];
    Authorizes(cfg, connector, v);
    turns, views, v := Take(cfg, turns, views, v, AUTHORIZE_TURN, Granted(cfg), multiset{});
    Reserves(cfg, connector, v);
    turns, views, v := Take(cfg, turns, views, v, ReserveTurn(cfg, connector), Secured(cfg, connector), multiset{});
    Permits(cfg, connector, v);
    turns, views, v := Take(cfg, turns, views, v, PERMIT_TURN, Admitted(cfg, connector), multiset{});
    GoesExecuting(cfg, connector, v);
    turns, views, v := Take(cfg, turns, views, v, EXECUTE_TURN, Running(cfg, connector, EXECUTING),
      multiset{ExecuteReply});
    GoesExecuted(cfg, connector, v);
    turns, views, v := Take(cfg, turns, views, v, EXECUTED_TURN, Running(cfg, connector, EXECUTED), multiset{});
  }

  lemma Take(cfg: Config, turns: seq<Turn>, views: seq<View>, v: View, t: Turn, rec: Record, pending: multiset<Token>)
    returns (longer: seq<Turn>, more: seq<View>, w: View)
    requires Leads(cfg, turns, views, v) && Goes(cfg, v, t, rec, pending)
    ensures Leads(cfg, longer, more, w) && Stands(w, rec, pending)
  {
    hide TakeTurn, Stands, Truthful, Leads, CanRun;
    longer, more := GoOn(cfg, turns, views, v, t);
    w := TakeTurn(cfg, v, t);
  }

  /** Up to a remedy of unknown outcome, two calls of reconcileRemedy suspended. */
  lemma ReachesOverlap(cfg: Config, connector: Signer) returns (turns: seq<Turn>, views: seq<View>, v: View)
    requires Setting(cfg, connector)
    ensures Leads(cfg, turns, views, v)
    ensures Stands(v, UnderRemedy(cfg, connector, REMEDY_UNKNOWN), multiset{RemedyStatusReply, RemedyStatusReply})
  {
    hide TakeTurn, Truthful, Leads, CanRun, Setting, EvidenceOf, MakePermit, MakeReservation, DigestProposal;
    turns, views, v := ReachesExecution(cfg, connector);
    Verifies(cfg, connector, v);
    turns, views, v := Take(cfg, turns, views, v, VERIFY_TURN, Running(cfg, connector, VERIFYING),
      multiset{ObserveReply});
    Breaches(cfg, connector, v);
    turns, views, v := Take(cfg, turns, views, v, BreachTurn(cfg), Owing(cfg, connector, REMEDY_DUE), multiset{});
    GoesRemedying(cfg, connector, v);
    turns, views, v := Take(cfg, turns, views, v, REMEDY_TURN, UnderRemedy(cfg, connector, REMEDIATING),
      multiset{RemediateReply});
    LosesReply(cfg, connector, v);
    var unknown := UnderRemedy(cfg, connector, REMEDY_UNKNOWN);
    turns, views, v := Take(cfg, turns, views, v, LOST_TURN, unknown, multiset{});
    Queries(cfg, v);
    turns, views, v := Take(cfg, turns, views, v, ASK_TURN, unknown, multiset{} + multiset{RemedyStatusReply});
    Queries(cfg, v);
    turns, views, v := Take(cfg, turns, views, v, ASK_TURN, unknown,
      multiset{RemedyStatusReply} + multiset{RemedyStatusReply});
  }

  /** Whatever the keys and the digest, there is a truthful run that ends with a receipt whose
      bundles the verifier refuses. */
  lemma SomeRunSpoilsItsExport(cfg: Config, connector: Signer) returns (turns: seq<Turn>, views: seq<View>)
    requires Setting(cfg, connector)
    ensures Run(cfg, PROPOSAL, 0, turns, views) && TruthfulRun(turns, views)
    ensures views[|turns|].rec.receipt.Some? && !ExportAccepted(cfg, views[|turns|])
  {
    hide TakeTurn, ExportAccepted, ProposalValid;
    var v;
    turns, views, v := ReachesOverlap(cfg, connector);
    OverlapSpoilsExport(cfg, v, ACTIVE, ObserveThrew, 0);
    var v1 := TakeTurn(cfg, v, Confirmed(v, ACTIVE, 0));
    var v2 := TakeTurn(cfg, v1, Denied(v1, ACTIVE, 0));
    turns, views := GoOn(cfg, turns, views, v, Confirmed(v, ACTIVE, 0));
    turns, views := GoOn(cfg, turns, views, v1, Denied(v1, ACTIVE, 0));
    turns, views := GoOn(cfg, turns, views, v2, Turn(RemedyObserved(ObserveThrew, ACTIVE), 0, 1));
  }
}
