/** End to end over the refund processor: what every reachable world of rail and processor
    says about executions, compensation, failure and unknown results. */
module RefundEndToEnd {
  import opened RailStates
  import opened Artifacts
  import opened RailModel
  import opened RailInvariant
  import opened RailRuns
  import opened RailCalls
  import opened MockRecourse
  import opened RefundConnectors
  import opened RefundTruth
  import opened RefundWorlds
  import opened RefundProof

  // ----- Every event keeps the invariant -----

  lemma DigestIsOwn(cfg: Config, w: World, id: Id)
    requires AllGood(cfg, w.views) && id in w.views
    ensures DigestProposal(cfg.crypto, w.views[id].rec.proposal) == w.views[id].rec.actionDigest
  {
    assert Core(cfg, w.views[id]);
  }

  /** The action's view may become `v`. */
  ghost predicate MayBecome(cfg: Config, w: World, id: Id, v: View, book: Book) {
    && id in w.views && OnlyEnds(w.connector.book, book)
    && SameIdentity(w.views[id].rec, v.rec)
    && AllGood(cfg, w.views[id := v])
  }

  lemma ExecutedKeepsInv(cfg: Config, w: World, id: Id, v: View, book: Book, fault: ExecutionFault)
    requires Inv(cfg, w) && MayBecome(cfg, w, id, v, book) && HasExecuted(w.views[id], v)
    ensures Inv(cfg, CalledExecute(cfg, Put(w, id, v, book), id, fault, v.clock))
  {
    hide Core, AllGood, ActionsTrue;
    var u := CalledExecute(cfg, Put(w, id, v, book), id, fault, v.clock);
    ExecutionFacts(cfg, w, id, v);
    DigestIsOwn(cfg, w, id);
    var made, result, reply := ExecutionBinds(cfg, w, id, v, book, fault);
    if v.rec.proposal.idempotencyKey in w.connector.executionDigests {
      ConflictKeepsInv(cfg, w, u, id, v, ExecuteReply);
    } else {
      BindingKeepsInv(cfg, w, u, id, v, made, result, reply);
    }
  }

  /** The one execute call either binds the action's key or is refused as a conflict. */
  lemma ExecutionBinds(cfg: Config, w: World, id: Id, v: View, book: Book, fault: ExecutionFault)
    returns (made: seq<Refund>, result: ConnectorReply, reply: ConnectorReply)
    requires KeysMatch(w.connector) && id in w.views && OnlyEnds(w.connector.book, book)
             && SameIdentity(w.views[id].rec, v.rec)
    requires HasExecuted(w.views[id], v) && w.views[id].executeCalls == [] && AmountValid(v.rec.proposal.parameters)
    requires DigestProposal(cfg.crypto, v.rec.proposal) == v.rec.actionDigest
    requires !Bound(TruthOf(w.connector, w.views[id].rec))
    ensures var u := CalledExecute(cfg, Put(w, id, v, book), id, fault, v.clock);
            if v.rec.proposal.idempotencyKey in w.connector.executionDigests
            then Conflicting(w, u, id, v, ExecuteReply) else Binding(w, u, id, v, made, result, reply)
  {
    var u0, p := Put(w, id, v, book), v.rec.proposal;
    made, result := ExecuteOutcome(cfg.crypto, u0.connector, p, fault, v.clock, v);
    reply := Execute(cfg.crypto, u0.connector, p, p.idempotencyKey, fault, v.clock).1;
    var u := CalledExecute(cfg, u0, id, fault, v.clock);
    if p.idempotencyKey in w.connector.executionDigests {
      assert u.creators == w.creators;
    }
  }

  lemma ExecutionFacts(cfg: Config, w: World, id: Id, v: View)
    requires AllGood(cfg, w.views) && ActionsTrue(w) && KeysBoundOk(w) && KeysMatch(w.connector) && id in w.views
    requires HasExecuted(w.views[id], v) && SameIdentity(w.views[id].rec, v.rec)
    ensures w.views[id].executeCalls == [] && AmountValid(v.rec.proposal.parameters) && v.rec.receipt.None?
    ensures !Bound(TruthOf(w.connector, w.views[id].rec))
    ensures Tells(v, TruthOf(w.connector, w.views[id].rec))
  {
    assert Core(cfg, w.views[id]) && RecordTrue(w, id);
    PermittedHasNotExecuted(cfg, w.views[id]);
    NothingBoundYet(w, id);
    ExecutingTells(w.views[id], v, TruthOf(w.connector, w.views[id].rec), TruthOf(w.connector, w.views[id].rec));
  }

  lemma RemediedKeepsInv(cfg: Config, w: World, id: Id, v: View, book: Book, fault: RemedyFault, a: Answers)
    requires Inv(cfg, w) && MayBecome(cfg, w, id, v, book) && HasRemedied(w.views[id], v, a)
    requires a.probe == StatusReport(TokenHeld(w.views[id].rec), StatusAt(book, TokenHeld(w.views[id].rec), v.clock))
    ensures Inv(cfg, CalledRemediate(cfg, Put(w, id, v, book), id, fault, v.clock))
  {
    hide *;
    if v.rec.remedyKey in w.connector.remedyDigests {
      RefusedRemedyKeepsInv(cfg, w, id, v, book, fault, a);
    } else {
      BoundRemedyKeepsInv(cfg, w, id, v, book, fault, a);
    }
  }

  lemma RefusedRemedyKeepsInv(cfg: Config, w: World, id: Id, v: View, book: Book, fault: RemedyFault, a: Answers)
    requires Inv(cfg, w) && MayBecome(cfg, w, id, v, book) && HasRemedied(w.views[id], v, a)
    requires a.probe == StatusReport(TokenHeld(w.views[id].rec), StatusAt(book, TokenHeld(w.views[id].rec), v.clock))
    requires v.rec.remedyKey in w.connector.remedyDigests
    ensures Inv(cfg, CalledRemediate(cfg, Put(w, id, v, book), id, fault, v.clock))
  {
    hide Remediate, RecordTrue, EffectTrue, RecourseTrue;
    RemedyFacts(cfg, w, id, v, a);
    RemedyConflicts(cfg, w, id, v, book, fault, a);
    ConflictKeepsInv(cfg, w, CalledRemediate(cfg, Put(w, id, v, book), id, fault, v.clock), id, v, RemediateReply);
  }

  lemma BoundRemedyKeepsInv(cfg: Config, w: World, id: Id, v: View, book: Book, fault: RemedyFault, a: Answers)
    requires Inv(cfg, w) && MayBecome(cfg, w, id, v, book) && HasRemedied(w.views[id], v, a)
    requires a.probe == StatusReport(TokenHeld(w.views[id].rec), StatusAt(book, TokenHeld(w.views[id].rec), v.clock))
    requires v.rec.remedyKey !in w.connector.remedyDigests
    ensures Inv(cfg, CalledRemediate(cfg, Put(w, id, v, book), id, fault, v.clock))
  {
    hide Remediate, RecordTrue, EffectTrue, RecourseTrue;
    RemedyFacts(cfg, w, id, v, a);
    DigestIsOwn(cfg, w, id);
    OwnRefunds(w, id);
    var result, reply := RemedyBinds(cfg, w, id, v, book, fault, a);
    var u := CalledRemediate(cfg, Put(w, id, v, book), id, fault, v.clock);
    RemedyBindingKeepsInv(cfg, w, u, id, v, result, reply, v.clock);
  }

  /** The one remedy call binds the action's remedy key, unless another action has. */
  lemma RemedyBinds(cfg: Config, w: World, id: Id, v: View, book: Book, fault: RemedyFault, a: Answers)
    returns (result: ConnectorReply, reply: ConnectorReply)
    requires KeysMatch(w.connector) && id in w.views && OnlyEnds(w.connector.book, book)
             && SameIdentity(w.views[id].rec, v.rec)
    requires HasRemedied(w.views[id], v, a) && w.views[id].remediateCalls == []
    requires a.probe == StatusReport(TokenHeld(w.views[id].rec), StatusAt(book, TokenHeld(w.views[id].rec), v.clock))
    requires DigestProposal(cfg.crypto, v.rec.proposal) == v.rec.actionDigest
    requires v.rec.reservation.value.body.capability == VOID_DUPLICATE
    requires v.rec.remedyKey !in w.connector.remedyDigests
    requires OwnedAt(w.connector.refunds, v.rec.proposal) == MadeBy(w.creators, id) && |MadeBy(w.creators, id)| <= 2
    ensures RemedyBinding(w, CalledRemediate(cfg, Put(w, id, v, book), id, fault, v.clock), id, v, result, reply,
            v.clock)
  {
    hide Remediate, MadeBy, OwnedAt, StatusAt, RemedyBinding, OnlyEnds, Void;
    var c := w.connector.(book := book);
    var token := TokenHeld(v.rec);
    ActiveWhenProbed(book, token, v.clock, v.rec, a);
    result := RemediateOutcome(cfg.crypto, c, v.rec.proposal, token, v.rec.remedyKey, fault, v.clock);
    reply := Remediate(cfg.crypto, c, v.rec.proposal, VOID_DUPLICATE, token, v.rec.remedyKey, fault, v.clock).1;
    RemedyOutcomeBinds(w, CalledRemediate(cfg, Put(w, id, v, book), id, fault, v.clock), id, v, book, result, reply, a);
  }

  lemma RemedyOutcomeBinds(
      w: World, u: World, id: Id, v: View, book: Book, result: ConnectorReply, reply: ConnectorReply, a: Answers)
    requires KeysMatch(w.connector) && id in w.views && OnlyEnds(w.connector.book, book)
             && SameIdentity(w.views[id].rec, v.rec)
    requires HasRemedied(w.views[id], v, a) && w.views[id].remediateCalls == []
    requires v.rec.remedyKey !in w.connector.remedyDigests
    requires OwnedAt(w.connector.refunds, v.rec.proposal) == MadeBy(w.creators, id) && |MadeBy(w.creators, id)| <= 2
    requires TokenHeld(v.rec) in book && book[TokenHeld(v.rec)].status == StatusActive
    requires result.Replied? && result.key == v.rec.remedyKey && result.status in REMEDY_RESULTS
    requires reply == result || reply == Threw(OtherFailure)
    requires u.views == w.views[id := v] && u.creators == w.creators && u.reserved == w.reserved
    requires u.answers == w.answers + {Answer(id, RemediateReply, reply)}
    requires var c := w.connector.(book := book);
             var owned := OwnedAt(c.refunds, v.rec.proposal);
             var token := TokenHeld(v.rec);
             var remembered := RememberRemedy(c, v.rec.remedyKey, v.rec.actionDigest, result);
             if result.status == Remediated
             then
               && |owned| >= 2
               && u.connector == remembered.(refunds := Void(c.refunds, owned[|owned| - 1], v.clock),
                                             book := book[token := book[token].(status := StatusConsumed)])
             else u.connector == remembered
    ensures RemedyBinding(w, u, id, v, result, reply, v.clock)
  {
    hide MadeBy, OwnedAt, ReadStatus;
  }

  lemma ActiveWhenProbed(book: Book, token: string, now: Time, rec: Record, a: Answers)
    requires a.probe == StatusReport(token, StatusAt(book, token, now))
             && ReadStatus(rec, a.probe) == Some(StatusActive)
    ensures token in book && book[token].status == StatusActive
  {
  }

  lemma RemedyConflicts(cfg: Config, w: World, id: Id, v: View, book: Book, fault: RemedyFault, a: Answers)
    requires KeysMatch(w.connector) && id in w.views && OnlyEnds(w.connector.book, book)
             && SameIdentity(w.views[id].rec, v.rec)
    requires HasRemedied(w.views[id], v, a) && w.views[id].remediateCalls == []
    requires DigestProposal(cfg.crypto, v.rec.proposal) == v.rec.actionDigest
    requires var t := TruthOf(w.connector, w.views[id].rec); t.effect == Done && !RemedyBound(t)
    requires v.rec.remedyKey in w.connector.remedyDigests
    ensures Conflicting(w, CalledRemediate(cfg, Put(w, id, v, book), id, fault, v.clock), id, v, RemediateReply)
  {
  }

  lemma RemedyFacts(cfg: Config, w: World, id: Id, v: View, a: Answers)
    requires AllGood(cfg, w.views) && ActionsTrue(w) && KeysBoundOk(w) && KeysMatch(w.connector) && id in w.views
    requires HasRemedied(w.views[id], v, a) && SameIdentity(w.views[id].rec, v.rec)
    ensures var t := TruthOf(w.connector, w.views[id].rec);
            && w.views[id].remediateCalls == [] && v.rec.receipt.None?
            && v.rec.reservation.value.body.capability == VOID_DUPLICATE
            && t.effect == Done && !RemedyBound(t) && Tells(v, t)
  {
    assert Core(cfg, w.views[id]) && RecordTrue(w, id);
    RemedyDueHasNotRemedied(cfg, w.views[id]);
    NothingBoundYet(w, id);
    var t := TruthOf(w.connector, w.views[id].rec);
    RemediatingTells(w.views[id], v, t, t);
  }

  lemma OwnRefunds(w: World, id: Id)
    requires ActionsTrue(w) && CreatorsOk(w) && id in w.views
    requires TruthOf(w.connector, w.views[id].rec).effect == Done
             && TruthOf(w.connector, w.views[id].rec).remedy != Remedied
    ensures OwnedAt(w.connector.refunds, w.views[id].rec.proposal) == MadeBy(w.creators, id)
            && |MadeBy(w.creators, id)| <= 2
  {
    IdentitiesFollow(w);
    OwnRefundsAreFound(w, id);
    assert EffectTrue(w, id);
  }

  lemma ReservedKeepsInv(cfg: Config, signer: Signer, w: World, id: Id, v: View, book: Book, r: RecourseRequest,
      now: Time, m: Commitment)
    requires Inv(cfg, w) && MayBecome(cfg, w, id, v, book) && w.views[id].rec.state == AUTHORIZED
    requires Offered(cfg.crypto, signer, w.views[id].rec.proposal, r, now) == Some(m)
    requires ReservedOutcome(cfg, w.views[id], v, r, m, now)
    ensures Inv(cfg, Reserve(Put(w, id, v, book), id, r, m))
  {
    assert Core(cfg, w.views[id]);
    AuthorizedHasNotCalled(cfg, w.views[id]);
    ReservedIsReserving(cfg, signer, w, id, v, book, r, now, m);
    ReservingKeepsInv(cfg, w, Reserve(Put(w, id, v, book), id, r, m), id, v, m.body.token);
  }

  lemma ReservedIsReserving(cfg: Config, signer: Signer, w: World, id: Id, v: View, book: Book, r: RecourseRequest,
      now: Time, m: Commitment)
    requires id in w.views && OnlyEnds(w.connector.book, book) && SameIdentity(w.views[id].rec, v.rec)
    requires Core(cfg, w.views[id]) && w.views[id].executeCalls == [] && w.views[id].remediateCalls == []
    requires Offered(cfg.crypto, signer, w.views[id].rec.proposal, r, now) == Some(m)
    requires ReservedOutcome(cfg, w.views[id], v, r, m, now)
    ensures ReservationMade(w, Reserve(Put(w, id, v, book), id, r, m), id, v, m.body.token)
  {
    hide Core, LogAgrees;
    ReservedIsRefund(cfg, w.views[id]);
  }

  ghost predicate ReservedOutcome(cfg: Config, v: View, w: View, r: RecourseRequest, m: Commitment, now: Time) {
    && w.executeCalls == v.executeCalls && w.remediateCalls == v.remediateCalls
    && w.rec.state in {AUTHORIZED, RECOURSE_RESERVED} && w.pending == v.pending && w.rec.receipt.None?
    && (w.rec.reservation.Some? ==> w.rec.reservation == Some(MakeReservation(cfg, r, m, now)))
  }

  /** A turn that asks for recourse ends authorized or reserved. */
  lemma ReservingOutcome(cfg: Config, v: View, turn: Turn)
    requires turn.segment.Reserving? && turn.segment.commitment.Some?
    requires v.rec.state == AUTHORIZED && v.rec.reservation.None? && v.rec.receipt.None?
    ensures ReservedOutcome(cfg, v, TakeTurn(cfg, v, turn), turn.segment.request, turn.segment.commitment.value,
            turn.now)
  {
    var entered := v.(clock := turn.now);
    var plan := Plan(cfg, v, turn.segment, turn.now);
    var steps := plan[..if turn.performed <= |plan| then turn.performed else |plan|];
    if steps == [] {
      assert ApplyAll(cfg, entered, steps) == entered;
    } else {
      assert steps == plan && plan[..0] == [];
      assert ApplyAll(cfg, entered, plan) == Apply(cfg, entered, plan[0]);
    }
  }

  /** A reply that has been given is true when it arrives. */
  lemma GenuineIsInformed(cfg: Config, signer: Signer, w: World, e: WorldEvent)
    requires e.Acting? && Genuine(cfg, signer, w, e) && AnswersTrue(w)
    ensures Informed(w.views[e.id].rec, e.turn.segment, TruthOf(w.connector, w.views[e.id].rec))
  {
    match e.turn.segment {
      case ExecuteReplied(reply, _, _) =>
        assert AnswerTrue(w.connector, w.views[e.id], Answer(e.id, ExecuteReply, reply));
      case Reconciled(reply, _) => assert AnswerTrue(w.connector, w.views[e.id], Answer(e.id, StatusReply, reply));
      case RemedyReplied(reply, _) =>
        assert AnswerTrue(w.connector, w.views[e.id], Answer(e.id, RemediateReply, reply));
      case RemedyReconciled(reply, _) =>
        assert AnswerTrue(w.connector, w.views[e.id], Answer(e.id, RemedyStatusReply, reply));
      case _ =>
    }
  }

  /** A turn that changes no recourse and makes no call with an effect. */
  lemma QuietServiceKeepsInv(
      cfg: Config, w: World, id: Id, v: View, book: Book, s: Segment, executionFault: ExecutionFault,
        remedyFault: RemedyFault, now: Time)
    requires Inv(cfg, w) && MayBecome(cfg, w, id, v, book)
    requires SameRecourse(w.views[id], v) && Tells(v, TruthOf(w.connector, w.views[id].rec))
    requires !(AsksToReserve(w.views[id], s, now) && s.commitment.Some?)
    ensures Inv(cfg, Serve(cfg, w.views[id], Put(w, id, v, book), id, s, executionFault, remedyFault, now))
  {
    hide Core, Orderly, ActionsTrue, AnswersTrue, KeysBoundOk, CreatorsOk;
    var u := Put(w, id, v, book);
    QuietKeepsInv(cfg, w, u, id, v);
    var served := Serve(cfg, w.views[id], u, id, s, executionFault, remedyFault, now);
    QuietServes(cfg, w, u, id, s, executionFault, remedyFault, now);
    if served == Ask(u, id, StatusReply) && StatusReply in u.views[id].pending {
      AskingKeepsInv(cfg, u, id, StatusReply);
    } else if served != u {
      AskingKeepsInv(cfg, u, id, RemedyStatusReply);
    }
  }

  lemma QuietServes(
      cfg: Config, w: World, u: World, id: Id, s: Segment, executionFault: ExecutionFault, remedyFault: RemedyFault,
        now: Time)
    requires id in w.views && id in u.views && KeysMatch(u.connector) && SameRecourse(w.views[id], u.views[id])
    requires !(AsksToReserve(w.views[id], s, now) && s.commitment.Some?)
    ensures var served := Serve(cfg, w.views[id], u, id, s, executionFault, remedyFault, now);
            || served == u
            || (served == Ask(u, id, StatusReply) && StatusReply in u.views[id].pending)
            || (served == Ask(u, id, RemedyStatusReply) && RemedyStatusReply in u.views[id].pending)
  {
  }

  /** What one turn of an action has come to, as far as the processor is concerned. */
  ghost predicate TurnOutcome(cfg: Config, w: World, id: Id, v: View, turn: Turn)
    requires id in w.views
  {
    var v0 := w.views[id];
    var s := turn.segment;
    if AsksToReserve(v0, s, turn.now)
      && s.commitment.Some? then ReservedOutcome(cfg, v0, v, s.request, s.commitment.value, turn.now)
    else if s.Executing? && HasExecuted(v0, v) then true
    else if s.Remediating? && HasRemedied(v0, v, s.answers) then true
    else SameRecourse(v0, v) && Tells(v, TruthOf(w.connector, v0.rec))
  }

  lemma TurnHasOutcome(cfg: Config, signer: Signer, w: World, e: WorldEvent)
    requires e.Acting? && Genuine(cfg, signer, w, e) && AnswersTrue(w) && ActionsTrue(w) && AllGood(cfg, w.views)
    ensures TurnOutcome(cfg, w, e.id, TakeTurn(cfg, w.views[e.id], e.turn), e.turn)
  {
    hide TakeTurn, Plan, Core, EffectTrue, Offered, Tells, TruthOf, OnlyEnds, HasRemedied, CanRun, RecourseTrue,
         ProposalValid;
    var v, s := w.views[e.id], e.turn.segment;
    TurnKeepsIdentity(cfg, v, e.turn);
    GenuineIsInformed(cfg, signer, w, e);
    assert RecordTrue(w, e.id);
    TurnKeepsTelling(cfg, v, e.turn, TruthOf(w.connector, v.rec));
    if s.Reserving? {
      if AsksToReserve(v, s, e.turn.now) && s.commitment.Some? {
        AuthorizedHasNotCalled(cfg, v);
        ReservingOutcome(cfg, v, e.turn);
      } else {
        ReservingTurn(cfg, v, e.turn);
      }
    } else if s.Executing? {
      ExecutingTurn(cfg, v, e.turn);
    } else if s.Remediating? {
      RemediatingTurn(cfg, v, e.turn);
    }
  }

  /** The processor's own answers stand behind a reservation and a remedy. */
  ghost predicate Backed(cfg: Config, signer: Signer, w: World, id: Id, v: View, turn: Turn, book: Book)
    requires id in w.views
  {
    var v0, s := w.views[id], turn.segment;
    && (AsksToReserve(v0, s, turn.now) ==>
         s.commitment == Offered(cfg.crypto, signer, v0.rec.proposal, s.request, turn.now))
    && (s.Remediating? && HasRemedied(v0, v, s.answers) ==>
          s.answers.probe == StatusReport(TokenHeld(v0.rec), StatusAt(book, TokenHeld(v0.rec), turn.now)))
  }

  lemma ServiceKeepsInv(cfg: Config, signer: Signer, w: World, id: Id, v: View, turn: Turn, book: Book,
                        executionFault: ExecutionFault, remedyFault: RemedyFault)
    requires Inv(cfg, w) && MayBecome(cfg, w, id, v, book) && v.clock == turn.now
    requires TurnOutcome(cfg, w, id, v, turn) && Backed(cfg, signer, w, id, v, turn, book)
    ensures Inv(cfg, Serve(cfg, w.views[id], Put(w, id, v, book), id, turn.segment, executionFault, remedyFault,
            turn.now))
  {
    var v0, s := w.views[id], turn.segment;
    EffectServes(cfg, v0, Put(w, id, v, book), id, s, executionFault, remedyFault, turn.now);
    if AsksToReserve(v0, s, turn.now) && s.commitment.Some? {
      ReservedKeepsInv(cfg, signer, w, id, v, book, s.request, turn.now, s.commitment.value);
    } else if s.Executing? && HasExecuted(v0, v) {
      ExecutedKeepsInv(cfg, w, id, v, book, executionFault);
    } else if s.Remediating? && HasRemedied(v0, v, s.answers) {
      RemediedKeepsInv(cfg, w, id, v, book, remedyFault, s.answers);
    } else {
      QuietServiceKeepsInv(cfg, w, id, v, book, s, executionFault, remedyFault, turn.now);
    }
  }

  lemma EffectServes(
      cfg: Config, v: View, u: World, id: Id, s: Segment, executionFault: ExecutionFault, remedyFault: RemedyFault,
        now: Time)
    requires id in u.views && KeysMatch(u.connector)
    ensures var served := Serve(cfg, v, u, id, s, executionFault, remedyFault, now);
            && (AsksToReserve(v, s, now) && s.commitment.Some? ==>
                 served == Reserve(u, id, s.request, s.commitment.value))
            && (s.Executing? && HasExecuted(v, u.views[id]) ==>
                 served == CalledExecute(cfg, u, id, executionFault, now))
            && (s.Remediating? && HasRemedied(v, u.views[id], s.answers) ==>
                 served == CalledRemediate(cfg, u, id, remedyFault, now))
  {
  }

  lemma EventKeepsInv(cfg: Config, signer: Signer, w: World, e: WorldEvent)
    requires SoundSignatures(cfg.crypto) && Inv(cfg, w) && Genuine(cfg, signer, w, e)
    ensures Inv(cfg, After(cfg, signer, w, e))
  {
    match e {
      case Proposing(p, now) => ProposingKeepsInv(cfg, w, p, now);
      case Acting(id, turn, book, executionFault, remedyFault) =>
        var v := TakeTurn(cfg, w.views[id], turn);
        TurnKeepsIdentity(cfg, w.views[id], turn);
        GoodStaysGood(cfg, w, id, turn);
        TurnHasOutcome(cfg, signer, w, e);
        GenuineIsBacked(cfg, signer, w, e);
        ServiceKeepsInv(cfg, signer, w, id, v, turn, book, executionFault, remedyFault);
    }
  }

  lemma GenuineIsBacked(cfg: Config, signer: Signer, w: World, e: WorldEvent)
    requires e.Acting? && Genuine(cfg, signer, w, e)
    ensures Backed(cfg, signer, w, e.id, TakeTurn(cfg, w.views[e.id], e.turn), e.turn, e.book)
  {
    hide TakeTurn, Plan, SegmentPlan, TokenHeld, ApplyAll, CanRun, ReadStatus, DigestProposal;
  }

  // ----- New actions -----

  lemma ProposingKeepsInv(cfg: Config, w: World, p: Proposal, now: Time)
    requires SoundSignatures(cfg.crypto) && Inv(cfg, w) && ProposalValid(p, now)
    requires Proposed(cfg, p, now).rec.actionId !in w.views
    ensures Inv(cfg, w.(views := w.views[Proposed(cfg, p, now).rec.actionId := Proposed(cfg, p, now)]))
  {
    var v := Proposed(cfg, p, now);
    ProposedIsGood(cfg, p, now);
    NewActionKeepsInv(cfg, w, v.rec.actionId, v);
  }

  lemma NewActionKeepsInv(cfg: Config, w: World, id: Id, v: View)
    requires Inv(cfg, w) && id !in w.views && Core(cfg, v)
    requires v.rec.actionId == id == IdOf(v.rec.actionDigest) && v.rec.state == PROPOSED
    requires v.rec.reservation.None? && v.rec.receipt.None? && v.pending == multiset{} && v.executeCalls == []
             && v.remediateCalls == []
    ensures Inv(cfg, w.(views := w.views[id := v]))
  {
    var u := w.(views := w.views[id := v]);
    assert AllGood(cfg, u.views);
    NewActionIsUnbound(w, id, v);
    NewActionKeepsActions(w, id, v);
    NewActionKeepsAnswers(w, id, v);
  }

  lemma NewActionKeepsAnswers(w: World, id: Id, v: View)
    requires AnswersTrue(w) && id !in w.views
    ensures AnswersTrue(w.(views := w.views[id := v]))
  {
    var u := w.(views := w.views[id := v]);
    forall a <- u.answers
      ensures a.id in u.views && AnswerTrue(u.connector, u.views[a.id], a)
    {
      assert a in w.answers && a.id in w.views;
    }
  }

  lemma NewActionIsUnbound(w: World, id: Id, v: View)
    requires KeysBoundOk(w) && CreatorsOk(w) && id !in w.views && id == IdOf(v.rec.actionDigest)
    ensures var u := w.(views := w.views[id := v]); KeysBoundOk(u) && CreatorsOk(u)
    ensures !Bound(TruthOf(w.connector, v.rec)) && !RemedyBound(TruthOf(w.connector, v.rec))
    ensures MadeBy(w.creators, id) == []
  {
    MadeByNobody(w.creators, id);
  }

  lemma {:induction false} MadeByNobody(creators: seq<Id>, id: Id)
    requires id !in creators
    ensures MadeBy(creators, id) == []
    decreases |creators|
  {
    if creators != [] {
      MadeByNobody(creators[..|creators| - 1], id);
    }
  }

  lemma NewActionKeepsActions(w: World, id: Id, v: View)
    requires ActionsTrue(w) && id !in w.views && v.rec.actionId == id == IdOf(v.rec.actionDigest)
             && v.rec.state == PROPOSED
    requires v.rec.reservation.None? && v.rec.receipt.None? && v.pending == multiset{} && v.remediateCalls == []
    requires !Bound(TruthOf(w.connector, v.rec)) && !RemedyBound(TruthOf(w.connector, v.rec))
             && MadeBy(w.creators, id) == []
    ensures ActionsTrue(w.(views := w.views[id := v]))
  {
    var u := w.(views := w.views[id := v]);
    forall other <- u.views
      ensures RecordTrue(u, other) && EffectTrue(u, other) && RecourseTrue(u, other)
    {
      if other != id {
        assert other in w.views && RecordTrue(w, other) && EffectTrue(w, other) && RecourseTrue(w, other);
      }
    }
  }

  // ----- Reachable worlds -----

  /** A run of rail and processor from nothing. */
  ghost predicate WorldRun(cfg: Config, signer: Signer, events: seq<WorldEvent>, worlds: seq<World>) {
    && |worlds| == |events| + 1
    && worlds[0] == Empty()
    && forall i :: 0 <= i < |events| ==>
         KeysMatch(worlds[i].connector) && Genuine(cfg, signer, worlds[i], events[i]) &&
         worlds[i + 1] == After(cfg, signer, worlds[i], events[i])
  }

  lemma NothingIsSound(cfg: Config)
    ensures Inv(cfg, Empty())
  {
    hide Core;
  }

  lemma {:induction false} WorldsKeepInv(cfg: Config, signer: Signer, events: seq<WorldEvent>, worlds: seq<World>,
      i: nat)
    requires SoundSignatures(cfg.crypto) && WorldRun(cfg, signer, events, worlds) && i <= |events|
    ensures Inv(cfg, worlds[i])
  {
    hide Inv, Genuine, After;
    if i == 0 {
      NothingIsSound(cfg);
    } else {
      WorldsKeepInv(cfg, signer, events, worlds, i - 1);
      EventKeepsInv(cfg, signer, worlds[i - 1], events[i - 1]);
    }
  }

  /** Every run goes on with any genuine event: a run never loses a binding it needs. */
  lemma RunsExtend(cfg: Config, signer: Signer, events: seq<WorldEvent>, worlds: seq<World>, e: WorldEvent)
    requires SoundSignatures(cfg.crypto) && WorldRun(cfg, signer, events, worlds)
    requires Genuine(cfg, signer, worlds[|events|], e)
    ensures KeysMatch(worlds[|events|].connector)
    ensures WorldRun(cfg, signer, events + [e], worlds + [After(cfg, signer, worlds[|events|], e)])
  {
    hide Core, Genuine, After;
    WorldsKeepInv(cfg, signer, events, worlds, |events|);
  }

  // ----- What every reachable world says -----

  /** Each refund was created in the one execute call of its action, at its time, for its order
      and amount; an action creates at most a primary refund and a duplicate. */
  lemma RefundsComeFromOneExecution(
      cfg: Config, signer: Signer, events: seq<WorldEvent>, worlds: seq<World>, i: nat, k: nat)
    requires SoundSignatures(cfg.crypto) && WorldRun(cfg, signer, events, worlds) && i <= |events|
    requires k < |worlds[i].connector.refunds|
    ensures var w := worlds[i];
            && |w.creators| == |w.connector.refunds| && w.creators[k] in w.views
            && CreatedFor(w.connector.refunds[k], w.views[w.creators[k]])
            && |MadeBy(w.creators, w.creators[k])| <= 2
  {
    WorldsKeepInv(cfg, signer, events, worlds, i);
    var w := worlds[i];
    assert w.creators[k] in w.views && EffectTrue(w, w.creators[k]);
  }

  predicate ExecutedAs(c: RefundState, key: string, refundId: string) {
    key in c.executions && c.executions[key].Replied? && c.executions[key].externalId == Some(refundId)
  }

  // ----- Two actions with one token -----

  /** The digests that name the reservation tokens of two requests differ in what they digest and
      agree in their first 24 characters. */
  predicate TokensCollide(c: Crypto, a: Record, r: RecourseRequest, b: Record, s: RecourseRequest) {
    var first := TokenA(a.actionDigest, r.capability, r.expiresAt, r.scope);
    var second := TokenA(b.actionDigest, s.capability, s.expiresAt, s.scope);
    first != second && Prefix24(c.digest(first)) == Prefix24(c.digest(second))
  }

  /** Another action asked for recourse and was given the token `id` was given: their requests
      are a collision of the shortened digest. */
  ghost predicate CollidesWithAnother(c: Crypto, w: World, id: Id)
    requires id in w.views
  {
    exists other, r, s ::
      && other in w.views && other != id && (id, r) in w.requests && (other, s) in w.requests
      && TokensCollide(c, w.views[id].rec, r, w.views[other].rec, s)
  }

  /** A token was made for a request of the action it was given to. */
  ghost predicate Requested(c: Crypto, w: World, token: string, id: Id) {
    && id in w.views
    && exists r :: (id, r) in w.requests && token == TokenOf(c, w.views[id].rec.actionDigest, r)
  }

  ghost predicate TokensRequested(c: Crypto, w: World) {
    forall token, id | (token, id) in w.reserved :: Requested(c, w, token, id)
  }

  /** Records keep their identity, requests are kept. */
  ghost predicate Keeps(w: World, u: World) {
    && w.requests <= u.requests
    && forall id <- w.views :: id in u.views && SameIdentity(w.views[id].rec, u.views[id].rec)
  }

  lemma StaysRequested(c: Crypto, w: World, u: World, token: string, id: Id)
    requires Keeps(w, u) && Requested(c, w, token, id)
    ensures Requested(c, u, token, id)
  {
    var r :| (id, r) in w.requests && token == TokenOf(c, w.views[id].rec.actionDigest, r);
    assert (id, r) in u.requests;
  }

  lemma ServiceKeeps(
      cfg: Config, v: View, u: World, id: Id, s: Segment, executionFault: ExecutionFault, remedyFault: RemedyFault,
        now: Time)
    requires id in u.views && KeysMatch(u.connector)
    ensures var served := Serve(cfg, v, u, id, s, executionFault, remedyFault, now);
            && served.views == u.views
            && (if AsksToReserve(v, s, now) && s.commitment.Some?
                then served.requests == u.requests + {(id, s.request)}
                  && served.reserved == u.reserved + {(s.commitment.value.body.token, id)}
                else served.requests == u.requests && served.reserved == u.reserved)
  {
    hide Execute, Remediate, AsksToReserve, CallsOut;
  }

  lemma EventKeepsRequests(cfg: Config, signer: Signer, w: World, e: WorldEvent)
    requires KeysMatch(w.connector) && Genuine(cfg, signer, w, e) && TokensRequested(cfg.crypto, w)
    ensures TokensRequested(cfg.crypto, After(cfg, signer, w, e))
  {
    hide TakeTurn, CanRun, OnlyEnds, Serve, CanReserve, Proposed, ProposalValid, Requested, TokenOf, CallsOut;
    var u := After(cfg, signer, w, e);
    match e {
      case Proposing(p, now) => assert Keeps(w, u);
      case Acting(id, turn, book, executionFault, remedyFault) =>
        TurnKeepsIdentity(cfg, w.views[id], turn);
        var put := Put(w, id, TakeTurn(cfg, w.views[id], turn), book);
        ServiceKeeps(cfg, w.views[id], put, id, turn.segment, executionFault, remedyFault, turn.now);
        assert Keeps(w, u);
        if AsksToReserve(w.views[id], turn.segment, turn.now) && turn.segment.commitment.Some? {
          GivenIsRequested(cfg.crypto, signer, w.views[id].rec, u, id, turn.segment.request, turn.now,
            turn.segment.commitment.value);
        }
    }
    forall token, id | (token, id) in w.reserved
      ensures Requested(cfg.crypto, u, token, id)
    {
      StaysRequested(cfg.crypto, w, u, token, id);
    }
  }

  lemma GivenIsRequested(c: Crypto, signer: Signer, rec: Record, u: World, id: Id, r: RecourseRequest, now: Time,
      m: Commitment)
    requires Offered(c, signer, rec.proposal, r, now) == Some(m) && r.actionDigest == rec.actionDigest
    requires id in u.views && u.views[id].rec.actionDigest == rec.actionDigest && (id, r) in u.requests
    ensures Requested(c, u, m.body.token, id)
  {
  }

  lemma {:induction false} WorldsKeepRequests(cfg: Config, signer: Signer, events: seq<WorldEvent>, worlds: seq<World>,
      i: nat)
    requires WorldRun(cfg, signer, events, worlds) && i <= |events|
    ensures TokensRequested(cfg.crypto, worlds[i])
  {
    hide Genuine, After, Requested, KeysMatch;
    if i > 0 {
      WorldsKeepRequests(cfg, signer, events, worlds, i - 1);
      EventKeepsRequests(cfg, signer, worlds[i - 1], events[i - 1]);
    }
  }

  lemma SharedTokenCollides(cfg: Config, w: World, id: Id, token: string)
    requires TokensRequested(cfg.crypto, w) && ActionsTrue(w)
    requires (token, id) in w.reserved && SharedToken(w, token, id)
    ensures id in w.views && CollidesWithAnother(cfg.crypto, w, id)
  {
    hide Tells, TruthOf, EffectTrue, RecourseTrue, Prefix20, Prefix24;
    var other :| other != id && (token, other) in w.reserved;
    assert Requested(cfg.crypto, w, token, id) && Requested(cfg.crypto, w, token, other);
    assert RecordTrue(w, id) && RecordTrue(w, other);
    var a, b := w.views[id].rec, w.views[other].rec;
    var r :| (id, r) in w.requests && token == TokenOf(cfg.crypto, a.actionDigest, r);
    var s :| (other, s) in w.requests && token == TokenOf(cfg.crypto, b.actionDigest, s);
    assert token[4..] == Prefix24(cfg.crypto.digest(TokenA(a.actionDigest, r.capability, r.expiresAt, r.scope)));
    assert token[4..] == Prefix24(cfg.crypto.digest(TokenA(b.actionDigest, s.capability, s.expiresAt, s.scope)));
    assert TokensCollide(cfg.crypto, a, r, b, s);
  }

  /** The action created a primary refund, still active and the one its key answers with, and one
      duplicate, voided. */
  predicate OnlyPrimaryActive(w: World, id: Id)
    requires id in w.views
  {
    var at := MadeBy(w.creators, id);
    && |at| == 2 && |w.creators| == |w.connector.refunds|
    && w.connector.refunds[at[0]].active && !w.connector.refunds[at[1]].active
    && ExecutedAs(w.connector, w.views[id].rec.proposal.idempotencyKey, w.connector.refunds[at[0]].refundId)
  }

  /** Compensated means the primary refund is still active, the duplicate and nothing else of
      the action is voided, and the reservation is consumed, unless another action's request
      collides with this one's in the first 24 characters of the digest that names the token. */
  lemma CompensatedMeansOnlyPrimaryActive(
      cfg: Config, signer: Signer, events: seq<WorldEvent>, worlds: seq<World>, i: nat, id: Id)
    requires SoundSignatures(cfg.crypto) && WorldRun(cfg, signer, events, worlds) && i <= |events|
    requires id in worlds[i].views && worlds[i].views[id].rec.receipt.Some?
    requires worlds[i].views[id].rec.receipt.value.body.outcome == Compensated
    ensures var w := worlds[i];
            var rec := w.views[id].rec;
            && OnlyPrimaryActive(w, id)
            && rec.reservation.Some?
            && (CollidesWithAnother(cfg.crypto, w, id) ||
                (TokenHeld(rec) in w.connector.book && w.connector.book[TokenHeld(rec)].status == StatusConsumed))
  {
    hide Core, SharedToken, Genuine, After, KeysMatch, CollidesWithAnother, TokensRequested, AnswersTrue, KeysBoundOk,
         ActionsTrue, AllGood, ContentOk, CreatorsOk, OnlyPrimaryActive, MadeBy;
    WorldsKeepInv(cfg, signer, events, worlds, i);
    var w := worlds[i];
    CompensatedIsRemedied(cfg, w, id);
    if SharedToken(w, TokenHeld(w.views[id].rec), id) {
      WorldsKeepRequests(cfg, signer, events, worlds, i);
      SharedTokenCollides(cfg, w, id, TokenHeld(w.views[id].rec));
    }
  }

  lemma CompensatedIsRemedied(cfg: Config, w: World, id: Id)
    requires AllGood(cfg, w.views) && ContentOk(w.connector) && ActionsTrue(w)
    requires id in w.views && w.views[id].rec.receipt.Some? && w.views[id].rec.receipt.value.body.outcome == Compensated
    ensures var rec := w.views[id].rec;
            && OnlyPrimaryActive(w, id)
            && rec.reservation.Some? && (TokenHeld(rec), id) in w.reserved
            && (SharedToken(w, TokenHeld(rec), id) ||
                (TokenHeld(rec) in w.connector.book && w.connector.book[TokenHeld(rec)].status == StatusConsumed))
  {
    hide Core, Orderly, SharedToken;
    assert RecordTrue(w, id) && EffectTrue(w, id) && RecourseTrue(w, id);
    ReceiptNeedsReservation(cfg, w.views[id]);
  }

  lemma ReceiptNeedsReservation(cfg: Config, v: View)
    requires Core(cfg, v) && v.rec.receipt.Some?
    ensures v.rec.reservation.Some?
  {
  }

  /** FAILED means the action's execute call created no refund. */
  lemma FailedMeansNoEffect(cfg: Config, signer: Signer, events: seq<WorldEvent>, worlds: seq<World>, i: nat, id: Id)
    requires SoundSignatures(cfg.crypto) && WorldRun(cfg, signer, events, worlds) && i <= |events|
    requires id in worlds[i].views && worlds[i].views[id].rec.state == FAILED
    ensures id !in worlds[i].creators
  {
    hide Core, Orderly;
    WorldsKeepInv(cfg, signer, events, worlds, i);
    CreationMeansDone(worlds[i], id);
  }

  lemma CreationMeansDone(w: World, id: Id)
    requires ActionsTrue(w) && id in w.views
    ensures id in w.creators <==> TruthOf(w.connector, w.views[id].rec).effect == Done
    ensures Says(w.views[id].rec.state, TruthOf(w.connector, w.views[id].rec))
  {
    assert RecordTrue(w, id) && EffectTrue(w, id);
    var at := MadeBy(w.creators, id);
    assert at != [] ==> w.creators[at[0]] == id;
    if id in w.creators {
      var k :| 0 <= k < |w.creators| && w.creators[k] == id;
      CreatorHasMade(w.creators, k);
    }
  }

  /** Reconciling an unknown execution with the processor's answer always resolves it, and to
      the truth: EXECUTED exactly when a refund was created, FAILED exactly when none was. */
  lemma UnknownIsResolvedTruthfully(
      cfg: Config, signer: Signer, events: seq<WorldEvent>, worlds: seq<World>, i: nat, id: Id, turn: Turn)
    requires SoundSignatures(cfg.crypto) && WorldRun(cfg, signer, events, worlds) && i <= |events|
    requires id in worlds[i].views && worlds[i].views[id].rec.state == UNKNOWN
    requires turn.segment.Reconciled? && Answer(id, StatusReply, turn.segment.reply) in worlds[i].answers
    requires turn.performed > 0
    ensures var after := TakeTurn(cfg, worlds[i].views[id], turn).rec.state;
            if id in worlds[i].creators then after == EXECUTED else after == FAILED
  {
    WorldsKeepInv(cfg, signer, events, worlds, i);
    CreationMeansDone(worlds[i], id);
    StatusIsDefinite(worlds[i], id, turn.segment.reply);
    ReconciledState(cfg, worlds[i].views[id], turn);
  }

  lemma StatusIsDefinite(w: World, id: Id, reply: ConnectorReply)
    requires AnswersTrue(w) && id in w.views && Answer(id, StatusReply, reply) in w.answers
    ensures DefiniteStatus(w.views[id].rec, reply)
    ensures reply.status == Executed <==> TruthOf(w.connector, w.views[id].rec).effect == Done
  {
    assert AnswerTrue(w.connector, w.views[id], Answer(id, StatusReply, reply));
  }

  lemma ReconciledState(cfg: Config, v: View, turn: Turn)
    requires turn.segment.Reconciled? && v.rec.state == UNKNOWN && turn.performed > 0
    requires DefiniteStatus(v.rec, turn.segment.reply)
    ensures TakeTurn(cfg, v, turn).rec.state == if turn.segment.reply.status == Executed then EXECUTED else FAILED
  {
    hide Apply, DefiniteStatus, ApplyAll, Awaits;
    var entered := Entered(v, turn.segment, turn.now);
    var plan := ReconcilePlanShape(cfg, entered, turn.segment.reply, turn.segment.answers);
    PrefixState(cfg, entered, plan, if turn.performed <= |plan| then turn.performed else |plan|);
  }

  predicate DefiniteStatus(rec: Record, reply: ConnectorReply) {
    reply.Replied? && reply.key == rec.proposal.idempotencyKey && reply.status in {Executed, NoEffect}
  }

  lemma ReconcilePlanShape(cfg: Config, v: View, reply: ConnectorReply, a: Answers) returns (plan: seq<Step>)
    requires v.rec.state == UNKNOWN && DefiniteStatus(v.rec, reply)
    ensures plan == PlanReconcileReply(cfg, v, reply, a)
    ensures 1 <= |plan| <= 2 && plan[0].Move? && plan[0].to == if reply.status == Executed then EXECUTED else FAILED
    ensures |plan| == 2 ==> plan[1].RecordedRecourse?
  {
    plan := PlanReconcileReply(cfg, v, reply, a);
  }

  lemma PrefixState(cfg: Config, v: View, plan: seq<Step>, k: nat)
    requires 1 <= k <= |plan| <= 2 && plan[0].Move? && (|plan| == 2 ==> plan[1].RecordedRecourse?)
    ensures ApplyAll(cfg, v, plan[..k]).rec.state == plan[0].to
  {
    hide Apply;
    StepsRelate(cfg, v, plan[0]);
    if k == 1 {
      assert plan[..1] == [] + [plan[0]];
      ApplyOne(cfg, v, [], plan[0]);
    } else {
      StepsRelate(cfg, Apply(cfg, v, plan[0]), plan[1]);
      assert plan[..2] == [plan[0], plan[1]];
      ApplyTwo(cfg, v, plan[0], plan[1]);
    }
  }
}
