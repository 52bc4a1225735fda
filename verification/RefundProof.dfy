/** The rail and the refund processor stay in agreement, step by step. */
module RefundProof {
  import opened RailStates
  import opened Artifacts
  import opened Verify
  import opened VerifySoundness
  import opened RailModel
  import opened RailInvariant
  import opened RailRuns
  import opened RailCalls
  import opened MockRecourse
  import opened RefundConnectors
  import opened RefundTruth
  import opened RefundWorlds

  // ----- What a state says about the calls made so far -----

  /** A state that a record is still ahead of has not been entered. */
  lemma NotYetEntered(cfg: Config, v: View, s: State)
    requires LogAgrees(cfg, v) && Rank(v.rec.state) > Rank(s)
    ensures Times(v.rec.actionId, v.log, s) == 0
  {
    hide RecordedAgrees, Replay, LastState;
    var path := Replay(v.rec.actionId, v.log).value;
    ReplayReachesLastState(v.rec.actionId, v.log);
    VisitedAtMostOnce(path, s);
  }

  lemma AuthorizedHasNotCalled(cfg: Config, v: View)
    requires Core(cfg, v) && v.rec.state == AUTHORIZED
    ensures v.executeCalls == [] && v.remediateCalls == [] && v.rec.reservation.None? && v.rec.receipt.None?
  {
    hide ReservationGood, PermitGood, RecordedAgrees, Replay, LastState, Covered;
    NotYetEntered(cfg, v, EXECUTING);
    NotYetEntered(cfg, v, REMEDIATING);
  }

  lemma PermittedHasNotExecuted(cfg: Config, v: View)
    requires Core(cfg, v) && v.rec.state == PERMITTED
    ensures v.executeCalls == [] && v.rec.receipt.None?
  {
    NotYetEntered(cfg, v, EXECUTING);
  }

  lemma RemedyDueHasNotRemedied(cfg: Config, v: View)
    requires Core(cfg, v) && v.rec.state == REMEDY_DUE
    ensures v.remediateCalls == [] && v.rec.receipt.None?
  {
    hide ReservationGood, PermitGood, RecordedAgrees, Replay, LastState, Covered;
    NotYetEntered(cfg, v, REMEDIATING);
  }

  lemma ReservedIsRefund(cfg: Config, v: View)
    requires Core(cfg, v) && v.rec.proposal.parameters.RefundParameters?
    ensures AmountValid(v.rec.proposal.parameters)
  {
  }

  // ----- What survives when keys are bound by others -----

  /** Others may bind a key this action has not bound; nothing else changes for it. */
  predicate Grows(t: Truth, u: Truth) {
    && (u.effect == t.effect || (t.effect == Unbound && u.effect == ForeignEffect))
    && (u.remedy == t.remedy || (t.remedy == RemedyUnbound && u.remedy == ForeignRemedy))
  }

  lemma GrowthKeepsTelling(v: View, t: Truth, u: Truth)
    requires Tells(v, t) && Grows(t, u)
    ensures Tells(v, u)
  {
  }

  // ----- Turns that call nothing -----

  lemma GoodStaysGood(cfg: Config, w: World, id: Id, turn: Turn)
    requires SoundSignatures(cfg.crypto)
    requires AllGood(cfg, w.views) && id in w.views && CanRun(w.views[id], turn.segment, turn.now)
    ensures AllGood(cfg, w.views[id := TakeTurn(cfg, w.views[id], turn)])
  {
    hide Core, TakeTurn, CanRun;
    TurnKeepsGood(cfg, w.views[id], turn, false);
    var views := w.views[id := TakeTurn(cfg, w.views[id], turn)];
    forall other <- views
      ensures Core(cfg, views[other])
    {
      assert other == id || other in w.views;
    }
  }

  /** `u` differs from `w` only in one view, which keeps identity, calls and recourse, and in
      reservations that have ended. */
  ghost predicate Quiet(w: World, u: World, id: Id, v: View) {
    && id in w.views && u.views == w.views[id := v]
    && SameIdentity(w.views[id].rec, v.rec) && SameRecourse(w.views[id], v)
    && u.connector == w.connector.(book := u.connector.book) && OnlyEnds(w.connector.book, u.connector.book)
    && u.creators == w.creators && u.answers == w.answers && u.reserved == w.reserved
  }

  lemma QuietKeepsKeys(w: World, u: World, id: Id, v: View)
    requires Quiet(w, u, id, v) && KeysBoundOk(w)
    ensures KeysBoundOk(u)
  {
  }

  lemma QuietKeepsAnswers(w: World, u: World, id: Id, v: View)
    requires Quiet(w, u, id, v) && AnswersTrue(w)
    ensures AnswersTrue(u)
  {
    forall a <- u.answers
      ensures a.id in u.views && AnswerTrue(u.connector, u.views[a.id], a)
    {
      SameTruth(w.connector, u.connector, w.views[a.id].rec, u.views[a.id].rec);
      assert a in w.answers;
    }
  }

  lemma QuietKeepsCreators(w: World, u: World, id: Id, v: View)
    requires Quiet(w, u, id, v) && CreatorsOk(w)
    ensures CreatorsOk(u)
  {
  }

  lemma SameTruth(c: RefundState, d: RefundState, r: Record, s: Record)
    requires d == c.(book := d.book)
    requires SameIdentity(r, s) && r.remedyKey == s.remedyKey
    ensures TruthOf(c, r) == TruthOf(d, s)
  {
  }

  lemma QuietKeepsRecord(w: World, u: World, id: Id, v: View, other: Id)
    requires Quiet(w, u, id, v) && other in w.views && RecordTrue(w, other)
    requires other == id ==> Tells(v, TruthOf(w.connector, w.views[id].rec))
    ensures RecordTrue(u, other)
  {
    SameTruth(w.connector, u.connector, w.views[other].rec, u.views[other].rec);
  }

  lemma QuietKeepsEffect(w: World, u: World, id: Id, v: View, other: Id)
    requires Quiet(w, u, id, v) && other in w.views && |w.creators| == |w.connector.refunds| && EffectTrue(w, other)
    ensures EffectTrue(u, other)
  {
    SameTruth(w.connector, u.connector, w.views[other].rec, u.views[other].rec);
  }

  lemma QuietKeepsRecourse(w: World, u: World, id: Id, v: View, other: Id)
    requires Quiet(w, u, id, v) && other in w.views && RecourseTrue(w, other)
    ensures RecourseTrue(u, other)
  {
    SameTruth(w.connector, u.connector, w.views[other].rec, u.views[other].rec);
  }

  lemma QuietKeepsInv(cfg: Config, w: World, u: World, id: Id, v: View)
    requires Quiet(w, u, id, v) && Inv(cfg, w) && AllGood(cfg, u.views)
    requires Tells(v, TruthOf(w.connector, w.views[id].rec))
    ensures Inv(cfg, u)
  {
    QuietKeepsKeys(w, u, id, v);
    QuietKeepsAnswers(w, u, id, v);
    QuietKeepsCreators(w, u, id, v);
    QuietKeepsActions(w, u, id, v);
  }

  lemma QuietKeepsActions(w: World, u: World, id: Id, v: View)
    requires Quiet(w, u, id, v) && ActionsTrue(w)
    requires Tells(v, TruthOf(w.connector, w.views[id].rec))
    ensures ActionsTrue(u)
  {
    forall other <- u.views
      ensures RecordTrue(u, other) && EffectTrue(u, other) && RecourseTrue(u, other)
    {
      QuietKeepsRecord(w, u, id, v, other);
      QuietKeepsEffect(w, u, id, v, other);
      QuietKeepsRecourse(w, u, id, v, other);
    }
  }

  // ----- Status calls -----

  /** What the processor answers from its caches is true of the action that asks. */
  lemma AskingKeepsInv(cfg: Config, w: World, id: Id, token: Token)
    requires Inv(cfg, w) && id in w.views && token in w.views[id].pending
    requires token == StatusReply || token == RemedyStatusReply
    ensures Inv(cfg, Ask(w, id, token))
  {
    var rec := w.views[id].rec;
    var results := if token == StatusReply then w.connector.executions else w.connector.remedies;
    var answer := Answer(id, token, Cached(results, KeyOf(rec, token)));
    CacheIsTrue(w, id, token);
    AnswersExtend(w, answer);
    AnswersTouchNothing(w, answer);
  }

  lemma CacheIsTrue(w: World, id: Id, token: Token)
    requires ContentOk(w.connector) && ActionsTrue(w) && id in w.views && token in w.views[id].pending
    requires token == StatusReply || token == RemedyStatusReply
    ensures var rec := w.views[id].rec;
            var results := if token == StatusReply then w.connector.executions else w.connector.remedies;
            AnswerTrue(w.connector, w.views[id], Answer(id, token, Cached(results, KeyOf(rec, token))))
  {
    assert RecordTrue(w, id) && AwaitSays(token, TruthOf(w.connector, w.views[id].rec));
  }

  lemma AnswersTouchNothing(w: World, answer: Answer)
    requires KeysBoundOk(w) && CreatorsOk(w) && ActionsTrue(w)
    ensures var u := w.(answers := w.answers + {answer}); KeysBoundOk(u) && CreatorsOk(u) && ActionsTrue(u)
  {
    hide TruthOf, Tells, MadeBy, RemedyEffectOf;
    var u := w.(answers := w.answers + {answer});
    assert forall other <- u.views :: RecordTrue(w, other) && EffectTrue(w, other) && RecourseTrue(w, other);
    assert forall other <- u.views :: RecordTrue(u, other) && EffectTrue(u, other) && RecourseTrue(u, other);
  }

  lemma AnswersExtend(w: World, answer: Answer)
    requires AnswersTrue(w) && answer.id in w.views && AnswerTrue(w.connector, w.views[answer.id], answer)
    ensures AnswersTrue(w.(answers := w.answers + {answer}))
  {
  }

  // ----- Reserving -----

  /** `u` is `w` after the processor has reserved `token` for `id`, in whose view `v` the rest
      of the turn shows. */
  ghost predicate ReservationMade(w: World, u: World, id: Id, v: View, token: string) {
    && id in w.views && u.views == w.views[id := v]
    && SameIdentity(w.views[id].rec, v.rec)
    && w.views[id].executeCalls == [] && w.views[id].remediateCalls == []
    && v.executeCalls == [] && v.remediateCalls == []
    && u.connector == w.connector.(book := u.connector.book)
    && (forall t :: t in w.connector.book && t != token && w.connector.book[t].status == StatusConsumed ==>
          t in u.connector.book && u.connector.book[t].status == StatusConsumed)
    && u.creators == w.creators && u.answers == w.answers && u.reserved == w.reserved + {(token, id)}
    && (v.rec.reservation.Some? ==>
          && v.rec.proposal.parameters.RefundParameters? && AmountValid(v.rec.proposal.parameters)
          && v.rec.reservation.value.body.capability == VOID_DUPLICATE
          && TokenHeld(v.rec) == token)
  }

  lemma NothingBoundYet(w: World, id: Id)
    requires KeysBoundOk(w) && KeysMatch(w.connector) && id in w.views
    ensures w.views[id].executeCalls == [] ==> !Bound(TruthOf(w.connector, w.views[id].rec))
    ensures w.views[id].remediateCalls == [] ==> !RemedyBound(TruthOf(w.connector, w.views[id].rec))
  {
  }

  lemma ReservingKeepsAnswers(w: World, u: World, id: Id, v: View, token: string)
    requires ReservationMade(w, u, id, v, token) && AnswersTrue(w) && KeysBoundOk(w) && KeysMatch(w.connector)
    ensures AnswersTrue(u)
  {
    forall a <- u.answers
      ensures a.id in u.views && AnswerTrue(u.connector, u.views[a.id], a)
    {
      assert a in w.answers && AnswerTrue(w.connector, w.views[a.id], a);
      if a.id == id {
        NothingBoundYet(w, id);
      } else {
        SameTruth(w.connector, u.connector, w.views[a.id].rec, u.views[a.id].rec);
      }
    }
  }

  lemma ReservingKeepsTelling(w: World, u: World, id: Id, v: View, token: string)
    requires ReservationMade(w, u, id, v, token) && KeysBoundOk(w) && KeysMatch(w.connector)
    requires Tells(w.views[id], TruthOf(w.connector, w.views[id].rec))
    requires v.rec.state in {AUTHORIZED, RECOURSE_RESERVED} && v.pending == w.views[id].pending && v.rec.receipt.None?
    ensures Tells(v, TruthOf(u.connector, v.rec))
  {
    NothingBoundYet(w, id);
  }

  lemma ReservingKeepsRest(w: World, u: World, id: Id, v: View, token: string, other: Id)
    requires ReservationMade(w, u, id, v, token) && KeysBoundOk(w) && KeysMatch(w.connector) && other in w.views
    requires |w.creators| == |w.connector.refunds|
    requires RecordTrue(w, other) && EffectTrue(w, other) && RecourseTrue(w, other)
    requires other == id ==> Tells(v, TruthOf(u.connector, v.rec))
    ensures RecordTrue(u, other) && EffectTrue(u, other) && RecourseTrue(u, other)
  {
    if other == id {
      NothingBoundYet(w, id);
      NothingBoundYet(u, id);
    } else {
      SameTruth(w.connector, u.connector, w.views[other].rec, u.views[other].rec);
      if RemedyEffectOf(u.connector, u.views[other].rec) == Remedied && u.views[other].rec.reservation.Some? {
        assert TokenHeld(u.views[other].rec) == token ==> (token, id) in u.reserved;
      }
    }
  }

  lemma ReservingKeepsInv(cfg: Config, w: World, u: World, id: Id, v: View, token: string)
    requires ReservationMade(w, u, id, v, token) && Inv(cfg, w) && AllGood(cfg, u.views)
    requires v.rec.state in {AUTHORIZED, RECOURSE_RESERVED} && v.pending == w.views[id].pending && v.rec.receipt.None?
    ensures Inv(cfg, u)
  {
    ReservingKeepsAnswers(w, u, id, v, token);
    ReservingKeepsKeys(w, u, id, v, token);
    ReservingKeepsActions(w, u, id, v, token);
  }

  lemma ReservingKeepsKeys(w: World, u: World, id: Id, v: View, token: string)
    requires ReservationMade(w, u, id, v, token) && KeysBoundOk(w) && CreatorsOk(w)
    ensures KeysBoundOk(u) && CreatorsOk(u)
  {
  }

  lemma ReservingKeepsActions(w: World, u: World, id: Id, v: View, token: string)
    requires ReservationMade(w, u, id, v, token) && KeysBoundOk(w) && KeysMatch(w.connector) && ActionsTrue(w)
    requires v.rec.state in {AUTHORIZED, RECOURSE_RESERVED} && v.pending == w.views[id].pending && v.rec.receipt.None?
    ensures ActionsTrue(u)
  {
    assert RecordTrue(w, id);
    ReservingKeepsTelling(w, u, id, v, token);
    forall other <- u.views
      ensures RecordTrue(u, other) && EffectTrue(u, other) && RecourseTrue(u, other)
    {
      assert other in w.views && RecordTrue(w, other) && EffectTrue(w, other) && RecourseTrue(w, other);
      ReservingKeepsRest(w, u, id, v, token, other);
    }
  }

  // ----- Executing -----

  lemma {:induction false} MadeByExtends(creators: seq<Id>, id: Id, n: nat, other: Id)
    ensures var more := creators + seq(n, _ => id);
            MadeBy(more, other) == if other == id then MadeBy(creators, id) + seq(n, i
              requires 0 <= i < n => |creators| + i) else MadeBy(creators, other)
    decreases n
  {
    var more := creators + seq(n, _ => id);
    if n == 0 {
      assert more == creators;
    } else {
      assert more[..|more| - 1] == creators + seq(n - 1, _ => id);
      MadeByExtends(creators, id, n - 1, other);
      assert seq(n, i requires 0 <= i < n => |creators| + i) ==
             seq(n - 1, i requires 0 <= i < n - 1 => |creators| + i) + [|creators| + n - 1];
    }
  }

  /** What one call has created: nothing, the primary refund, or a duplicate besides. */
  ghost predicate MadeFor(made: seq<Refund>, result: ConnectorReply, reply: ConnectorReply, v: View) {
    && |made| <= 2
    && (forall i :: 0 <= i < |made| ==> made[i].active && CreatedFor(made[i], v))
    && result.Replied? && result.key == v.rec.proposal.idempotencyKey
    && (if made == [] then result.status == NoEffect else result.status == Executed
                                                          && result.externalId == Some(made[0].refundId))
    && (reply == Threw(OtherFailure) || (made != [] && reply == result))
  }

  lemma ExecuteOutcome(c: Crypto, s: RefundState, p: Proposal, fault: ExecutionFault, now: Time, v: View)
    returns (made: seq<Refund>, result: ConnectorReply)
    requires KeysMatch(s) && AmountValid(p.parameters) && p == v.rec.proposal
    requires |v.executeCalls| == 1 && v.executeCalls[0].at == now
    ensures var key := p.idempotencyKey;
            var (t, reply) := Execute(c, s, p, key, fault, now);
            if key in s.executionDigests
            then t == s && (Foreign(s.executionDigests, key, DigestProposal(c, p)) ==>
              reply == Threw(IdempotencyConflict))
            else
              && MadeFor(made, result, reply, v)
              && t == s.(refunds := s.refunds + made, executions := s.executions[key := result],
                         executionDigests := s.executionDigests[key := DigestProposal(c, p)])
  {
    hide DigestProposal, Foreign;
    var key := p.idempotencyKey;
    var (t, reply) := Execute(c, s, p, key, fault, now);
    made := if |t.refunds| >= |s.refunds| then t.refunds[|s.refunds|..] else [];
    result := if key in t.executions then t.executions[key] else reply;
    if key !in s.executionDigests {
      assert t.refunds == s.refunds + made;
    }
  }

  /** `u` is `w` after the processor has bound the action's key in its one execute call. */
  ghost predicate Binding(w: World, u: World, id: Id, v: View, made: seq<Refund>, result: ConnectorReply,
      reply: ConnectorReply) {
    var key := v.rec.proposal.idempotencyKey;
    && id in w.views && u.views == w.views[id := v]
    && SameIdentity(w.views[id].rec, v.rec)
    && v.rec.reservation == w.views[id].rec.reservation && v.rec.remedyKey == w.views[id].rec.remedyKey
    && w.views[id].executeCalls == [] && |v.executeCalls| == 1 && v.remediateCalls == w.views[id].remediateCalls
    && key !in w.connector.executionDigests && key !in w.connector.executions
    && OnlyEnds(w.connector.book, u.connector.book)
    && u.connector == w.connector.(
         refunds := w.connector.refunds + made, executions := w.connector.executions[key := result],
         executionDigests := w.connector.executionDigests[key := v.rec.actionDigest], book := u.connector.book)
    && u.creators == w.creators + seq(|made|, _ => id)
    && u.answers == w.answers + {Answer(id, ExecuteReply, reply)} && u.reserved == w.reserved
    && MadeFor(made, result, reply, v)
  }

  lemma BindingGrowsOthers(w: World, u: World, id: Id, v: View, made: seq<Refund>, result: ConnectorReply,
      reply: ConnectorReply, rec: Record)
    requires Binding(w, u, id, v, made, result, reply) && KeysMatch(w.connector)
    requires rec.actionDigest != v.rec.actionDigest
    ensures Grows(TruthOf(w.connector, rec), TruthOf(u.connector, rec))
    ensures TruthOf(u.connector, rec).remedy == TruthOf(w.connector, rec).remedy
  {
  }

  lemma BindingTruth(w: World, u: World, id: Id, v: View, made: seq<Refund>, result: ConnectorReply,
      reply: ConnectorReply)
    requires Binding(w, u, id, v, made, result, reply)
    ensures var before, after := TruthOf(w.connector, w.views[id].rec), TruthOf(u.connector, v.rec);
            before.effect == Unbound && after.remedy == before.remedy
              && after.effect == (if made == [] then NothingDone else Done)
  {
  }

  ghost predicate IdentitiesOk(w: World) {
    forall id <- w.views :: IdOf(w.views[id].rec.actionDigest) == id
  }

  lemma BindingKeepsContent(w: World, u: World, id: Id, v: View, made: seq<Refund>, result: ConnectorReply,
      reply: ConnectorReply)
    requires Binding(w, u, id, v, made, result, reply) && ContentOk(w.connector)
    ensures ContentOk(u.connector)
  {
    hide OnlyEnds, SameIdentity;
  }

  lemma BindingKeepsKeys(w: World, u: World, id: Id, v: View, made: seq<Refund>, result: ConnectorReply,
      reply: ConnectorReply)
    requires Binding(w, u, id, v, made, result, reply) && KeysBoundOk(w) && IdentitiesOk(w) && ContentOk(w.connector)
    ensures KeysBoundOk(u) && ContentOk(u.connector)
  {
    hide MadeFor, OnlyEnds, IdOf, ContentOk;
    BindingKeepsContent(w, u, id, v, made, result, reply);
    assert IdOf(v.rec.actionDigest) == id;
    forall other <- u.views, k <- u.connector.executionDigests
      | u.connector.executionDigests[k] == u.views[other].rec.actionDigest
      ensures u.views[other].executeCalls != []
    {
      assert IdOf(u.views[other].rec.actionDigest) == other;
    }
  }

  lemma BindingKeepsAnswer(
      w: World, u: World, id: Id, v: View, made: seq<Refund>, result: ConnectorReply, reply: ConnectorReply, a: Answer)
    requires Binding(w, u, id, v, made, result, reply) && IdentitiesOk(w) && KeysMatch(w.connector)
    requires a.id in w.views && AnswerTrue(w.connector, w.views[a.id], a)
    ensures AnswerTrue(u.connector, u.views[a.id], a)
  {
    BindingTruth(w, u, id, v, made, result, reply);
    if a.id != id {
      assert IdOf(w.views[a.id].rec.actionDigest) == a.id && IdOf(v.rec.actionDigest) == id;
      BindingGrowsOthers(w, u, id, v, made, result, reply, w.views[a.id].rec);
    }
  }

  lemma BindingKeepsAnswers(w: World, u: World, id: Id, v: View, made: seq<Refund>, result: ConnectorReply,
      reply: ConnectorReply)
    requires Binding(w, u, id, v, made, result, reply) && AnswersTrue(w) && IdentitiesOk(w) && KeysMatch(w.connector)
    ensures AnswersTrue(u)
  {
    hide TruthOf;
    BindingTruth(w, u, id, v, made, result, reply);
    forall a <- u.answers
      ensures a.id in u.views && AnswerTrue(u.connector, u.views[a.id], a)
    {
      if a in w.answers {
        BindingKeepsAnswer(w, u, id, v, made, result, reply, a);
      }
    }
  }

  lemma BindingKeepsCreators(w: World, u: World, id: Id, v: View, made: seq<Refund>, result: ConnectorReply,
      reply: ConnectorReply)
    requires Binding(w, u, id, v, made, result, reply) && CreatorsOk(w)
    ensures CreatorsOk(u)
  {
    forall i | 0 <= i < |u.creators|
      ensures u.creators[i] in u.views && CreatedFor(u.connector.refunds[i], u.views[u.creators[i]])
    {
      if i < |w.creators| {
        assert CreatedFor(w.connector.refunds[i], w.views[w.creators[i]]);
      } else {
        assert u.connector.refunds[i] == made[i - |w.creators|];
      }
    }
  }

  lemma BindingKeepsOther(
      w: World, u: World, id: Id, v: View, made: seq<Refund>, result: ConnectorReply, reply: ConnectorReply, other: Id)
    requires Binding(w, u, id, v, made, result, reply) && IdentitiesOk(w) && KeysMatch(w.connector)
    requires other in w.views && other != id && |w.creators| == |w.connector.refunds|
    requires RecordTrue(w, other) && EffectTrue(w, other) && RecourseTrue(w, other)
    ensures |u.creators| == |u.connector.refunds| && RecordTrue(u, other) && EffectTrue(u, other)
            && RecourseTrue(u, other)
  {
    hide RecordTrue, EffectTrue, RecourseTrue;
    assert IdOf(w.views[other].rec.actionDigest) == other && IdOf(v.rec.actionDigest) == id;
    BindingKeepsOtherRecord(w, u, id, v, made, result, reply, other);
    BindingKeepsOtherEffect(w, u, id, v, made, result, reply, other);
    BindingKeepsOtherRecourse(w, u, id, v, made, result, reply, other);
  }

  lemma BindingKeepsOtherRecord(
      w: World, u: World, id: Id, v: View, made: seq<Refund>, result: ConnectorReply, reply: ConnectorReply, other: Id)
    requires Binding(w, u, id, v, made, result, reply) && KeysMatch(w.connector)
    requires other in w.views && other != id && w.views[other].rec.actionDigest != v.rec.actionDigest
             && RecordTrue(w, other)
    ensures RecordTrue(u, other)
  {
    hide TruthOf, Tells, MadeFor, OnlyEnds;
    var rec := w.views[other].rec;
    BindingGrowsOthers(w, u, id, v, made, result, reply, rec);
    GrowthKeepsTelling(w.views[other], TruthOf(w.connector, rec), TruthOf(u.connector, rec));
  }

  lemma BindingKeepsOtherEffect(
      w: World, u: World, id: Id, v: View, made: seq<Refund>, result: ConnectorReply, reply: ConnectorReply, other: Id)
    requires Binding(w, u, id, v, made, result, reply) && KeysMatch(w.connector)
    requires other in w.views && other != id && w.views[other].rec.actionDigest != v.rec.actionDigest
    requires |w.creators| == |w.connector.refunds| && EffectTrue(w, other)
    ensures |u.creators| == |u.connector.refunds| && EffectTrue(u, other)
  {
    hide MadeBy, MadeFor, OnlyEnds;
    BindingGrowsOthers(w, u, id, v, made, result, reply, w.views[other].rec);
    MadeByExtends(w.creators, id, |made|, other);
  }

  lemma BindingKeepsOtherRecourse(
      w: World, u: World, id: Id, v: View, made: seq<Refund>, result: ConnectorReply, reply: ConnectorReply, other: Id)
    requires Binding(w, u, id, v, made, result, reply) && KeysMatch(w.connector)
    requires other in w.views && other != id && w.views[other].rec.actionDigest != v.rec.actionDigest
             && RecourseTrue(w, other)
    ensures RecourseTrue(u, other)
  {
    hide MadeFor;
    BindingGrowsOthers(w, u, id, v, made, result, reply, w.views[other].rec);
  }

  lemma BindingKeepsOwn(w: World, u: World, id: Id, v: View, made: seq<Refund>, result: ConnectorReply,
      reply: ConnectorReply)
    requires Binding(w, u, id, v, made, result, reply) && KeysMatch(w.connector) && KeysBoundOk(w)
    requires |w.creators| == |w.connector.refunds|
    requires RecordTrue(w, id) && EffectTrue(w, id)
    requires Tells(v, TruthOf(u.connector, v.rec))
    ensures |u.creators| == |u.connector.refunds| && RecordTrue(u, id) && EffectTrue(u, id) && RecourseTrue(u, id)
  {
    hide RecordTrue, EffectTrue, RecourseTrue, TruthOf, Tells;
    BindingTruth(w, u, id, v, made, result, reply);
    UnboundHasNoRemedy(w, id);
    BindingKeepsOwnRecord(w, u, id, v, made, result, reply);
    BindingKeepsOwnEffect(w, u, id, v, made, result, reply);
    BindingKeepsOwnRecourse(w, u, id, v, made, result, reply);
  }

  lemma UnboundHasNoRemedy(w: World, id: Id)
    requires id in w.views && |w.creators| == |w.connector.refunds| && EffectTrue(w, id)
    requires TruthOf(w.connector, w.views[id].rec).effect == Unbound
    ensures TruthOf(w.connector, w.views[id].rec).remedy != Remedied
  {
    hide TruthOf, MadeBy;
  }

  lemma BindingKeepsOwnRecord(w: World, u: World, id: Id, v: View, made: seq<Refund>, result: ConnectorReply,
      reply: ConnectorReply)
    requires Binding(w, u, id, v, made, result, reply) && RecordTrue(w, id)
    requires Tells(v, TruthOf(u.connector, v.rec))
    ensures RecordTrue(u, id)
  {
    hide TruthOf, Tells, MadeFor, OnlyEnds;
    BindingTruth(w, u, id, v, made, result, reply);
  }

  lemma BindingKeepsOwnEffect(w: World, u: World, id: Id, v: View, made: seq<Refund>, result: ConnectorReply,
      reply: ConnectorReply)
    requires Binding(w, u, id, v, made, result, reply)
    requires |w.creators| == |w.connector.refunds| && EffectTrue(w, id)
    requires TruthOf(u.connector, v.rec).remedy != Remedied
    ensures |u.creators| == |u.connector.refunds| && EffectTrue(u, id)
  {
    hide TruthOf, OnlyEnds, MadeBy, SameIdentity;
    BindingTruth(w, u, id, v, made, result, reply);
    MadeByExtends(w.creators, id, |made|, id);
  }

  lemma BindingKeepsOwnRecourse(w: World, u: World, id: Id, v: View, made: seq<Refund>, result: ConnectorReply,
      reply: ConnectorReply)
    requires Binding(w, u, id, v, made, result, reply) && TruthOf(u.connector, v.rec).remedy != Remedied
    ensures RecourseTrue(u, id)
  {
    hide Tells, MadeFor, OnlyEnds;
  }

  /** A record that has just gone to EXECUTING claims nothing yet. */
  lemma ExecutingTells(v: View, w: View, t: Truth, u: Truth)
    requires Tells(v, t) && w.rec.state == EXECUTING && w.pending == v.pending + multiset{ExecuteReply}
    requires w.rec.receipt.None? && u.remedy == t.remedy && !Bound(t)
    ensures Tells(w, u)
  {
    forall token <- w.pending
      ensures AwaitSays(token, u)
    {
      assert token == ExecuteReply || token in v.pending;
    }
  }

  lemma BindingKeepsInv(cfg: Config, w: World, u: World, id: Id, v: View, made: seq<Refund>, result: ConnectorReply,
      reply: ConnectorReply)
    requires Binding(w, u, id, v, made, result, reply) && Inv(cfg, w) && AllGood(cfg, u.views)
    requires v.rec.state == EXECUTING && v.pending == w.views[id].pending + multiset{ExecuteReply}
             && v.rec.receipt.None?
    ensures Inv(cfg, u)
  {
    IdentitiesFollow(w);
    BindingKeepsKeys(w, u, id, v, made, result, reply);
    BindingKeepsAnswers(w, u, id, v, made, result, reply);
    BindingKeepsCreators(w, u, id, v, made, result, reply);
    BindingKeepsActions(w, u, id, v, made, result, reply);
  }

  lemma IdentitiesFollow(w: World)
    requires ActionsTrue(w)
    ensures IdentitiesOk(w)
  {
    forall id <- w.views
      ensures IdOf(w.views[id].rec.actionDigest) == id
    {
      assert RecordTrue(w, id);
    }
  }

  lemma BindingKeepsActions(w: World, u: World, id: Id, v: View, made: seq<Refund>, result: ConnectorReply,
      reply: ConnectorReply)
    requires Binding(w, u, id, v, made, result, reply) && ActionsTrue(w) && IdentitiesOk(w) && KeysMatch(w.connector)
             && KeysBoundOk(w)
    requires v.rec.state == EXECUTING && v.pending == w.views[id].pending + multiset{ExecuteReply}
             && v.rec.receipt.None?
    ensures ActionsTrue(u)
  {
    assert RecordTrue(w, id) && EffectTrue(w, id);
    BindingTruth(w, u, id, v, made, result, reply);
    ExecutingTells(w.views[id], v, TruthOf(w.connector, w.views[id].rec), TruthOf(u.connector, v.rec));
    BindingKeepsOwn(w, u, id, v, made, result, reply);
    forall other <- u.views
      ensures RecordTrue(u, other) && EffectTrue(u, other) && RecourseTrue(u, other)
    {
      if other != id {
        assert other in w.views && RecordTrue(w, other) && EffectTrue(w, other) && RecourseTrue(w, other);
        BindingKeepsOther(w, u, id, v, made, result, reply, other);
      }
    }
  }

  // ----- Calls the processor refuses because a key belongs to another action -----

  /** `u` is `w` after one call of `id` that the processor answered with a conflict. */
  ghost predicate Conflicting(w: World, u: World, id: Id, v: View, token: Token) {
    && id in w.views && u.views == w.views[id := v]
    && SameIdentity(w.views[id].rec, v.rec)
    && v.rec.reservation == w.views[id].rec.reservation && v.rec.remedyKey == w.views[id].rec.remedyKey
    && u.connector == w.connector.(book := u.connector.book) && OnlyEnds(w.connector.book, u.connector.book)
    && u.creators == w.creators && u.reserved == w.reserved
    && u.answers == w.answers + {Answer(id, token, Threw(IdempotencyConflict))}
    && (if token == ExecuteReply then
          w.views[id].executeCalls == [] && v.executeCalls != [] && v.remediateCalls == w.views[id].remediateCalls &&
          TruthOf(w.connector, v.rec).effect == ForeignEffect
        else
          token == RemediateReply && v.executeCalls == w.views[id].executeCalls && v.remediateCalls != [] &&
          TruthOf(w.connector, v.rec).effect == Done && TruthOf(w.connector, v.rec).remedy == ForeignRemedy)
  }

  lemma ConflictKeepsAnswers(w: World, u: World, id: Id, v: View, token: Token)
    requires Conflicting(w, u, id, v, token) && AnswersTrue(w)
    ensures AnswersTrue(u)
  {
    forall a <- u.answers
      ensures a.id in u.views && AnswerTrue(u.connector, u.views[a.id], a)
    {
      if a in w.answers {
        assert AnswerTrue(w.connector, w.views[a.id], a);
        SameTruth(w.connector, u.connector, w.views[a.id].rec, u.views[a.id].rec);
      }
    }
  }

  lemma ConflictKeepsKeys(w: World, u: World, id: Id, v: View, token: Token)
    requires Conflicting(w, u, id, v, token) && KeysBoundOk(w) && CreatorsOk(w)
    ensures KeysBoundOk(u) && CreatorsOk(u)
  {
  }

  lemma ConflictKeepsRecord(w: World, u: World, id: Id, v: View, token: Token, other: Id)
    requires Conflicting(w, u, id, v, token) && other in w.views && RecordTrue(w, other)
    requires Tells(v, TruthOf(w.connector, w.views[id].rec))
    ensures RecordTrue(u, other)
  {
    hide TruthOf, Tells;
    SameTruth(w.connector, u.connector, w.views[other].rec, u.views[other].rec);
    SameTruth(w.connector, u.connector, v.rec, v.rec);
  }

  lemma ConflictKeepsEffect(w: World, u: World, id: Id, v: View, token: Token, other: Id)
    requires Conflicting(w, u, id, v, token) && other in w.views && |w.creators| == |w.connector.refunds|
             && EffectTrue(w, other)
    ensures EffectTrue(u, other)
  {
    hide TruthOf, MadeBy;
    SameTruth(w.connector, u.connector, w.views[other].rec, u.views[other].rec);
  }

  lemma ConflictKeepsRecourse(w: World, u: World, id: Id, v: View, token: Token, other: Id)
    requires Conflicting(w, u, id, v, token) && other in w.views && RecourseTrue(w, other)
    ensures RecourseTrue(u, other)
  {
    SameTruth(w.connector, u.connector, w.views[other].rec, u.views[other].rec);
  }

  lemma ConflictKeepsActions(w: World, u: World, id: Id, v: View, token: Token)
    requires Conflicting(w, u, id, v, token) && ActionsTrue(w)
    requires Tells(v, TruthOf(w.connector, w.views[id].rec))
    ensures ActionsTrue(u)
  {
    hide RecordTrue, EffectTrue, RecourseTrue, TruthOf, Tells;
    forall other <- u.views
      ensures RecordTrue(u, other) && EffectTrue(u, other) && RecourseTrue(u, other)
    {
      assert other in w.views && RecordTrue(w, other) && EffectTrue(w, other) && RecourseTrue(w, other);
      ConflictKeepsRecord(w, u, id, v, token, other);
      ConflictKeepsEffect(w, u, id, v, token, other);
      ConflictKeepsRecourse(w, u, id, v, token, other);
    }
  }

  lemma ConflictKeepsInv(cfg: Config, w: World, u: World, id: Id, v: View, token: Token)
    requires Conflicting(w, u, id, v, token) && Inv(cfg, w) && AllGood(cfg, u.views)
    requires Tells(v, TruthOf(w.connector, w.views[id].rec))
    ensures Inv(cfg, u)
  {
    hide Conflicting, ContentOk, KeysBoundOk, AnswersTrue, CreatorsOk, ActionsTrue, AllGood, Tells, TruthOf;
    ConflictKeepsContent(w, u, id, v, token);
    ConflictKeepsAnswers(w, u, id, v, token);
    ConflictKeepsKeys(w, u, id, v, token);
    ConflictKeepsActions(w, u, id, v, token);
  }

  lemma ConflictKeepsContent(w: World, u: World, id: Id, v: View, token: Token)
    requires Conflicting(w, u, id, v, token) && ContentOk(w.connector)
    ensures ContentOk(u.connector)
  {
    hide TruthOf;
  }

  // ----- Remediating -----

  lemma {:induction false} OwnedIsMade(refunds: seq<Refund>, creators: seq<Id>, p: Proposal, id: Id)
    requires |refunds| == |creators|
    requires forall i :: 0 <= i < |refunds| ==> (Owned(refunds[i], p) <==> creators[i] == id)
    ensures OwnedAt(refunds, p) == MadeBy(creators, id)
    decreases |refunds|
  {
    if refunds != [] {
      OwnedIsMade(refunds[..|refunds| - 1], creators[..|creators| - 1], p, id);
    }
  }

  lemma {:induction false} CreatorHasMade(creators: seq<Id>, i: nat)
    requires i < |creators|
    ensures i in MadeBy(creators, creators[i])
    decreases |creators|
  {
    if i < |creators| - 1 {
      CreatorHasMade(creators[..|creators| - 1], i);
    }
  }

  /** The refunds the processor takes to be the action's own are exactly those it created. */
  lemma OwnRefundsAreFound(w: World, id: Id)
    requires ActionsTrue(w) && CreatorsOk(w) && IdentitiesOk(w) && id in w.views
    requires TruthOf(w.connector, w.views[id].rec).effect == Done
             && TruthOf(w.connector, w.views[id].rec).remedy != Remedied
    ensures OwnedAt(w.connector.refunds, w.views[id].rec.proposal) == MadeBy(w.creators, id)
  {
    var p := w.views[id].rec.proposal;
    forall i | 0 <= i < |w.creators|
      ensures Owned(w.connector.refunds[i], p) <==> w.creators[i] == id
    {
      OwnedIffCreated(w, id, i);
    }
    OwnedIsMade(w.connector.refunds, w.creators, p, id);
  }

  lemma OwnedIffCreated(w: World, id: Id, i: nat)
    requires ActionsTrue(w) && CreatorsOk(w) && IdentitiesOk(w) && id in w.views && i < |w.creators|
    requires TruthOf(w.connector, w.views[id].rec).effect == Done
             && TruthOf(w.connector, w.views[id].rec).remedy != Remedied
    ensures Owned(w.connector.refunds[i], w.views[id].rec.proposal) <==> w.creators[i] == id
  {
    var creator := w.creators[i];
    CreatorHasMade(w.creators, i);
    assert CreatedFor(w.connector.refunds[i], w.views[creator]);
    assert EffectTrue(w, creator);
    assert IdOf(w.views[creator].rec.actionDigest) == creator && IdOf(w.views[id].rec.actionDigest) == id;
  }

  lemma RemediateOutcome(c: Crypto, s: RefundState, p: Proposal, token: string, key: string, fault: RemedyFault,
      now: Time)
    returns (result: ConnectorReply)
    requires KeysMatch(s) && key !in s.remedyDigests && token in s.book && s.book[token].status == StatusActive
    ensures var (t, reply) := Remediate(c, s, p, VOID_DUPLICATE, token, key, fault, now);
            var owned := OwnedAt(s.refunds, p);
            var remembered := RememberRemedy(s, key, DigestProposal(c, p), result);
            && result.Replied? && result.key == key && result.status in REMEDY_RESULTS
            && (reply == result || reply == Threw(OtherFailure))
            && (if result.status == Remediated
                then |owned| >= 2 && t == remembered.(refunds := Void(s.refunds, owned[|owned| - 1], now),
                                                      book := s.book[token := s.book[token].(status := StatusConsumed)])
                else t == remembered)
  {
    var (t, _) := Remediate(c, s, p, VOID_DUPLICATE, token, key, fault, now);
    result := t.remedies[key];
  }

  /** Of the two refunds the action created, the second is voided. */
  ghost predicate VoidsDuplicate(w: World, u: World, id: Id, now: Time) {
    var made := MadeBy(w.creators, id);
    |made| == 2 && made[1] < |w.connector.refunds| && u.connector.refunds == Void(w.connector.refunds, made[1], now)
  }

  /** `u` is `w` after the processor has bound the action's remedy key in its one remedy call. */
  ghost predicate RemedyBinding(w: World, u: World, id: Id, v: View, result: ConnectorReply, reply: ConnectorReply,
      now: Time) {
    var key := v.rec.remedyKey;
    && id in w.views && u.views == w.views[id := v]
    && SameIdentity(w.views[id].rec, v.rec)
    && v.rec.reservation == w.views[id].rec.reservation && key == w.views[id].rec.remedyKey && v.rec.reservation.Some?
    && w.views[id].remediateCalls == [] && v.remediateCalls != [] && v.executeCalls == w.views[id].executeCalls
    && key !in w.connector.remedyDigests && key !in w.connector.remedies
    && u.creators == w.creators && u.reserved == w.reserved
    && u.answers == w.answers + {Answer(id, RemediateReply, reply)}
    && result.Replied? && result.key == key && result.status in REMEDY_RESULTS
    && (reply == result || reply == Threw(OtherFailure))
    && u.connector == w.connector.(
         remedies := w.connector.remedies[key := result],
           remedyDigests := w.connector.remedyDigests[key := v.rec.actionDigest],
         refunds := u.connector.refunds, book := u.connector.book)
    && (if result.status == Remediated then
          && VoidsDuplicate(w, u, id, now)
          && TokenHeld(v.rec) in u.connector.book && u.connector.book[TokenHeld(v.rec)].status == StatusConsumed
        else u.connector.refunds == w.connector.refunds)
    && (forall t <- w.connector.book :: w.connector.book[t].status == StatusConsumed ==>
          t in u.connector.book && u.connector.book[t].status == StatusConsumed)
  }

  lemma RemedyBindingGrowsOthers(w: World, u: World, id: Id, v: View, result: ConnectorReply, reply: ConnectorReply,
      now: Time, rec: Record)
    requires RemedyBinding(w, u, id, v, result, reply, now) && KeysMatch(w.connector)
    requires rec.actionDigest != v.rec.actionDigest
    ensures Grows(TruthOf(w.connector, rec), TruthOf(u.connector, rec))
    ensures TruthOf(u.connector, rec).effect == TruthOf(w.connector, rec).effect
  {
  }

  lemma RemedyBindingTruth(w: World, u: World, id: Id, v: View, result: ConnectorReply, reply: ConnectorReply,
      now: Time)
    requires RemedyBinding(w, u, id, v, result, reply, now)
    ensures var before, after := TruthOf(w.connector, w.views[id].rec), TruthOf(u.connector, v.rec);
            && before.remedy == RemedyUnbound && after.effect == before.effect
            && after.remedy == (if result.status == Remediated then Remedied else NotRemedied)
  {
  }

  lemma RemedyBindingKeepsKeys(w: World, u: World, id: Id, v: View, result: ConnectorReply, reply: ConnectorReply,
      now: Time)
    requires RemedyBinding(w, u, id, v, result, reply, now) && KeysBoundOk(w) && IdentitiesOk(w)
             && ContentOk(w.connector)
    ensures KeysBoundOk(u) && ContentOk(u.connector)
  {
    assert IdOf(v.rec.actionDigest) == id;
    forall other <- u.views, k <- u.connector.remedyDigests
      | u.connector.remedyDigests[k] == u.views[other].rec.actionDigest
      ensures u.views[other].remediateCalls != []
    {
      assert IdOf(u.views[other].rec.actionDigest) == other;
    }
  }

  lemma RemedyBindingKeepsAnswers(w: World, u: World, id: Id, v: View, result: ConnectorReply, reply: ConnectorReply,
      now: Time)
    requires RemedyBinding(w, u, id, v, result, reply, now) && AnswersTrue(w) && IdentitiesOk(w)
             && KeysMatch(w.connector)
    ensures AnswersTrue(u)
  {
    hide IdOf, MadeBy, Void, KeysMatch, Prefix20, EffectOf, TruthOf, TokenHeld, RemedyEffectOf, VoidsDuplicate;
    RemedyBindingTruth(w, u, id, v, result, reply, now);
    forall a <- u.answers
      ensures a.id in u.views && AnswerTrue(u.connector, u.views[a.id], a)
    {
      if a in w.answers {
        assert AnswerTrue(w.connector, w.views[a.id], a);
        if a.id != id {
          assert IdOf(w.views[a.id].rec.actionDigest) == a.id && IdOf(v.rec.actionDigest) == id;
          RemedyBindingGrowsOthers(w, u, id, v, result, reply, now, w.views[a.id].rec);
        }
      }
    }
  }

  lemma RemedyBindingKeepsCreators(w: World, u: World, id: Id, v: View, result: ConnectorReply, reply: ConnectorReply,
      now: Time)
    requires RemedyBinding(w, u, id, v, result, reply, now) && CreatorsOk(w)
    ensures CreatorsOk(u)
  {
    forall i | 0 <= i < |u.creators|
      ensures u.creators[i] in u.views && CreatedFor(u.connector.refunds[i], u.views[u.creators[i]])
    {
      assert CreatedFor(w.connector.refunds[i], w.views[w.creators[i]]);
    }
  }

  lemma RemedyBindingKeepsOther(
      w: World, u: World, id: Id, v: View, result: ConnectorReply, reply: ConnectorReply, now: Time, other: Id)
    requires RemedyBinding(w, u, id, v, result, reply, now) && IdentitiesOk(w) && KeysMatch(w.connector)
    requires other in w.views && other != id && |w.creators| == |w.connector.refunds|
    requires RecordTrue(w, other) && EffectTrue(w, other) && RecourseTrue(w, other)
    ensures |u.creators| == |u.connector.refunds| && RecordTrue(u, other) && EffectTrue(u, other)
            && RecourseTrue(u, other)
  {
    var rec := w.views[other].rec;
    assert IdOf(rec.actionDigest) == other && IdOf(v.rec.actionDigest) == id;
    RemedyBindingGrowsOthers(w, u, id, v, result, reply, now, rec);
    GrowthKeepsTelling(w.views[other], TruthOf(w.connector, rec), TruthOf(u.connector, rec));
  }

  lemma RemedyBindingKeepsOwn(w: World, u: World, id: Id, v: View, result: ConnectorReply, reply: ConnectorReply,
      now: Time)
    requires RemedyBinding(w, u, id, v, result, reply, now) && |w.creators| == |w.connector.refunds|
    requires RecordTrue(w, id) && EffectTrue(w, id) && TruthOf(w.connector, w.views[id].rec).effect == Done
    requires Tells(v, TruthOf(u.connector, v.rec))
    ensures |u.creators| == |u.connector.refunds| && RecordTrue(u, id) && EffectTrue(u, id) && RecourseTrue(u, id)
  {
    RemedyBindingTruth(w, u, id, v, result, reply, now);
    var at := MadeBy(w.creators, id);
  }

  lemma RemediatingTells(v: View, w: View, t: Truth, u: Truth)
    requires Tells(v, t) && w.rec.state == REMEDIATING && w.pending == v.pending + multiset{RemediateReply}
    requires w.rec.receipt.None? && u.effect == Done && t.effect == Done && !RemedyBound(t)
    ensures Tells(w, u)
  {
    forall token <- w.pending
      ensures AwaitSays(token, u)
    {
      assert token == RemediateReply || token in v.pending;
    }
  }

  lemma RemedyBindingKeepsActions(w: World, u: World, id: Id, v: View, result: ConnectorReply, reply: ConnectorReply,
      now: Time)
    requires RemedyBinding(w, u, id, v, result, reply, now) && ActionsTrue(w) && IdentitiesOk(w)
             && KeysMatch(w.connector)
    requires TruthOf(w.connector, w.views[id].rec).effect == Done
    requires v.rec.state == REMEDIATING && v.pending == w.views[id].pending + multiset{RemediateReply}
             && v.rec.receipt.None?
    ensures ActionsTrue(u)
  {
    assert RecordTrue(w, id) && EffectTrue(w, id);
    RemedyBindingTruth(w, u, id, v, result, reply, now);
    RemediatingTells(w.views[id], v, TruthOf(w.connector, w.views[id].rec), TruthOf(u.connector, v.rec));
    RemedyBindingKeepsOwn(w, u, id, v, result, reply, now);
    forall other <- u.views
      ensures RecordTrue(u, other) && EffectTrue(u, other) && RecourseTrue(u, other)
    {
      if other != id {
        assert other in w.views && RecordTrue(w, other) && EffectTrue(w, other) && RecourseTrue(w, other);
        RemedyBindingKeepsOther(w, u, id, v, result, reply, now, other);
      }
    }
  }

  lemma RemedyBindingKeepsInv(cfg: Config, w: World, u: World, id: Id, v: View, result: ConnectorReply,
      reply: ConnectorReply, now: Time)
    requires RemedyBinding(w, u, id, v, result, reply, now) && Inv(cfg, w) && AllGood(cfg, u.views)
    requires TruthOf(w.connector, w.views[id].rec).effect == Done
    requires v.rec.state == REMEDIATING && v.pending == w.views[id].pending + multiset{RemediateReply}
             && v.rec.receipt.None?
    ensures Inv(cfg, u)
  {
    IdentitiesFollow(w);
    RemedyBindingKeepsKeys(w, u, id, v, result, reply, now);
    RemedyBindingKeepsAnswers(w, u, id, v, result, reply, now);
    RemedyBindingKeepsCreators(w, u, id, v, result, reply, now);
    RemedyBindingKeepsActions(w, u, id, v, result, reply, now);
  }
}
