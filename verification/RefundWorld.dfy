/** The rail and the refund processor together (src/rail-class.js, src/mock-refund-connector.js):
    any number of actions, calls interleaved in any order and cut short by refused appends, one
    processor behind them all. */
module RefundWorlds {
  import opened RailStates
  import opened Artifacts
  import opened RailModel
  import opened RailInvariant
  import opened RailCalls
  import opened MockRecourse
  import opened RefundConnectors
  import opened RefundTruth

  /** A reply the processor gave when it was called; it may arrive any time later. */
  datatype Answer = Answer(id: Id, token: Token, reply: ConnectorReply)

  /** `creators[i]` is the action during whose execute call refund `i` was created, `reserved`
      which action reserved which token, `requests` what each action asked for when it was given
      a token, `answers` every reply given so far. */
  datatype World = World(
    views: map<Id, View>, connector: RefundState, creators: seq<Id>, answers: set<Answer>, reserved: set<(string, Id)>,
    requests: set<(Id, RecourseRequest)>)

  /** `book` is the reservation book after the status reads and releases of the turn. */
  datatype WorldEvent =
    | Proposing(proposal: Proposal, at: Time)
    | Acting(id: Id, turn: Turn, book: Book, executionFault: ExecutionFault, remedyFault: RemedyFault)

  predicate AsksToReserve(v: View, s: Segment, now: Time) {
    s.Reserving? && v.rec.state == AUTHORIZED && v.rec.proposal.mode != Observed
      && RequestValid(v.rec, s.request, s.caps, now)
  }

  function Offered(c: Crypto, signer: Signer, p: Proposal, r: RecourseRequest, now: Time): Option<Commitment> {
    if CanReserve(REFUND_OFFER, p, r) then Some(MakeCommitment(c, signer, REFUND_OFFER, r, now)) else None
  }

  /** The environment is the refund processor: what it reserves, the read before a remedy and
      every reply that arrives are its own. The store reports refused appends as its own error. */
  ghost predicate Genuine(cfg: Config, signer: Signer, w: World, e: WorldEvent) {
    match e
    case Proposing(p, now) => ProposalValid(p, now) && Proposed(cfg, p, now).rec.actionId !in w.views
    case Acting(id, turn, book, _, _) =>
      && id in w.views && CanRun(w.views[id], turn.segment, turn.now) && OnlyEnds(w.connector.book, book)
      && var v := w.views[id];
         match turn.segment
         case Reserving(r, _, m) => AsksToReserve(v, turn.segment, turn.now) ==>
           m == Offered(cfg.crypto, signer, v.rec.proposal, r, turn.now)
         case Remediating(a, _) =>
           CallsOut(v, TakeTurn(cfg, v, turn), RemediateReply) && v.rec.reservation.Some? ==>
             a.probe == StatusReport(TokenHeld(v.rec), StatusAt(book, TokenHeld(v.rec), turn.now))
         case ExecuteReplied(reply, refusal, _) =>
           Answer(id, ExecuteReply, reply) in w.answers && (refusal == None || refusal == Some(OtherFailure))
         case Reconciled(reply, _) => Answer(id, StatusReply, reply) in w.answers
         case RemedyReplied(reply, _) => Answer(id, RemediateReply, reply) in w.answers
         case RemedyReconciled(reply, _) => Answer(id, RemedyStatusReply, reply) in w.answers
         case _ => true
  }

  function CalledExecute(cfg: Config, u: World, id: Id, fault: ExecutionFault, now: Time): World
    requires id in u.views && KeysMatch(u.connector)
  {
    var p := u.views[id].rec.proposal;
    var (c, reply) := Execute(cfg.crypto, u.connector, p, p.idempotencyKey, fault, now);
    var made := if |c.refunds| >= |u.connector.refunds| then |c.refunds| - |u.connector.refunds| else 0;
    u.(connector := c, creators := u.creators + seq(made, _ => id),
      answers := u.answers + {Answer(id, ExecuteReply, reply)})
  }

  function CalledRemediate(cfg: Config, u: World, id: Id, fault: RemedyFault, now: Time): World
    requires id in u.views && KeysMatch(u.connector) && u.views[id].rec.reservation.Some?
  {
    var rec := u.views[id].rec;
    var (c, reply) := Remediate(cfg.crypto, u.connector, rec.proposal, rec.reservation.value.body.capability,
      TokenHeld(rec), rec.remedyKey, fault, now);
    u.(connector := c, answers := u.answers + {Answer(id, RemediateReply, reply)})
  }

  /** A turn itself: the record moves on, the book loses what expired or was released. */
  function Put(w: World, id: Id, v: View, book: Book): World {
    w.(views := w.views[id := v], connector := w.connector.(book := book))
  }

  function Reserve(u: World, id: Id, r: RecourseRequest, m: Commitment): World {
    u.(connector := u.connector.(book := u.connector.book[m.body.token := Entry(m, StatusActive)]),
       reserved := u.reserved + {(m.body.token, id)}, requests := u.requests + {(id, r)})
  }

  function Ask(u: World, id: Id, token: Token): World
    requires id in u.views
  {
    var results := if token == StatusReply then u.connector.executions else u.connector.remedies;
    u.(answers := u.answers + {Answer(id, token, Cached(results, KeyOf(u.views[id].rec, token)))})
  }

  /** What the processor does when a turn has taken the action from `v` to `w`'s view of it. */
  function Serve(cfg: Config, v: View, u: World, id: Id, s: Segment, executionFault: ExecutionFault,
      remedyFault: RemedyFault, now: Time): World
    requires id in u.views && KeysMatch(u.connector)
  {
    if AsksToReserve(v, s, now) && s.commitment.Some? then Reserve(u, id, s.request, s.commitment.value)
    else if s.Executing? && CallsOut(v, u.views[id], ExecuteReply) then CalledExecute(cfg, u, id, executionFault, now)
    else if s.Remediating? && CallsOut(v, u.views[id], RemediateReply) && u.views[id].rec.reservation.Some? then
      CalledRemediate(cfg, u, id, remedyFault, now)
    else if s.Reconciling? && CallsOut(v, u.views[id], StatusReply) then Ask(u, id, StatusReply)
    else if s.ReconcilingRemedy? && CallsOut(v, u.views[id], RemedyStatusReply) then Ask(u, id, RemedyStatusReply)
    else u
  }

  function After(cfg: Config, signer: Signer, w: World, e: WorldEvent): World
    requires KeysMatch(w.connector)
  {
    match e
    case Proposing(p, now) => w.(views := w.views[Proposed(cfg, p, now).rec.actionId := Proposed(cfg, p, now)])
    case Acting(id, turn, book, executionFault, remedyFault) =>
      if id !in w.views then w
      else
        var v := w.views[id];
        Serve(cfg, v, Put(w, id, TakeTurn(cfg, v, turn), book), id, turn.segment, executionFault, remedyFault, turn.now)
  }

  function Empty(): World { World(map[], RefundState([], map[], map[], map[], map[], map[]), [], {}, {}, {}) }

  // ----- What the processor has done for an action -----

  function EffectOf(c: RefundState, rec: Record): Effect {
    var key := rec.proposal.idempotencyKey;
    if key !in c.executionDigests || key !in c.executions then Unbound
    else if c.executionDigests[key] != rec.actionDigest then ForeignEffect
    else if c.executions[key].Replied? && c.executions[key].status == Executed then Done else NothingDone
  }

  function RemedyEffectOf(c: RefundState, rec: Record): RemedyEffect {
    var key := rec.remedyKey;
    if key !in c.remedyDigests || key !in c.remedies then RemedyUnbound
    else if c.remedyDigests[key] != rec.actionDigest then ForeignRemedy
    else if c.remedies[key].Replied? && c.remedies[key].status == Remediated then Remedied else NotRemedied
  }

  function TruthOf(c: RefundState, rec: Record): Truth { Truth(EffectOf(c, rec), RemedyEffectOf(c, rec)) }

  /** The positions of the refunds an action has created. */
  function MadeBy(creators: seq<Id>, id: Id): (at: seq<nat>)
    ensures forall j :: 0 <= j < |at| ==> 0 <= at[j] < |creators| && creators[at[j]] == id
    ensures forall j, k :: 0 <= j < k < |at| ==> at[j] < at[k]
  {
    if creators == [] then []
    else
      var n := |creators| - 1;
      var before := MadeBy(creators[..n], id);
      if creators[n] == id then before + [n] else before
  }

  // ----- The invariant -----

  ghost predicate ContentOk(c: RefundState) {
    && KeysMatch(c)
    && (forall k <- c.executions :: c.executions[k].Replied? && c.executions[k].key == k
                                    && c.executions[k].status in {Executed, NoEffect})
    && (forall k <- c.remedies :: c.remedies[k].Replied? && c.remedies[k].key == k
                                  && c.remedies[k].status in REMEDY_RESULTS)
  }

  function IdOf(d: Digest): Id { "act_" + Prefix20(d) }

  /** Keys are bound to actions that have made the call. */
  ghost predicate KeysBoundOk(w: World) {
    && (forall k <- w.connector.executionDigests :: IdOf(w.connector.executionDigests[k]) in w.views)
    && (forall k <- w.connector.remedyDigests :: IdOf(w.connector.remedyDigests[k]) in w.views)
    && (forall id <- w.views, k <- w.connector.executionDigests ::
          w.connector.executionDigests[k] == w.views[id].rec.actionDigest ==> w.views[id].executeCalls != [])
    && (forall id <- w.views, k <- w.connector.remedyDigests ::
          w.connector.remedyDigests[k] == w.views[id].rec.actionDigest ==> w.views[id].remediateCalls != [])
  }

  ghost predicate RecordTrue(w: World, id: Id)
    requires id in w.views
  {
    var v := w.views[id];
    var t := TruthOf(w.connector, v.rec);
    && v.rec.actionId == id && IdOf(v.rec.actionDigest) == id
    && Tells(v, t)
    && (v.remediateCalls != [] ==> t.effect == Done)
    && (v.rec.reservation.Some? ==>
          && v.rec.proposal.parameters.RefundParameters? && AmountValid(v.rec.proposal.parameters)
          && v.rec.reservation.value.body.capability == VOID_DUPLICATE
          && (TokenHeld(v.rec), id) in w.reserved)
  }

  predicate AnswerTrue(c: RefundState, v: View, a: Answer) {
    && ReplyTrue(a.token, a.reply, KeyOf(v.rec, a.token), TruthOf(c, v.rec))
    && (a.token == RemediateReply ==> v.remediateCalls != [])
  }

  ghost predicate AnswersTrue(w: World) {
    forall a <- w.answers :: a.id in w.views && AnswerTrue(w.connector, w.views[a.id], a)
  }

  ghost predicate CreatedFor(r: Refund, v: View) {
    && r.owner == v.rec.proposal.idempotencyKey && r.orderId == v.rec.proposal.resourceId
    && v.rec.proposal.parameters == RefundParameters(r.amountMinor, r.currency)
    && |v.executeCalls| == 1 && r.createdAt == v.executeCalls[0].at
  }

  /** Every refund was created in the one execute call of its creator. */
  ghost predicate CreatorsOk(w: World) {
    && |w.creators| == |w.connector.refunds|
    && forall i :: 0 <= i < |w.creators| ==>
         w.creators[i] in w.views && CreatedFor(w.connector.refunds[i], w.views[w.creators[i]])
  }

  /** What an action has created: nothing, or its primary refund and at most one duplicate, and
      only the duplicate is ever voided. */
  ghost predicate EffectTrue(w: World, id: Id)
    requires id in w.views && |w.creators| == |w.connector.refunds|
  {
    var t := TruthOf(w.connector, w.views[id].rec);
    var at := MadeBy(w.creators, id);
    var refunds := w.connector.refunds;
    var key := w.views[id].rec.proposal.idempotencyKey;
    && (t.effect != Done ==> at == [])
    && (t.effect == Done ==>
          && 1 <= |at| <= 2
          && refunds[at[0]].active && w.connector.executions[key].externalId == Some(refunds[at[0]].refundId)
          && (|at| == 2 ==> (refunds[at[1]].active <==> t.remedy != Remedied)))
    && (t.remedy == Remedied ==> |at| == 2)
  }

  /** Two actions hold the same reservation token. */
  ghost predicate SharedToken(w: World, token: string, id: Id) {
    exists other :: other != id && (token, other) in w.reserved
  }

  /** A remedy has used up the reservation it ran under. */
  ghost predicate RecourseTrue(w: World, id: Id)
    requires id in w.views
  {
    var rec := w.views[id].rec;
    RemedyEffectOf(w.connector, rec) == Remedied && rec.reservation.Some? ==>
      SharedToken(w, TokenHeld(rec), id) ||
      (TokenHeld(rec) in w.connector.book && w.connector.book[TokenHeld(rec)].status == StatusConsumed)
  }

  ghost predicate Inv(cfg: Config, w: World) {
    && AllGood(cfg, w.views)
    && ContentOk(w.connector) && KeysBoundOk(w) && AnswersTrue(w) && CreatorsOk(w) && ActionsTrue(w)
  }

  ghost predicate ActionsTrue(w: World) {
    |w.creators| == |w.connector.refunds| &&
    forall id <- w.views :: RecordTrue(w, id) && EffectTrue(w, id) && RecourseTrue(w, id)
  }

  ghost predicate AllGood(cfg: Config, views: map<Id, View>) { forall id <- views :: Core(cfg, views[id]) }
}
