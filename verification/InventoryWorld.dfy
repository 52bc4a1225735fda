/** The rail and the inventory service together (src/rail-class.js, src/mock-inventory-connector.js):
    any number of inventory actions, calls interleaved in any order and cut short by refused
    appends, one service behind them all that others may call as well. */
module InventoryWorlds {
  import opened Artifacts
  import opened RailModel
  import opened RailInvariant
  import opened RailRuns
  import opened RailCalls
  import opened RailReplies
  import opened MockRecourse
  import opened InventoryConnectors
  import opened InventoryLaws

  /** `answers` holds every reply given to an execute call of an action. */
  datatype World = World(views: map<Id, View>, stock: Stock, answers: set<(Id, ConnectorReply)>)

  datatype WorldEvent =
    | Proposing(proposal: Proposal, at: Time)
    | Acting(id: Id, turn: Turn, executionFault: ExecutionFault, remedyFault: RemedyFault)
    | Outside(call: Call)

  /** Every execute reply that arrives is one the service gave for that action. */
  ghost predicate Genuine(cfg: Config, w: World, e: WorldEvent) {
    match e
    case Proposing(p, now) =>
      ProposalValid(p, now) && p.parameters.InventoryParameters? && Proposed(cfg, p, now).rec.actionId !in w.views
    case Acting(id, turn, _, _) =>
      && id in w.views && CanRun(w.views[id], turn.segment, turn.now)
      && (turn.segment.ExecuteReplied? ==> (id, turn.segment.reply) in w.answers)
    case Outside(_) => true
  }

  /** What the service does when a turn has taken the action from `v` to `u`'s view of it. */
  function Serve(cfg: Config, v: View, u: World, id: Id, executionFault: ExecutionFault,
      remedyFault: RemedyFault): World
    requires id in u.views && KeysMatch(u.stock)
  {
    var rec := u.views[id].rec;
    if CallsOut(v, u.views[id], ExecuteReply) then
      var (stock, reply) := Execute(cfg.crypto, u.stock, rec.proposal, rec.proposal.idempotencyKey, executionFault);
      u.(stock := stock, answers := u.answers + {(id, reply)})
    else if CallsOut(v, u.views[id], RemediateReply) && rec.reservation.Some? then
      u.(stock := Remediate(cfg.crypto, u.stock, rec.proposal, TokenHeld(rec), rec.remedyKey, remedyFault).0)
    else u
  }

  function After(cfg: Config, signer: Signer, w: World, e: WorldEvent): World
    requires KeysMatch(w.stock)
  {
    match e
    case Proposing(p, now) => w.(views := w.views[Proposed(cfg, p, now).rec.actionId := Proposed(cfg, p, now)])
    case Acting(id, turn, executionFault, remedyFault) =>
      if id !in w.views then w
      else
        var u := w.(views := w.views[id := TakeTurn(cfg, w.views[id], turn)]);
        Serve(cfg, w.views[id], u, id, executionFault, remedyFault)
    case Outside(call) => w.(stock := Perform(cfg.crypto, signer, w.stock, call))
  }

  // ----- The invariant -----

  predicate Bound(c: Crypto, s: Stock, p: Proposal) { BoundTo(s, p.idempotencyKey, DigestProposal(c, p)) }

  ghost predicate ActionOk(cfg: Config, s: Stock, v: View) {
    && Core(cfg, v) && AsksInTurn(v) && v.rec.proposal.parameters.InventoryParameters?
    && (Beyond(v.rec.state) ==> Bound(cfg.crypto, s, v.rec.proposal))
  }

  ghost predicate AnswerOk(c: Crypto, w: World, id: Id, reply: ConnectorReply) {
    id in w.views && (Refuses(reply) || Bound(c, w.stock, w.views[id].rec.proposal))
  }

  ghost predicate Inv(cfg: Config, w: World, baseline: map<string, int>) {
    && Sound(cfg.crypto, w.stock, baseline)
    && (forall id <- w.views :: ActionOk(cfg, w.stock, w.views[id]))
    && forall id, reply | (id, reply) in w.answers :: AnswerOk(cfg.crypto, w, id, reply)
  }

  /** Stock changes, but no key that is bound is bound to anything else. */
  ghost predicate KeepsBindings(s: Stock, t: Stock) {
    forall key <- s.executionDigests :: BoundTo(t, key, s.executionDigests[key])
  }

  lemma BoundStays(c: Crypto, s: Stock, t: Stock, p: Proposal)
    requires KeepsBindings(s, t) && Bound(c, s, p)
    ensures Bound(c, t, p)
  {
  }

  lemma StockChangeKeepsInv(cfg: Config, w: World, stock: Stock, baseline: map<string, int>)
    requires Inv(cfg, w, baseline) && Sound(cfg.crypto, stock, baseline) && KeepsBindings(w.stock, stock)
    ensures Inv(cfg, w.(stock := stock), baseline)
  {
    hide Sound, Core, AsksInTurn, Beyond, Refuses, KeepsBindings, Bound;
    var u := w.(stock := stock);
    forall id | id in u.views
      ensures ActionOk(cfg, stock, u.views[id])
    {
      assert ActionOk(cfg, w.stock, w.views[id]);
      if Bound(cfg.crypto, w.stock, w.views[id].rec.proposal) {
        BoundStays(cfg.crypto, w.stock, stock, w.views[id].rec.proposal);
      }
    }
    forall id, reply | (id, reply) in u.answers
      ensures AnswerOk(cfg.crypto, u, id, reply)
    {
      assert AnswerOk(cfg.crypto, w, id, reply);
      if Bound(cfg.crypto, w.stock, w.views[id].rec.proposal) {
        BoundStays(cfg.crypto, w.stock, stock, w.views[id].rec.proposal);
      }
    }
  }

  lemma AnswerKeepsInv(cfg: Config, w: World, id: Id, reply: ConnectorReply, baseline: map<string, int>)
    requires Inv(cfg, w, baseline) && AnswerOk(cfg.crypto, w, id, reply)
    ensures Inv(cfg, w.(answers := w.answers + {(id, reply)}), baseline)
  {
    hide Sound, ActionOk, Refuses, Bound;
    var u := w.(answers := w.answers + {(id, reply)});
    forall other, r | (other, r) in u.answers
      ensures AnswerOk(cfg.crypto, u, other, r)
    {
      assert AnswerOk(cfg.crypto, w, other, r);
    }
  }

  lemma ViewChangeKeepsInv(cfg: Config, w: World, id: Id, v: View, baseline: map<string, int>)
    requires Inv(cfg, w, baseline) && ActionOk(cfg, w.stock, v)
    requires id in w.views ==> v.rec.proposal == w.views[id].rec.proposal
    ensures Inv(cfg, w.(views := w.views[id := v]), baseline)
  {
    hide Sound, ActionOk, Refuses, Bound;
    var u := w.(views := w.views[id := v]);
    forall other, r | (other, r) in u.answers
      ensures AnswerOk(cfg.crypto, u, other, r)
    {
      assert AnswerOk(cfg.crypto, w, other, r);
    }
  }

  // ----- One event -----

  lemma CallKeepsBindings(c: Crypto, signer: Signer, s: Stock, call: Call)
    requires KeysMatch(s)
    ensures KeepsBindings(s, Perform(c, signer, s, call))
  {
    hide Perform, BoundTo;
    forall key | key in s.executionDigests
      ensures BoundTo(Perform(c, signer, s, call), key, s.executionDigests[key])
    {
      assert BoundTo(s, key, s.executionDigests[key]) by {
        OwnDigest(s, key);
      }
      CallKeepsBinding(c, signer, s, call, key, s.executionDigests[key]);
    }
  }

  lemma OwnDigest(s: Stock, key: string)
    requires key in s.executionDigests
    ensures BoundTo(s, key, s.executionDigests[key])
  {
  }

  lemma PerformingKeepsInv(cfg: Config, signer: Signer, w: World, call: Call, baseline: map<string, int>)
    requires Inv(cfg, w, baseline)
    ensures Inv(cfg, w.(stock := Perform(cfg.crypto, signer, w.stock, call)), baseline)
  {
    hide Perform, Balanced, Traced, ActionOk, AnswerOk, KeepsBindings;
    CallKeepsSound(cfg.crypto, signer, w.stock, call, baseline);
    CallKeepsBindings(cfg.crypto, signer, w.stock, call);
    StockChangeKeepsInv(cfg, w, Perform(cfg.crypto, signer, w.stock, call), baseline);
  }

  /** A turn: what it takes beyond EXECUTING has its key bound. */
  lemma TurnKeepsAction(cfg: Config, s: Stock, v: View, turn: Turn)
    requires SoundSignatures(cfg.crypto)
    requires ActionOk(cfg, s, v) && CanRun(v, turn.segment, turn.now)
    requires turn.segment.ExecuteReplied? ==> Refuses(turn.segment.reply) || Bound(cfg.crypto, s, v.rec.proposal)
    ensures ActionOk(cfg, s, TakeTurn(cfg, v, turn))
    ensures TakeTurn(cfg, v, turn).rec.proposal == v.rec.proposal
  {
    hide Core, TakeTurn, AsksInTurn, Beyond, Refuses, Bound;
    TurnKeepsGood(cfg, v, turn, false);
    TurnKeepsIdentity(cfg, v, turn);
    TurnGoesBeyond(cfg, v, turn);
  }

  lemma QuantityIsValid(cfg: Config, v: View)
    requires Core(cfg, v) && v.rec.proposal.parameters.InventoryParameters?
    ensures 1 <= v.rec.proposal.parameters.quantity <= MAX_SAFE_INTEGER
  {
  }

  /** A remedy call finds the key of its action bound. */
  lemma RemedyFindsBinding(cfg: Config, s: Stock, v: View, w: View)
    requires ActionOk(cfg, s, w) && CallsOut(v, w, RemediateReply)
    ensures Bound(cfg.crypto, s, w.rec.proposal)
  {
    hide Beyond, Bound, LogAgrees, CallsOk;
    RemedyIsBeyond(cfg, w);
  }

  lemma ServingKeepsInv(cfg: Config, signer: Signer, v: View, u: World, id: Id, executionFault: ExecutionFault,
      remedyFault: RemedyFault, baseline: map<string, int>)
    requires Inv(cfg, u, baseline) && id in u.views
    ensures Inv(cfg, Serve(cfg, v, u, id, executionFault, remedyFault), baseline)
  {
    hide Inv, Execute, Remediate, CallsOut, Core, Beyond, AsksInTurn;
    KeysFit(cfg, u, baseline);
    var rec := u.views[id].rec;
    var p := rec.proposal;
    if CallsOut(v, u.views[id], ExecuteReply) {
      var call := Call.Executing(p, p.idempotencyKey, executionFault);
      var (stock, reply) := Execute(cfg.crypto, u.stock, p, p.idempotencyKey, executionFault);
      PerformingKeepsInv(cfg, signer, u, call, baseline);
      ExecutionIsAnswered(cfg, u, id, executionFault, baseline);
      AnswerKeepsInv(cfg, u.(stock := stock), id, reply, baseline);
    } else if CallsOut(v, u.views[id], RemediateReply) && rec.reservation.Some? {
      PerformingKeepsInv(cfg, signer, u, Remedying(p, TokenHeld(rec), rec.remedyKey, remedyFault), baseline);
    }
  }

  lemma KeysFit(cfg: Config, w: World, baseline: map<string, int>)
    requires Inv(cfg, w, baseline)
    ensures KeysMatch(w.stock)
    ensures forall id <- w.views :: ActionOk(cfg, w.stock, w.views[id])
  {
  }

  lemma ExecutionIsAnswered(cfg: Config, u: World, id: Id, fault: ExecutionFault, baseline: map<string, int>)
    requires Inv(cfg, u, baseline) && id in u.views
    ensures KeysMatch(u.stock)
    ensures var p := u.views[id].rec.proposal;
            var (stock, reply) := Execute(cfg.crypto, u.stock, p, p.idempotencyKey, fault);
            AnswerOk(cfg.crypto, u.(stock := stock), id, reply)
  {
    hide Execute, Refuses, Core, Beyond, AsksInTurn, Bound, Balanced, Traced, AnswerOk;
    var p := u.views[id].rec.proposal;
    assert ActionOk(cfg, u.stock, u.views[id]);
    QuantityIsValid(cfg, u.views[id]);
    AcceptedReplyIsOk(cfg.crypto, u, id, p, fault);
  }

  lemma AcceptedReplyIsOk(c: Crypto, u: World, id: Id, p: Proposal, fault: ExecutionFault)
    requires KeysMatch(u.stock) && id in u.views && u.views[id].rec.proposal == p
    requires p.parameters.InventoryParameters? && 1 <= p.parameters.quantity <= MAX_SAFE_INTEGER
    ensures var (stock, reply) := Execute(c, u.stock, p, p.idempotencyKey, fault);
            AnswerOk(c, u.(stock := stock), id, reply)
  {
    hide Execute, Refuses, BoundTo;
    if !Refuses(Execute(c, u.stock, p, p.idempotencyKey, fault).1) {
      AcceptedExecutionBinds(c, u.stock, p, p.idempotencyKey, fault);
    }
  }

  lemma ActingKeepsInv(cfg: Config, signer: Signer, w: World, e: WorldEvent, baseline: map<string, int>)
    requires SoundSignatures(cfg.crypto)
    requires Inv(cfg, w, baseline) && Genuine(cfg, w, e) && e.Acting?
    ensures var u := w.(views := w.views[e.id := TakeTurn(cfg, w.views[e.id], e.turn)]);
            Inv(cfg, u, baseline) && Inv(cfg, After(cfg, signer, w, e), baseline)
  {
    hide TakeTurn, Serve, ActionOk, Sound, Refuses, Bound;
    var v := w.views[e.id];
    if e.turn.segment.ExecuteReplied? {
      assert AnswerOk(cfg.crypto, w, e.id, e.turn.segment.reply);
    }
    TurnKeepsAction(cfg, w.stock, v, e.turn);
    ViewChangeKeepsInv(cfg, w, e.id, TakeTurn(cfg, v, e.turn), baseline);
    ServingKeepsInv(cfg, signer, v, w.(views := w.views[e.id := TakeTurn(cfg, v, e.turn)]), e.id, e.executionFault,
      e.remedyFault, baseline);
  }

  lemma NewActionIsOk(cfg: Config, s: Stock, p: Proposal, now: Time)
    requires SoundSignatures(cfg.crypto) && ProposalValid(p, now) && p.parameters.InventoryParameters?
    ensures ActionOk(cfg, s, Proposed(cfg, p, now))
  {
    hide Core, ProposalValid;
    ProposedIsGood(cfg, p, now);
    NothingIsBeyond(cfg, p, now);
  }

  lemma EventKeepsInv(cfg: Config, signer: Signer, w: World, e: WorldEvent, baseline: map<string, int>)
    requires SoundSignatures(cfg.crypto)
    requires Inv(cfg, w, baseline) && Genuine(cfg, w, e)
    ensures KeysMatch(w.stock) && Inv(cfg, After(cfg, signer, w, e), baseline)
  {
    hide Inv, TakeTurn, Serve, Perform, Proposed, ActionOk;
    KeysFit(cfg, w, baseline);
    match e {
      case Proposing(p, now) =>
        NewActionIsOk(cfg, w.stock, p, now);
        ViewChangeKeepsInv(cfg, w, Proposed(cfg, p, now).rec.actionId, Proposed(cfg, p, now), baseline);
      case Acting(_, _, _, _) => ActingKeepsInv(cfg, signer, w, e, baseline);
      case Outside(call) => PerformingKeepsInv(cfg, signer, w, call, baseline);
    }
  }

  // ----- Every run of rail and service -----

  function Empty(onHand: nat): World {
    World(map[], Stock([], map[DEMO_SKU := onHand], map[], map[], map[], map[], map[], map[], [], map[]), {})
  }

  ghost predicate WorldRun(cfg: Config, signer: Signer, onHand: nat, events: seq<WorldEvent>, worlds: seq<World>) {
    && |worlds| == |events| + 1
    && worlds[0] == Empty(onHand)
    && forall i :: 0 <= i < |events| ==>
         KeysMatch(worlds[i].stock) && Genuine(cfg, worlds[i], events[i])
           && worlds[i + 1] == After(cfg, signer, worlds[i], events[i])
  }

  lemma NothingIsSound(cfg: Config, onHand: nat)
    ensures Inv(cfg, Empty(onHand), map[DEMO_SKU := onHand])
  {
    assert forall sku :: Active([], sku) == 0;
  }

  lemma {:induction false} WorldsKeepInv(cfg: Config, signer: Signer, onHand: nat, events: seq<WorldEvent>,
      worlds: seq<World>, i: nat)
    requires SoundSignatures(cfg.crypto)
    requires WorldRun(cfg, signer, onHand, events, worlds) && i <= |events|
    ensures Inv(cfg, worlds[i], map[DEMO_SKU := onHand])
  {
    hide Inv, Genuine, After;
    if i == 0 {
      NothingIsSound(cfg, onHand);
    } else {
      WorldsKeepInv(cfg, signer, onHand, events, worlds, i - 1);
      EventKeepsInv(cfg, signer, worlds[i - 1], events[i - 1], map[DEMO_SKU := onHand]);
    }
  }

  /** Every run goes on with any genuine event. */
  lemma RunsExtend(cfg: Config, signer: Signer, onHand: nat, events: seq<WorldEvent>, worlds: seq<World>, e: WorldEvent)
    requires SoundSignatures(cfg.crypto) && WorldRun(cfg, signer, onHand, events, worlds)
    requires Genuine(cfg, worlds[|events|], e)
    ensures KeysMatch(worlds[|events|].stock)
    ensures WorldRun(cfg, signer, onHand, events + [e], worlds + [After(cfg, signer, worlds[|events|], e)])
  {
    hide Genuine, After, ActionOk, AnswerOk, Balanced, Traced;
    WorldsKeepInv(cfg, signer, onHand, events, worlds, |events|);
  }

  /** In every run of rails and service, whoever else calls the service with whatever keys, every
      remedy an action's rail asks for releases an allocation made by that action's own execution,
      or none, unless two proposals or two id texts collide; and stock is conserved throughout. */
  lemma RailReleasesOwnAllocations(
      cfg: Config, signer: Signer, onHand: nat, events: seq<WorldEvent>, worlds: seq<World>, i: nat)
    requires SoundSignatures(cfg.crypto)
    requires WorldRun(cfg, signer, onHand, events, worlds) && i < |events| && events[i].Acting?
    requires events[i].id in worlds[i].views
    ensures var w := worlds[i];
            var v := w.views[events[i].id];
            var u := TakeTurn(cfg, v, events[i].turn);
            && KeysMatch(w.stock) && Balanced(w.stock, map[DEMO_SKU := onHand])
            && (CallsOut(v, u, RemediateReply) ==>
                  && u.rec.reservation.Some?
                  && ReleasesOwn(cfg.crypto, w.stock, u.rec.proposal, TokenHeld(u.rec), u.rec.remedyKey,
                       events[i].remedyFault))
  {
    hide After, TakeTurn, CanRun, ReleasesOwn, Bound, Balanced, Traced, Core, ProposalValid, Proposed;
    var w, e := worlds[i], events[i];
    WorldsKeepInv(cfg, signer, onHand, events, worlds, i);
    ActingKeepsInv(cfg, signer, w, e, map[DEMO_SKU := onHand]);
    var v := w.views[e.id];
    var u := TakeTurn(cfg, v, e.turn);
    assert ActionOk(cfg, w.stock, u) by {
      assert w.views[e.id := u][e.id] == u;
    }
    if CallsOut(v, u, RemediateReply) {
      RemedyFindsBinding(cfg, w.stock, v, u);
      RemedyHoldsReservation(cfg, u);
      BoundRemedyReleasesOwn(cfg.crypto, w.stock, u.rec, e.remedyFault);
    }
  }

  lemma RemedyHoldsReservation(cfg: Config, v: View)
    requires Core(cfg, v) && v.remediateCalls != []
    ensures v.rec.reservation.Some?
  {
    hide RecordOk, LogAgrees, Covered;
    assert v.remediateCalls[0] in v.remediateCalls;
  }

  lemma BoundRemedyReleasesOwn(c: Crypto, s: Stock, rec: Record, fault: RemedyFault)
    requires KeysMatch(s) && Traced(c, s) && Bound(c, s, rec.proposal) && rec.reservation.Some?
    ensures ReleasesOwn(c, s, rec.proposal, TokenHeld(rec), rec.remedyKey, fault)
  {
    hide Traced, ReleasesOwn;
    RemedyReleasesOwnAllocation(c, s, rec.proposal, TokenHeld(rec), rec.remedyKey, fault);
  }
}
