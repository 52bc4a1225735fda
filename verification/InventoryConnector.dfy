/** The mock inventory service (src/mock-inventory-connector.js): stock, allocations and a remedy
    that releases one allocation. */
module InventoryConnectors {
  import opened RailStates
  import opened Artifacts
  import opened RailModel
  import opened MockRecourse

  const INVENTORY_CONNECTOR := "mock-inventory-service"
  const RELEASE_ALLOCATION := "release-allocation"
  const INVENTORY_OFFER := Offer(INVENTORY_CONNECTOR, RELEASE_ALLOCATION, InventoryAllocate)
  const DEMO_SKU := "sku_demo_1"

  datatype Allocation = Allocation(allocationId: string, orderId: string, sku: string, quantity: int, active: bool)

  /** Why an allocation exists: the execute call that made it. */
  datatype Origin = Origin(proposal: Proposal, key: string, suffix: string)

  /** `origins` runs parallel to `allocations`; `executed` holds the proposal each execution key
      was first used for. Neither decides anything. */
  datatype Stock = Stock(
    allocations: seq<Allocation>,
    onHand: map<string, int>,
    executions: map<string, ConnectorReply>,
    executionDigests: map<string, Digest>,
    tracked: map<string, seq<string>>,
    book: Book,
    remedies: map<string, ConnectorReply>,
    remedyDigests: map<string, Digest>,
    origins: seq<Origin>,
    executed: map<string, Proposal>)

  function Available(s: Stock, sku: string): int { if sku in s.onHand then s.onHand[sku] else 0 }

  function IdFor(c: Crypto, order: string, reference: string): string {
    "alloc_" + Prefix20(c.digest(TextA(order + ":" + reference)))
  }

  const PRIMARY := ":primary"
  const DUPLICATE := ":duplicate"

  datatype AllocationResult = QuantityInvalid | Insufficient | Allocated(stock: Stock)

  /** createAllocation, then recordAllocation. */
  function Allocate(c: Crypto, s: Stock, p: Proposal, key: string, suffix: string): AllocationResult {
    if !(p.parameters.InventoryParameters? && 1 <= p.parameters.quantity <= MAX_SAFE_INTEGER) then QuantityInvalid
    else
      var sku, quantity := p.parameters.sku, p.parameters.quantity;
      if quantity > Available(s, sku) then Insufficient
      else
        var id := IdFor(c, p.resourceId, key + suffix);
        Allocated(s.(
          onHand := s.onHand[sku := Available(s, sku) - quantity],
          allocations := s.allocations + [Allocation(id, p.resourceId, sku, quantity, true)],
          origins := s.origins + [Origin(p, key, suffix)],
          tracked := s.tracked[key := (if key in s.tracked then s.tracked[key] else []) + [id]]))
  }

  function Remember(s: Stock, key: string, p: Proposal, d: Digest, result: ConnectorReply): Stock {
    s.(executionDigests := s.executionDigests[key := d], executions := s.executions[key := result],
      executed := s.executed[key := p])
  }

  function RememberRemedy(s: Stock, key: string, d: Digest, result: ConnectorReply): Stock {
    s.(remedyDigests := s.remedyDigests[key := d], remedies := s.remedies[key := result])
  }

  ghost predicate KeysMatch(s: Stock) {
    s.executions.Keys == s.executionDigests.Keys && s.remedies.Keys == s.remedyDigests.Keys
  }

  /** execute(). The injected duplicate is allocated after the primary one is remembered, so its
      refusal comes too late to undo anything. */
  function Execute(c: Crypto, s: Stock, p: Proposal, key: string, fault: ExecutionFault): (Stock, ConnectorReply)
    requires KeysMatch(s)
  {
    var d := DigestProposal(c, p);
    if key in s.executionDigests then
      (s, if Foreign(s.executionDigests, key, d) then Threw(IdempotencyConflict) else s.executions[key])
    else if fault == LostBeforeCommit then
      (Remember(s, key, p, d, Replied(NoEffect, key, None)), Threw(OtherFailure))
    else match Allocate(c, s, p, key, PRIMARY)
      case QuantityInvalid => (s, Threw(OtherFailure))
      case Insufficient => (s, Threw(InventoryInsufficient))
      case Allocated(t) =>
        var result := Replied(Executed, key, Some(IdFor(c, p.resourceId, key + PRIMARY)));
        var remembered := Remember(t, key, p, d, result);
        if fault in {Duplicate, ExecutionRemedyFailure} then
          match Allocate(c, remembered, p, key, DUPLICATE)
          case Allocated(u) => (u, result)
          case _ => (remembered, Threw(InventoryInsufficient))
        else (remembered, if fault == LostAfterCommit then Threw(OtherFailure) else result)
  }

  /** Array.prototype.find by allocation id: the first one with the id. */
  function FindId(allocations: seq<Allocation>, id: string): (at: Option<nat>)
    ensures at.Some? ==> at.value < |allocations| && allocations[at.value].allocationId == id
    ensures at.None? ==> forall a <- allocations :: a.allocationId != id
  {
    if allocations == [] then None
    else if allocations[0].allocationId == id then Some(0)
    else match FindId(allocations[1..], id) case Some(i) => Some(i + 1) case None => None
  }

  predicate IsCandidate(allocations: seq<Allocation>, at: Option<nat>, order: string) {
    at.Some? && at.value < |allocations| && allocations[at.value].active && allocations[at.value].orderId == order
  }

  /** The allocations a remedy may release: found by a tracked id, active, for this order. */
  function Candidates(allocations: seq<Allocation>, ids: seq<string>, order: string): (at: seq<nat>)
    ensures forall j :: 0 <= j < |at| ==>
      at[j] < |allocations| && allocations[at[j]].active && allocations[at[j]].orderId == order
        && allocations[at[j]].allocationId in ids
  {
    if ids == [] then []
    else
      var n := |ids| - 1;
      var before := Candidates(allocations, ids[..n], order);
      var found := FindId(allocations, ids[n]);
      if IsCandidate(allocations, found, order) then before + [found.value] else before
  }

  /** The allocation a remedy for `p` releases. */
  function Chosen(s: Stock, p: Proposal): (at: Option<nat>)
    ensures at.Some? ==> at.value < |s.allocations| && s.allocations[at.value].active
  {
    var key := p.idempotencyKey;
    var candidates := Candidates(s.allocations, if key in s.tracked then s.tracked[key] else [], p.resourceId);
    if |candidates| > 1 then Some(candidates[|candidates| - 1])
    else if |candidates| == 1 then Some(candidates[0])
    else None
  }

  function Release(s: Stock, i: nat): Stock
    requires i < |s.allocations|
  {
    var a := s.allocations[i];
    s.(allocations := s.allocations[i := a.(active := false)],
      onHand := s.onHand[a.sku := Available(s, a.sku) + a.quantity])
  }

  function Remediate(c: Crypto, s: Stock, p: Proposal, token: string, key: string, fault: RemedyFault): (Stock,
      ConnectorReply)
    requires KeysMatch(s)
  {
    var d := DigestProposal(c, p);
    if key in s.remedyDigests then
      (s, if Foreign(s.remedyDigests, key, d) then Threw(IdempotencyConflict) else s.remedies[key])
    else if token !in s.book || s.book[token].status != StatusActive then (s, Threw(OtherFailure))
    else if fault == RemedyLostBeforeCommit then
      (RememberRemedy(s, key, d, Replied(NoEffect, key, None)), Threw(OtherFailure))
    else if fault == RemedyFailure || Chosen(s, p).None? then
      (RememberRemedy(s, key, d, Replied(Failed, key, None)), Replied(Failed, key, None))
    else
      var i := Chosen(s, p).value;
      var result := Replied(Remediated, key, Some(s.allocations[i].allocationId));
      (RememberRemedy(Release(s, i), key, d,
        result).(book := s.book[token := s.book[token].(status := StatusConsumed)]),
       if fault == RemedyLostAfterCommit then Threw(OtherFailure) else result)
  }

  // ----- The connector -----

  class MockInventoryConnector {
    const crypto: Crypto
    const signer: Signer
    var allocations: seq<Allocation>
    var inventory: map<string, int>
    var executions: map<string, ConnectorReply>
    var executionActionDigests: map<string, Digest>
    var executionAllocations: map<string, seq<string>>
    var recourseReservations: Book
    var remedyExecutions: map<string, ConnectorReply>
    var remedyActionDigests: map<string, Digest>
    ghost var origins: seq<Origin>
    ghost var executed: map<string, Proposal>

    constructor (crypto: Crypto, signer: Signer, onHand: nat)
      ensures this.crypto == crypto && this.signer == signer && Valid()
      ensures State() == Stock([], map[DEMO_SKU := onHand], map[], map[], map[], map[], map[], map[], [], map[])
    {
      this.crypto, this.signer := crypto, signer;
      allocations, origins := [], [];
      inventory := map[DEMO_SKU := onHand];
      executions, executionActionDigests, executionAllocations := map[], map[], map[];
      recourseReservations, remedyExecutions, remedyActionDigests, executed := map[], map[], map[], map[];
    }

    ghost function State(): Stock
      reads this
    {
      Stock(allocations, inventory, executions, executionActionDigests, executionAllocations, recourseReservations,
            remedyExecutions, remedyActionDigests, origins, executed)
    }

    ghost predicate Valid()
      reads this
    {
      KeysMatch(State())
    }

    /** createAllocation and recordAllocation: stock is taken before the allocation is listed. */
    method CreateAllocation(p: Proposal, key: string, suffix: string) returns (error: Option<ErrorKind>)
      modifies this`allocations, this`inventory, this`executionAllocations, this`origins
      ensures match Allocate(crypto, old(State()), p, key, suffix)
              case Allocated(t) => error == None && State() == t
              case Insufficient => error == Some(InventoryInsufficient) && State() == old(State())
              case QuantityInvalid => error == Some(OtherFailure) && State() == old(State())
    {
      if !p.parameters.InventoryParameters? || p.parameters.quantity < 1 || p.parameters.quantity > MAX_SAFE_INTEGER {
        return Some(OtherFailure);
      }
      var sku, quantity := p.parameters.sku, p.parameters.quantity;
      var available := if sku in inventory then inventory[sku] else 0;
      if quantity > available {
        return Some(InventoryInsufficient);
      }
      inventory := inventory[sku := available - quantity];
      var id := IdFor(crypto, p.resourceId, key + suffix);
      allocations := allocations + [Allocation(id, p.resourceId, sku, quantity, true)];
      origins := origins + [Origin(p, key, suffix)];
      var tracked := if key in executionAllocations then executionAllocations[key] else [];
      executionAllocations := executionAllocations[key := tracked + [id]];
      return None;
    }

    method ExecuteAllocation(p: Proposal, key: string, fault: ExecutionFault) returns (reply: ConnectorReply)
      requires Valid()
      modifies this
      ensures Valid() && (State(), reply) == Execute(crypto, old(State()), p, key, fault)
    {
      var d := DigestProposal(crypto, p);
      if key in executionActionDigests {
        if executionActionDigests[key] != d {
          return Threw(IdempotencyConflict);
        }
        return executions[key];
      }
      if fault == LostBeforeCommit {
        Bind(key, p, d, Replied(NoEffect, key, None));
        return Threw(OtherFailure);
      }
      var error := CreateAllocation(p, key, PRIMARY);
      if error.Some? {
        return Threw(error.value);
      }
      var result := Replied(Executed, key, Some(IdFor(crypto, p.resourceId, key + PRIMARY)));
      Bind(key, p, d, result);
      if fault == Duplicate || fault == ExecutionRemedyFailure {
        error := CreateAllocation(p, key, DUPLICATE);
        if error.Some? {
          return Threw(error.value);
        }
      }
      if fault == LostAfterCommit {
        return Threw(OtherFailure);
      }
      return result;
    }

    method Bind(key: string, p: Proposal, d: Digest, result: ConnectorReply)
      requires Valid()
      modifies this`executions, this`executionActionDigests, this`executed
      ensures Valid() && State() == Remember(old(State()), key, p, d, result)
    {
      executionActionDigests := executionActionDigests[key := d];
      executions := executions[key := result];
      executed := executed[key := p];
    }

    method BindRemedy(key: string, d: Digest, result: ConnectorReply)
      requires Valid()
      modifies this`remedyExecutions, this`remedyActionDigests
      ensures Valid() && State() == RememberRemedy(old(State()), key, d, result)
    {
      remedyActionDigests := remedyActionDigests[key := d];
      remedyExecutions := remedyExecutions[key := result];
    }

    /** The choice remediate() makes among the allocations its execution tracked. */
    method Choose(p: Proposal) returns (bound: Option<nat>)
      ensures bound == Chosen(State(), p)
    {
      var tracked := if p.idempotencyKey in executionAllocations then executionAllocations[p.idempotencyKey] else [];
      var candidates: seq<nat> := [];
      for n := 0 to |tracked|
        invariant candidates == Candidates(allocations, tracked[..n], p.resourceId)
      {
        assert tracked[..n + 1][..n] == tracked[..n];
        var found := FindId(allocations, tracked[n]);
        if found.Some? && allocations[found.value].active && allocations[found.value].orderId == p.resourceId {
          candidates := candidates + [found.value];
        }
      }
      assert tracked[..|tracked|] == tracked;
      if |candidates| > 1 {
        return Some(candidates[|candidates| - 1]);
      }
      return if |candidates| == 1 then Some(candidates[0]) else None;
    }

    method RemediateAllocation(p: Proposal, token: string, key: string, fault: RemedyFault)
      returns (reply: ConnectorReply)
      requires Valid()
      modifies this
      ensures Valid() && (State(), reply) == Remediate(crypto, old(State()), p, token, key, fault)
    {
      hide Candidates, Chosen, DigestProposal;
      var d := DigestProposal(crypto, p);
      if key in remedyActionDigests {
        if remedyActionDigests[key] != d {
          return Threw(IdempotencyConflict);
        }
        return remedyExecutions[key];
      }
      if token !in recourseReservations || recourseReservations[token].status != StatusActive {
        return Threw(OtherFailure);
      }
      if fault == RemedyLostBeforeCommit {
        BindRemedy(key, d, Replied(NoEffect, key, None));
        return Threw(OtherFailure);
      }
      if fault == RemedyFailure {
        BindRemedy(key, d, Replied(Failed, key, None));
        return Replied(Failed, key, None);
      }
      var bound := Choose(p);
      if bound.None? {
        BindRemedy(key, d, Replied(Failed, key, None));
        return Replied(Failed, key, None);
      }
      var allocation := allocations[bound.value];
      allocations := allocations[bound.value := allocation.(active := false)];
      inventory := inventory[allocation.sku := (if allocation.sku in inventory then inventory[allocation.sku] else 0)
        + allocation.quantity];
      var result := Replied(Remediated, key, Some(allocation.allocationId));
      BindRemedy(key, d, result);
      recourseReservations := recourseReservations[token := recourseReservations[token].(status := StatusConsumed)];
      if fault == RemedyLostAfterCommit {
        return Threw(OtherFailure);
      }
      return result;
    }
  }
}
