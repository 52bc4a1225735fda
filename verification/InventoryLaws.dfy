/** What the inventory service keeps over every sequence of calls: stock is conserved and never
    negative, an allocation is released at most once, and only by a remedy of its own action. */
module InventoryLaws {
  import opened RailStates
  import opened Artifacts
  import opened RailModel
  import opened RailReplies
  import opened MockRecourse
  import opened InventoryConnectors

  // ----- Conservation -----

  function Active(allocations: seq<Allocation>, sku: string): int {
    if allocations == [] then 0
    else
      var a := allocations[|allocations| - 1];
      Active(allocations[..|allocations| - 1], sku) + (if a.active && a.sku == sku then a.quantity else 0)
  }

  /** On hand plus actively allocated is the baseline, SKU by SKU, and neither part is negative. */
  ghost predicate Balanced(s: Stock, baseline: map<string, int>) {
    && (forall a <- s.allocations :: a.quantity >= 1)
    && forall sku :: Available(s, sku) >= 0 &&
         Available(s, sku) + Active(s.allocations, sku) == (if sku in baseline then baseline[sku] else 0)
  }

  lemma ActiveAppends(allocations: seq<Allocation>, a: Allocation, sku: string)
    ensures Active(allocations + [a], sku) == Active(allocations, sku)
            + (if a.active && a.sku == sku then a.quantity else 0)
  {
    assert (allocations + [a])[..|allocations|] == allocations;
  }

  lemma {:induction false} ActiveReleases(allocations: seq<Allocation>, i: nat, sku: string)
    requires i < |allocations| && allocations[i].active
    ensures var a := allocations[i];
            Active(allocations[i := a.(active := false)], sku) == Active(allocations,
              sku) - (if a.sku == sku then a.quantity else 0)
    decreases |allocations|
  {
    var n := |allocations| - 1;
    var released := allocations[i := allocations[i].(active := false)];
    if i < n {
      assert released[..n] == allocations[..n][i := allocations[i].(active := false)];
      ActiveReleases(allocations[..n], i, sku);
    } else {
      assert released[..n] == allocations[..n];
    }
  }

  lemma AllocateKeepsBalance(c: Crypto, s: Stock, p: Proposal, key: string, suffix: string, baseline: map<string, int>)
    requires Balanced(s, baseline)
    ensures Allocate(c, s, p, key, suffix).Allocated? ==> Balanced(Allocate(c, s, p, key, suffix).stock, baseline)
  {
    match Allocate(c, s, p, key, suffix) {
      case Allocated(t) =>
        var a := t.allocations[|s.allocations|];
        assert t.allocations == s.allocations + [a];
        forall sku
          ensures Available(t, sku) >= 0
          ensures Available(t, sku) + Active(t.allocations, sku) == (if sku in baseline then baseline[sku] else 0)
        {
          ActiveAppends(s.allocations, a, sku);
        }
      case _ =>
    }
  }

  lemma ReleaseKeepsBalance(s: Stock, i: nat, baseline: map<string, int>)
    requires Balanced(s, baseline) && i < |s.allocations| && s.allocations[i].active
    ensures Balanced(Release(s, i), baseline)
  {
    var t := Release(s, i);
    assert s.allocations[i] in s.allocations;
    forall a | a in t.allocations
      ensures a.quantity >= 1
    {
      var j :| 0 <= j < |t.allocations| && t.allocations[j] == a;
      assert s.allocations[j] in s.allocations;
    }
    forall sku
      ensures Available(t, sku) >= 0
      ensures Available(t, sku) + Active(t.allocations, sku) == (if sku in baseline then baseline[sku] else 0)
    {
      ActiveReleases(s.allocations, i, sku);
    }
  }

  lemma BalanceIsAboutStock(s: Stock, t: Stock, baseline: map<string, int>)
    requires Balanced(s, baseline) && t.allocations == s.allocations && t.onHand == s.onHand
    ensures Balanced(t, baseline)
  {
    assert forall sku :: Available(t, sku) == Available(s, sku);
  }

  lemma ExecuteKeepsBalance(c: Crypto, s: Stock, p: Proposal, key: string, fault: ExecutionFault,
      baseline: map<string, int>)
    requires KeysMatch(s) && Balanced(s, baseline)
    ensures Balanced(Execute(c, s, p, key, fault).0, baseline)
  {
    var d := DigestProposal(c, p);
    if key in s.executionDigests {
    } else if fault == LostBeforeCommit {
      BalanceIsAboutStock(s, Execute(c, s, p, key, fault).0, baseline);
    } else {
      AllocateKeepsBalance(c, s, p, key, PRIMARY, baseline);
      match Allocate(c, s, p, key, PRIMARY) {
        case Allocated(t) =>
          var remembered := Remember(t, key, p, d, Replied(Executed, key, Some(IdFor(c, p.resourceId, key + PRIMARY))));
          BalanceIsAboutStock(t, remembered, baseline);
          AllocateKeepsBalance(c, remembered, p, key, DUPLICATE, baseline);
        case _ =>
      }
    }
  }

  lemma RemediateKeepsBalance(c: Crypto, s: Stock, p: Proposal, token: string, key: string, fault: RemedyFault,
      baseline: map<string, int>)
    requires KeysMatch(s) && Balanced(s, baseline)
    ensures Balanced(Remediate(c, s, p, token, key, fault).0, baseline)
  {
    var t := Remediate(c, s, p, token, key, fault).0;
    if t.allocations == s.allocations && t.onHand == s.onHand {
      BalanceIsAboutStock(s, t, baseline);
    } else {
      var i := Chosen(s, p).value;
      ReleaseKeepsBalance(s, i, baseline);
      BalanceIsAboutStock(Release(s, i), t, baseline);
    }
  }

  // ----- Releases -----

  /** Nothing is ever unlisted, changed or made active again; at most `n` allocations are released. */
  ghost predicate OnlyReleases(before: seq<Allocation>, after: seq<Allocation>, released: set<nat>) {
    && |before| <= |after|
    && (forall i <- released :: i < |before| && before[i].active)
    && forall i :: 0 <= i < |before| ==>
         after[i] == if i in released then before[i].(active := false) else before[i]
  }

  function ReleasedBy(c: Crypto, s: Stock, p: Proposal, token: string, key: string,
      fault: RemedyFault): (released: set<nat>)
    requires KeysMatch(s)
  {
    var t := Remediate(c, s, p, token, key, fault).0;
    if t.allocations == s.allocations || Chosen(s, p).None? then {} else {Chosen(s, p).value}
  }

  // ----- Ownership -----

  /** Every allocation carries the id of its origin, and every tracked id is that of an
      allocation the key's first execution made. */
  ghost predicate Traced(c: Crypto, s: Stock) {
    && |s.origins| == |s.allocations|
    && (forall i :: 0 <= i < |s.allocations| ==> OriginFits(c, s.allocations[i], s.origins[i]))
    && (forall key <- s.tracked, id <- s.tracked[key] :: key in s.executed && TrackedFits(c, s.executed[key], key, id))
    && s.executed.Keys == s.executionDigests.Keys
    && (forall key <- s.executed :: s.executionDigests[key] == DigestProposal(c, s.executed[key]))
    && (forall o <- s.origins :: o.key in s.executed && s.executed[o.key] == o.proposal)
  }

  ghost predicate OriginFits(c: Crypto, a: Allocation, o: Origin) {
    && a.allocationId == IdFor(c, o.proposal.resourceId, o.key + o.suffix)
    && a.orderId == o.proposal.resourceId
    && o.suffix in {PRIMARY, DUPLICATE}
    && o.proposal.parameters == InventoryParameters(a.sku, a.quantity)
  }

  ghost predicate TrackedFits(c: Crypto, p: Proposal, key: string, id: string) {
    id == IdFor(c, p.resourceId, key + PRIMARY) || id == IdFor(c, p.resourceId, key + DUPLICATE)
  }

  /** The part of the trace that listing an allocation extends. */
  ghost predicate Listed(c: Crypto, s: Stock) {
    && |s.origins| == |s.allocations|
    && forall i :: 0 <= i < |s.allocations| ==> OriginFits(c, s.allocations[i], s.origins[i])
  }

  lemma AllocateExtendsList(c: Crypto, s: Stock, p: Proposal, key: string, suffix: string)
    requires Listed(c, s) && suffix in {PRIMARY, DUPLICATE}
    ensures Allocate(c, s, p, key, suffix).Allocated? ==>
              var t := Allocate(c, s, p, key, suffix).stock;
              && Listed(c, t) && t.origins == s.origins + [Origin(p, key, suffix)]
              && t.executed == s.executed && t.executionDigests == s.executionDigests
  {
  }

  lemma AllocateTracks(c: Crypto, s: Stock, p: Proposal, key: string, suffix: string)
    ensures Allocate(c, s, p, key, suffix).Allocated? ==>
              var t := Allocate(c, s, p, key, suffix).stock;
              && t.tracked.Keys == s.tracked.Keys + {key}
              && forall k <- t.tracked, id <- t.tracked[k] ::
                   (k in s.tracked && id in s.tracked[k]) || (k == key && id == IdFor(c, p.resourceId, key + suffix))
  {
  }

  /** An allocation under a key whose first execution is, or is about to be, remembered. */
  lemma AllocationIsTraced(c: Crypto, s: Stock, p: Proposal, key: string, suffix: string, t: Stock)
    requires Traced(c, s) && suffix in {PRIMARY, DUPLICATE}
    requires Allocate(c, s, p, key, suffix) == Allocated(t)
    requires key in s.executed ==> s.executed[key] == p
    ensures Traced(c, t.(executed := t.executed[key := p],
            executionDigests := t.executionDigests[key := DigestProposal(c, p)]))
  {
    AllocateExtendsList(c, s, p, key, suffix);
    AllocateTracks(c, s, p, key, suffix);
  }

  function Remembered(c: Crypto, t: Stock, p: Proposal, key: string): Stock {
    Remember(t, key, p, DigestProposal(c, p), Replied(Executed, key, Some(IdFor(c, p.resourceId, key + PRIMARY))))
  }

  lemma PrimaryIsTraced(c: Crypto, s: Stock, p: Proposal, key: string, t: Stock)
    requires Traced(c, s) && Allocate(c, s, p, key, PRIMARY) == Allocated(t) && key !in s.executionDigests
    ensures Traced(c, Remembered(c, t, p, key))
  {
    AllocationIsTraced(c, s, p, key, PRIMARY, t);
  }

  lemma DuplicateIsTraced(c: Crypto, s: Stock, p: Proposal, key: string)
    requires Traced(c, s) && key in s.executed && s.executed[key] == p
    ensures Allocate(c, s, p, key, DUPLICATE).Allocated? ==> Traced(c, Allocate(c, s, p, key, DUPLICATE).stock)
  {
    match Allocate(c, s, p, key, DUPLICATE) {
      case Allocated(u) =>
        AllocationIsTraced(c, s, p, key, DUPLICATE, u);
        assert u.executed[key := p] == u.executed
          && u.executionDigests[key := DigestProposal(c, p)] == u.executionDigests;
      case _ =>
    }
  }

  lemma ExecuteKeepsTrace(c: Crypto, s: Stock, p: Proposal, key: string, fault: ExecutionFault)
    requires KeysMatch(s) && Traced(c, s)
    ensures Traced(c, Execute(c, s, p, key, fault).0)
  {
    if key !in s.executionDigests && fault != LostBeforeCommit {
      match Allocate(c, s, p, key, PRIMARY) {
        case Allocated(t) =>
          PrimaryIsTraced(c, s, p, key, t);
          DuplicateIsTraced(c, Remembered(c, t, p, key), p, key);
        case _ =>
      }
    }
  }

  lemma RemediateKeepsTrace(c: Crypto, s: Stock, p: Proposal, token: string, key: string, fault: RemedyFault)
    requires KeysMatch(s) && Traced(c, s)
    ensures Traced(c, Remediate(c, s, p, token, key, fault).0)
  {
    hide Traced, Chosen, Release;
    if Chosen(s, p).Some? {
      ReleaseChangesActivity(s, Chosen(s, p).value);
    }
    ReleasesKeepTrace(c, s, Remediate(c, s, p, token, key, fault).0);
  }

  lemma ReleaseChangesActivity(s: Stock, i: nat)
    requires i < |s.allocations|
    ensures var t := Release(s, i);
            && t == s.(allocations := t.allocations, onHand := t.onHand) && |t.allocations| == |s.allocations|
            && forall k :: 0 <= k < |s.allocations| ==>
                 t.allocations[k] == s.allocations[k].(active := t.allocations[k].active)
  {
  }

  /** A change of nothing but who still holds stock. */
  lemma ReleasesKeepTrace(c: Crypto, s: Stock, t: Stock)
    requires Traced(c, s)
    requires t.origins == s.origins && t.tracked == s.tracked && t.executed == s.executed
             && t.executionDigests == s.executionDigests
    requires |t.allocations| == |s.allocations|
    requires forall i :: 0 <= i < |s.allocations| ==>
             t.allocations[i] == s.allocations[i].(active := t.allocations[i].active)
    ensures Traced(c, t)
  {
    hide TrackedFits, DigestProposal;
  }

  /** Two texts that an allocation id cannot tell apart. */
  predicate SameId(c: Crypto, x: string, y: string) {
    x != y && Prefix20(c.digest(TextA(x))) == Prefix20(c.digest(TextA(y)))
  }

  /** Two proposals that a digest cannot tell apart. */
  predicate SameDigest(c: Crypto, p: Proposal, q: Proposal) { p != q && DigestProposal(c, p) == DigestProposal(c, q) }

  function IdText(p: Proposal, key: string, suffix: string): string { p.resourceId + ":" + (key + suffix) }

  /** On one order, an id names its key, unless two id texts collide. */
  lemma IdNamesKey(c: Crypto, p: Proposal, q: Proposal, key: string, suffix: string, other: string, otherSuffix: string)
    requires p.resourceId == q.resourceId
    requires suffix in {PRIMARY, DUPLICATE} && otherSuffix in {PRIMARY, DUPLICATE}
    requires IdFor(c, p.resourceId, key + suffix) == IdFor(c, q.resourceId, other + otherSuffix)
    ensures key == other || SameId(c, IdText(p, key, suffix), IdText(q, other, otherSuffix))
  {
    var x, y := IdText(p, key, suffix), IdText(q, other, otherSuffix);
    var prefix := "alloc_";
    assert IdFor(c, p.resourceId, key
      + suffix)[|prefix|..] == Prefix20(c.digest(TextA(p.resourceId + ":" + (key + suffix))));
    assert IdFor(c, q.resourceId, other
      + otherSuffix)[|prefix|..] == Prefix20(c.digest(TextA(q.resourceId + ":" + (other + otherSuffix))));
    if x == y {
      var head := p.resourceId + ":";
      assert x[|head|..] == key + suffix && y[|head|..] == other + otherSuffix;
      assert (key + suffix)[|key + suffix| - 1] == suffix[|suffix| - 1];
      assert (other + otherSuffix)[|other + otherSuffix| - 1] == otherSuffix[|otherSuffix| - 1];
      assert suffix == otherSuffix;
      assert (key + suffix)[..|key|] == key && (other + otherSuffix)[..|other|] == other;
    }
  }

  /** What a remedy of `p` changes: it releases at most one allocation, active until then, made
      for that order by that action's execution, unless two proposals or two id texts collide. */
  ghost predicate ReleasesOwn(c: Crypto, s: Stock, p: Proposal, token: string, key: string, fault: RemedyFault)
    requires KeysMatch(s)
  {
    var released := ReleasedBy(c, s, p, token, key, fault);
    var t := Remediate(c, s, p, token, key, fault).0;
    && |released| <= 1 && OnlyReleases(s.allocations, t.allocations, released) && |t.allocations| == |s.allocations|
    && forall i <- released :: i < |s.origins| && i < |s.allocations| &&
         s.allocations[i].orderId == p.resourceId && OwnOrCollision(c, s, p, i)
  }

  predicate BoundTo(s: Stock, key: string, d: Digest) { key in s.executionDigests && s.executionDigests[key] == d }

  /** A remedy of an action whose key is bound to it releases its own allocation. Finding
      allocations by id does no harm, unless two proposals or two id texts collide. */
  lemma RemedyReleasesOwnAllocation(c: Crypto, s: Stock, p: Proposal, token: string, key: string, fault: RemedyFault)
    requires KeysMatch(s) && Traced(c, s)
    requires BoundTo(s, p.idempotencyKey, DigestProposal(c, p))
    ensures ReleasesOwn(c, s, p, token, key, fault)
  {
    hide Traced, Remediate, ReleasedBy, OwnOrCollision;
    RemedyOnlyReleases(c, s, p, token, key, fault);
    ReleasedIsChosen(c, s, p, token, key, fault);
    if ReleasedBy(c, s, p, token, key, fault) != {} {
      ChosenIsOwn(c, s, p);
    }
  }

  ghost predicate OwnOrCollision(c: Crypto, s: Stock, p: Proposal, i: nat)
    requires i < |s.origins|
  {
    || (s.origins[i].proposal == p && s.origins[i].key == p.idempotencyKey)
    || (p.idempotencyKey in s.executed && SameDigest(c, s.executed[p.idempotencyKey], p))
    || exists suffix <- [PRIMARY, DUPLICATE] ::
         SameId(c, IdText(p, p.idempotencyKey, suffix),
           IdText(s.origins[i].proposal, s.origins[i].key, s.origins[i].suffix))
  }

  lemma ChosenIsOwn(c: Crypto, s: Stock, p: Proposal)
    requires Traced(c, s) && Chosen(s, p).Some?
    requires BoundTo(s, p.idempotencyKey, DigestProposal(c, p))
    ensures Chosen(s, p).value < |s.origins|
    ensures s.allocations[Chosen(s, p).value].orderId == p.resourceId && OwnOrCollision(c, s, p, Chosen(s, p).value)
  {
    var i, key := Chosen(s, p).value, p.idempotencyKey;
    var a, o := s.allocations[i], s.origins[i];
    var ids := if key in s.tracked then s.tracked[key] else [];
    assert a.allocationId in ids && a.orderId == p.resourceId;
    assert TrackedFits(c, s.executed[key], key, a.allocationId) && OriginFits(c, a, o);
    if s.executed[key] == p {
      var suffix := if a.allocationId == IdFor(c, p.resourceId, key + PRIMARY) then PRIMARY else DUPLICATE;
      IdNamesKey(c, p, o.proposal, key, suffix, o.key, o.suffix);
      assert suffix in [PRIMARY, DUPLICATE];
      assert o in s.origins;
    } else {
      assert SameDigest(c, s.executed[key], p);
    }
  }

  /** Without that binding the claim fails: when the key belongs to another action and keys are
      the proposals' own, whatever a remedy releases was made for someone else. */
  lemma ForeignKeyReleasesForeignAllocation(c: Crypto, s: Stock, p: Proposal, token: string, key: string,
      fault: RemedyFault, i: nat)
    requires KeysMatch(s) && Traced(c, s)
    requires forall o <- s.origins :: o.key == o.proposal.idempotencyKey
    requires p.idempotencyKey in s.executionDigests && s.executionDigests[p.idempotencyKey] != DigestProposal(c, p)
    requires i in ReleasedBy(c, s, p, token, key, fault)
    ensures i < |s.origins| && s.origins[i].proposal != p
  {
    assert i < |s.origins| && s.origins[i] in s.origins;
  }

  // ----- Every call sequence -----

  datatype Call =
    | Reserving(proposal: Proposal, request: RecourseRequest, at: Time)
    | ReadingStatus(token: string, at: Time)
    | Releasing(token: string)
    | Executing(proposal: Proposal, key: string, executionFault: ExecutionFault)
    | Remedying(proposal: Proposal, token: string, key: string, remedyFault: RemedyFault)

  function Perform(c: Crypto, signer: Signer, s: Stock, call: Call): Stock
    requires KeysMatch(s)
  {
    match call
    case Reserving(p, r, at) =>
      if CanReserve(INVENTORY_OFFER, p, r)
      then s.(book := s.book[TokenOf(c, r.actionDigest, r) := Entry(MakeCommitment(c, signer, INVENTORY_OFFER, r, at),
        StatusActive)])
      else s
    case ReadingStatus(token, at) => s.(book := AfterRead(s.book, token, at))
    case Releasing(token) => s.(book := AfterRelease(s.book, token))
    case Executing(p, key, fault) => Execute(c, s, p, key, fault).0
    case Remedying(p, token, key, fault) => Remediate(c, s, p, token, key, fault).0
  }

  ghost predicate Sound(c: Crypto, s: Stock, baseline: map<string, int>) {
    KeysMatch(s) && Balanced(s, baseline) && Traced(c, s)
  }

  lemma ExecuteKeepsSound(c: Crypto, s: Stock, p: Proposal, key: string, fault: ExecutionFault,
      baseline: map<string, int>)
    requires Sound(c, s, baseline)
    ensures Sound(c, Execute(c, s, p, key, fault).0, baseline)
  {
    ExecuteKeepsBalance(c, s, p, key, fault, baseline);
    ExecuteKeepsTrace(c, s, p, key, fault);
    ExecuteKeepsKeys(c, s, p, key, fault);
  }

  lemma ExecuteKeepsKeys(c: Crypto, s: Stock, p: Proposal, key: string, fault: ExecutionFault)
    requires KeysMatch(s)
    ensures KeysMatch(Execute(c, s, p, key, fault).0)
  {
  }

  lemma RemediateKeepsSound(c: Crypto, s: Stock, p: Proposal, token: string, key: string, fault: RemedyFault,
      baseline: map<string, int>)
    requires Sound(c, s, baseline)
    ensures Sound(c, Remediate(c, s, p, token, key, fault).0, baseline)
  {
    RemediateKeepsBalance(c, s, p, token, key, fault, baseline);
    RemediateKeepsTrace(c, s, p, token, key, fault);
    RemediateKeepsKeys(c, s, p, token, key, fault);
  }

  lemma RemediateKeepsKeys(c: Crypto, s: Stock, p: Proposal, token: string, key: string, fault: RemedyFault)
    requires KeysMatch(s)
    ensures KeysMatch(Remediate(c, s, p, token, key, fault).0)
  {
    hide DigestProposal, Chosen, Available, Candidates, Foreign;
  }

  lemma CallKeepsSound(c: Crypto, signer: Signer, s: Stock, call: Call, baseline: map<string, int>)
    requires Sound(c, s, baseline)
    ensures Sound(c, Perform(c, signer, s, call), baseline)
  {
    match call {
      case Executing(p, key, fault) => ExecuteKeepsSound(c, s, p, key, fault, baseline);
      case Remedying(p, token, key, fault) => RemediateKeepsSound(c, s, p, token, key, fault, baseline);
      case _ => BookIsNotStock(c, s, Perform(c, signer, s, call), baseline);
    }
  }

  lemma BookIsNotStock(c: Crypto, s: Stock, t: Stock, baseline: map<string, int>)
    requires Sound(c, s, baseline) && t == s.(book := t.book)
    ensures Sound(c, t, baseline)
  {
    BalanceIsAboutStock(s, t, baseline);
  }

  ghost predicate CallRun(c: Crypto, signer: Signer, onHand: nat, calls: seq<Call>, stocks: seq<Stock>) {
    && |stocks| == |calls| + 1
    && stocks[0] == Stock([], map[DEMO_SKU := onHand], map[], map[], map[], map[], map[], map[], [], map[])
    && forall i :: 0 <= i < |calls| ==> KeysMatch(stocks[i]) && stocks[i + 1] == Perform(c, signer, stocks[i], calls[i])
  }

  /** Over every call sequence, on-hand stock plus active allocations is the baseline and stock
      is never negative. */
  lemma {:induction false} StockIsConserved(c: Crypto, signer: Signer, onHand: nat, calls: seq<Call>,
      stocks: seq<Stock>, i: nat)
    requires CallRun(c, signer, onHand, calls, stocks) && i <= |calls|
    ensures Sound(c, stocks[i], map[DEMO_SKU := onHand])
  {
    if i == 0 {
      assert forall sku :: Active([], sku) == 0;
    } else {
      StockIsConserved(c, signer, onHand, calls, stocks, i - 1);
      CallKeepsSound(c, signer, stocks[i - 1], calls[i - 1], map[DEMO_SKU := onHand]);
    }
  }

  /** Every call sequence goes on with any call: no call ever loses a binding the next needs. */
  lemma RunsExtend(c: Crypto, signer: Signer, onHand: nat, calls: seq<Call>, stocks: seq<Stock>, call: Call)
    requires CallRun(c, signer, onHand, calls, stocks)
    ensures KeysMatch(stocks[|calls|])
    ensures CallRun(c, signer, onHand, calls + [call], stocks + [Perform(c, signer, stocks[|calls|], call)])
  {
    hide Perform, Balanced, Traced;
    StockIsConserved(c, signer, onHand, calls, stocks, |calls|);
  }

  lemma NothingIsReleased(allocations: seq<Allocation>)
    ensures OnlyReleases(allocations, allocations, {})
  {
  }

  lemma AllocateOnlyAdds(c: Crypto, s: Stock, p: Proposal, key: string, suffix: string)
    ensures var r := Allocate(c, s, p, key, suffix); r.Allocated? ==>
            OnlyReleases(s.allocations, r.stock.allocations, {})
  {
    hide IdFor, Available;
  }

  lemma ExecuteOnlyAdds(c: Crypto, s: Stock, p: Proposal, key: string, fault: ExecutionFault)
    requires KeysMatch(s)
    ensures OnlyReleases(s.allocations, Execute(c, s, p, key, fault).0.allocations, {})
  {
    hide DigestProposal, IdFor, Foreign, Allocate, OnlyReleases;
    NothingIsReleased(s.allocations);
    AllocateOnlyAdds(c, s, p, key, PRIMARY);
    if Allocate(c, s, p, key, PRIMARY).Allocated? {
      var t := Remembered(c, Allocate(c, s, p, key, PRIMARY).stock, p, key);
      AllocateOnlyAdds(c, t, p, key, DUPLICATE);
      if Allocate(c, t, p, key, DUPLICATE).Allocated? {
        AdditionsAdd(s.allocations, t.allocations, Allocate(c, t, p, key, DUPLICATE).stock.allocations);
      }
    }
  }

  lemma AdditionsAdd(r: seq<Allocation>, s: seq<Allocation>, t: seq<Allocation>)
    requires OnlyReleases(r, s, {}) && OnlyReleases(s, t, {})
    ensures OnlyReleases(r, t, {})
  {
  }

  lemma CallOnlyReleases(c: Crypto, signer: Signer, s: Stock, call: Call) returns (released: set<nat>)
    requires KeysMatch(s)
    ensures OnlyReleases(s.allocations, Perform(c, signer, s, call).allocations, released) && |released| <= 1
    ensures !call.Remedying? ==> released == {}
  {
    hide Remediate, ReleasedBy, Execute, OnlyReleases;
    released := {};
    match call {
      case Remedying(p, token, key, fault) =>
        released := ReleasedBy(c, s, p, token, key, fault);
        RemedyOnlyReleases(c, s, p, token, key, fault);
      case Executing(p, key, fault) => ExecuteOnlyAdds(c, s, p, key, fault);
      case _ => NothingIsReleased(s.allocations);
    }
  }

  lemma ReleasedIsChosen(c: Crypto, s: Stock, p: Proposal, token: string, key: string, fault: RemedyFault)
    requires KeysMatch(s)
    ensures var released := ReleasedBy(c, s, p, token, key, fault);
            released != {} ==> Chosen(s, p).Some? && released == {Chosen(s, p).value}
  {
    hide Remediate;
  }

  lemma RemedyOnlyReleases(c: Crypto, s: Stock, p: Proposal, token: string, key: string, fault: RemedyFault)
    requires KeysMatch(s)
    ensures var released := ReleasedBy(c, s, p, token, key, fault);
            var t := Remediate(c, s, p, token, key, fault).0;
            OnlyReleases(s.allocations, t.allocations, released) && |released| <= 1
              && |t.allocations| == |s.allocations|
  {
  }

  /** An allocation that has been released stays released: no later call touches it again. */
  lemma {:induction false} ReleasedOnce(c: Crypto, signer: Signer, onHand: nat, calls: seq<Call>, stocks: seq<Stock>,
      i: nat, j: nat, k: nat)
    requires CallRun(c, signer, onHand, calls, stocks) && i <= j <= |calls|
    requires k < |stocks[i].allocations| && !stocks[i].allocations[k].active
    ensures k < |stocks[j].allocations| && stocks[j].allocations[k] == stocks[i].allocations[k]
    decreases j
  {
    if i < j {
      ReleasedOnce(c, signer, onHand, calls, stocks, i, j - 1, k);
      var released := CallOnlyReleases(c, signer, stocks[j - 1], calls[j - 1]);
    }
  }

  // ----- How keys come to be bound -----

  /** An execute call with a valid quantity binds its key to its proposal, unless it was refused. */
  lemma AcceptedExecutionBinds(c: Crypto, s: Stock, p: Proposal, key: string, fault: ExecutionFault)
    requires KeysMatch(s) && p.parameters.InventoryParameters? && 1 <= p.parameters.quantity <= MAX_SAFE_INTEGER
    requires !Refuses(Execute(c, s, p, key, fault).1)
    ensures BoundTo(Execute(c, s, p, key, fault).0, key, DigestProposal(c, p))
  {
    hide DigestProposal, IdFor;
  }

  lemma ExecuteKeepsBinding(c: Crypto, s: Stock, p: Proposal, key: string, fault: ExecutionFault, bound: string,
      d: Digest)
    requires KeysMatch(s) && BoundTo(s, bound, d)
    ensures BoundTo(Execute(c, s, p, key, fault).0, bound, d)
  {
    hide DigestProposal, IdFor;
  }

  lemma CallKeepsBinding(c: Crypto, signer: Signer, s: Stock, call: Call, bound: string, d: Digest)
    requires KeysMatch(s) && BoundTo(s, bound, d)
    ensures BoundTo(Perform(c, signer, s, call), bound, d)
  {
    hide Execute;
    if call.Executing? {
      ExecuteKeepsBinding(c, s, call.proposal, call.key, call.executionFault, bound, d);
    }
  }

  // ----- When a refusal hides an effect -----

  predicate DuplicateDoesNotFit(s: Stock, p: Proposal, key: string, fault: ExecutionFault) {
    && key !in s.executionDigests
    && fault in {Duplicate, ExecutionRemedyFailure}
    && p.parameters.InventoryParameters? && 1 <= p.parameters.quantity <= MAX_SAFE_INTEGER
    && p.parameters.quantity <= Available(s, p.parameters.sku) < 2 * p.parameters.quantity
  }

  /** A call refused as insufficient has changed the stock exactly when an injected duplicate
      found stock for one allocation but not for two. */
  lemma RefusalHidesEffectExactly(c: Crypto, s: Stock, p: Proposal, key: string, fault: ExecutionFault)
    requires KeysMatch(s)
    requires forall k <- s.executions :: s.executions[k].Replied?
    ensures var (t, reply) := Execute(c, s, p, key, fault);
            (reply == Threw(InventoryInsufficient) && t != s) <==> DuplicateDoesNotFit(s, p, key, fault)
  {
    if key !in s.executionDigests && fault != LostBeforeCommit {
      match Allocate(c, s, p, key, PRIMARY) {
        case Allocated(t) =>
          assert |t.allocations| == |s.allocations| + 1;
          assert Available(t, p.parameters.sku) == Available(s, p.parameters.sku) - p.parameters.quantity;
        case _ =>
      }
    }
  }
}
