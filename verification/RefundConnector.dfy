/** The mock refund processor (src/mock-refund-connector.js): what each of its calls does to its
    state, and the connector object itself. */
module RefundConnectors {
  import opened RailStates
  import opened JsonValues
  import opened Artifacts
  import opened RailModel
  import opened MockRecourse

  const REFUND_CONNECTOR := "mock-refund-processor"
  const VOID_DUPLICATE := "void-duplicate-refund"
  const REFUND_OFFER := Offer(REFUND_CONNECTOR, VOID_DUPLICATE, RefundIssue)

  /** `owner` is the idempotency key of the proposal the refund was created for. */
  datatype Refund = Refund(
    refundId: string, orderId: string, amountMinor: int, currency: string, active: bool,
    createdAt: Time, voidedAt: Option<Time>, reference: string, owner: string)

  datatype RefundState = RefundState(
    refunds: seq<Refund>,
    executions: map<string, ConnectorReply>,
    executionDigests: map<string, Digest>,
    book: Book,
    remedies: map<string, ConnectorReply>,
    remedyDigests: map<string, Digest>)

  predicate AmountValid(p: Parameters) { p.RefundParameters? && 1 <= p.amountMinor <= MAX_SAFE_INTEGER }

  function NewRefund(refunds: seq<Refund>, p: Proposal, reference: string, now: Time): Refund
    requires AmountValid(p.parameters)
  {
    Refund("rf_" + Decimal(|refunds| + 1), p.resourceId, p.parameters.amountMinor, p.parameters.currency, true, now,
      None, reference, p.idempotencyKey)
  }

  function RememberExecution(s: RefundState, key: string, d: Digest, result: ConnectorReply): RefundState {
    s.(executionDigests := s.executionDigests[key := d], executions := s.executions[key := result])
  }

  function RememberRemedy(s: RefundState, key: string, d: Digest, result: ConnectorReply): RefundState {
    s.(remedyDigests := s.remedyDigests[key := d], remedies := s.remedies[key := result])
  }

  ghost predicate KeysMatch(s: RefundState) {
    s.executions.Keys == s.executionDigests.Keys && s.remedies.Keys == s.remedyDigests.Keys
  }

  function Create(s: RefundState, p: Proposal, reference: string, now: Time): RefundState
    requires AmountValid(p.parameters)
  {
    s.(refunds := s.refunds + [NewRefund(s.refunds, p, reference, now)])
  }

  function Execute(c: Crypto, s: RefundState, p: Proposal, key: string, fault: ExecutionFault, now: Time): (RefundState,
      ConnectorReply)
    requires KeysMatch(s)
  {
    var d := DigestProposal(c, p);
    if key in s.executionDigests then
      (s, if Foreign(s.executionDigests, key, d) then Threw(IdempotencyConflict) else s.executions[key])
    else if fault == LostBeforeCommit then
      (RememberExecution(s, key, d, Replied(NoEffect, key, None)), Threw(OtherFailure))
    else if !AmountValid(p.parameters) then (s, Threw(OtherFailure))
    else
      var created := Create(s, p, key + ":primary", now);
      var result := Replied(Executed, key, Some(created.refunds[|s.refunds|].refundId));
      var remembered := RememberExecution(created, key, d, result);
      (if fault in {Duplicate, ExecutionRemedyFailure} then Create(remembered, p, key + ":duplicate", now)
        else remembered,
       if fault == LostAfterCommit then Threw(OtherFailure) else result)
  }

  /** What status() and remedyStatus() answer from a cache. */
  function Cached(results: map<string, ConnectorReply>, key: string): ConnectorReply {
    if key in results then results[key] else Replied(Unresolved, key, None)
  }

  predicate Owned(r: Refund, p: Proposal) {
    r.orderId == p.resourceId && r.active && r.owner == p.idempotencyKey
  }

  /** The positions of the active refunds the proposal owns on its order. */
  function OwnedAt(refunds: seq<Refund>, p: Proposal): (at: seq<nat>)
    ensures forall i: int :: i in at <==> 0 <= i < |refunds| && Owned(refunds[i], p)
    ensures forall j :: 0 <= j < |at| ==> 0 <= at[j] < |refunds|
    ensures forall j, k :: 0 <= j < k < |at| ==> at[j] < at[k]
  {
    if refunds == [] then []
    else
      var n := |refunds| - 1;
      var before := OwnedAt(refunds[..n], p);
      if Owned(refunds[n], p) then before + [n] else before
  }

  function Void(refunds: seq<Refund>, i: nat, now: Time): seq<Refund>
    requires i < |refunds|
  {
    refunds[i := refunds[i].(active := false, voidedAt := Some(now))]
  }

  function Remediate(c: Crypto, s: RefundState, p: Proposal, capability: string, token: string, key: string,
      fault: RemedyFault, now: Time):
      (RefundState, ConnectorReply)
    requires KeysMatch(s)
  {
    var d := DigestProposal(c, p);
    if key in s.remedyDigests then
      (s, if Foreign(s.remedyDigests, key, d) then Threw(IdempotencyConflict) else s.remedies[key])
    else if token !in s.book || s.book[token].status != StatusActive then (s, Threw(OtherFailure))
    else if fault == RemedyLostBeforeCommit then
      (RememberRemedy(s, key, d, Replied(NoEffect, key, None)), Threw(OtherFailure))
    else if fault == RemedyFailure then
      var result := Replied(Failed, key, None);
      (RememberRemedy(s, key, d, result), result)
    else if capability != VOID_DUPLICATE then (s, Threw(OtherFailure))
    else
      var owned := OwnedAt(s.refunds, p);
      if |owned| < 2 then
        var result := Replied(NoChange, key, None);
        (RememberRemedy(s, key, d, result), result)
      else
        var last := owned[|owned| - 1];
        var result := Replied(Remediated, key, Some(s.refunds[last].refundId));
        (RememberRemedy(s, key, d, result)
           .(refunds := Void(s.refunds, last, now), book := s.book[token := s.book[token].(status := StatusConsumed)]),
         if fault == RemedyLostAfterCommit then Threw(OtherFailure) else result)
  }

  // ----- Evidence -----

  function ActiveOn(refunds: seq<Refund>, order: string): seq<Refund> {
    if refunds == [] then []
    else
      var n := |refunds| - 1;
      var before := ActiveOn(refunds[..n], order);
      if refunds[n].orderId == order && refunds[n].active then before + [refunds[n]] else before
  }

  function Total(refunds: seq<Refund>): int {
    if refunds == [] then 0 else Total(refunds[..|refunds| - 1]) + refunds[|refunds| - 1].amountMinor
  }

  function RefundFacts(count: int, total: int, currency: string): Facts {
    Obj([Member("active_refund_count", Number(count as real)), Member("net_refunded_minor", Number(total as real)),
      Member("currency", Str(currency))])
  }

  function Observe(refunds: seq<Refund>, p: Proposal, actionDigest: Digest, fault: EvidenceFault,
      now: Time): Observation
    requires p.parameters.RefundParameters?
  {
    var active := ActiveOn(refunds, p.resourceId);
    var offset := if fault == FalseEvidence then 1 else 0;
    Reported(actionDigest, REFUND_CONNECTOR, "order", p.resourceId,
      RefundFacts(|active| + offset, Total(active) + offset * p.parameters.amountMinor, p.parameters.currency),
      Some(if fault == StaleEvidence then now - STALE_BY else now))
  }

  // ----- The connector -----

  class MockRefundConnector {
    const crypto: Crypto
    const signer: Signer
    var refunds: seq<Refund>
    var executions: map<string, ConnectorReply>
    var executionActionDigests: map<string, Digest>
    var recourseReservations: Book
    var remedyExecutions: map<string, ConnectorReply>
    var remedyActionDigests: map<string, Digest>
    var executeCalls: nat
    var remedyCalls: nat

    constructor (crypto: Crypto, signer: Signer)
      ensures this.crypto == crypto && this.signer == signer && Valid()
      ensures State() == RefundState([], map[], map[], map[], map[], map[]) && executeCalls == 0 && remedyCalls == 0
    {
      this.crypto, this.signer := crypto, signer;
      refunds := [];
      executions, executionActionDigests, remedyExecutions, remedyActionDigests := map[], map[], map[], map[];
      recourseReservations := map[];
      executeCalls, remedyCalls := 0, 0;
    }

    function State(): RefundState
      reads this
    {
      RefundState(refunds, executions, executionActionDigests, recourseReservations, remedyExecutions,
        remedyActionDigests)
    }

    ghost predicate Valid()
      reads this
    {
      KeysMatch(State())
    }

    method ReserveRecourse(p: Proposal, r: RecourseRequest, now: Time) returns (m: Option<Commitment>)
      requires Valid()
      modifies this`recourseReservations
      ensures Valid()
      ensures m == if CanReserve(REFUND_OFFER, p, r) then Some(MakeCommitment(crypto, signer, REFUND_OFFER, r, now))
              else None
      ensures recourseReservations == if m.Some?
                then old(recourseReservations)[TokenOf(crypto, r.actionDigest, r) := Entry(m.value, StatusActive)]
                else old(recourseReservations)
    {
      if r.capability != VOID_DUPLICATE || r.connector != REFUND_CONNECTOR {
        return None;
      }
      if !p.parameters.RefundParameters? {
        return None;
      }
      if !r.scope.MaxAmountMinor? || !Safe(r.scope.amount) || !Safe(p.parameters.amountMinor) {
        return None;
      }
      if r.scope.amount < p.parameters.amountMinor {
        return None;
      }
      var commitment := MakeCommitment(crypto, signer, REFUND_OFFER, r, now);
      recourseReservations := recourseReservations[commitment.body.token := Entry(commitment, StatusActive)];
      return Some(commitment);
    }

    method RecourseStatus(token: string, now: Time) returns (status: RecourseStatus)
      requires Valid()
      modifies this`recourseReservations
      ensures Valid()
      ensures status == StatusAt(old(recourseReservations), token, now)
      ensures recourseReservations == AfterRead(old(recourseReservations), token, now)
      ensures OnlyEnds(old(recourseReservations), recourseReservations)
    {
      if token !in recourseReservations {
        return StatusUnknown;
      }
      var entry := recourseReservations[token];
      if entry.status == StatusActive && entry.commitment.body.expiresAt <= now {
        entry := entry.(status := StatusExpired);
        recourseReservations := recourseReservations[token := entry];
      }
      return entry.status;
    }

    method ReleaseRecourse(token: string)
      requires Valid()
      modifies this`recourseReservations
      ensures Valid() && recourseReservations == AfterRelease(old(recourseReservations), token)
      ensures OnlyEnds(old(recourseReservations), recourseReservations)
    {
      if token in recourseReservations && recourseReservations[token].status == StatusActive {
        recourseReservations := recourseReservations[token := recourseReservations[token].(status := StatusReleased)];
      }
    }

    method CreateRefund(p: Proposal, reference: string, now: Time) returns (r: Option<Refund>)
      modifies this`refunds
      ensures r.Some? <==> AmountValid(p.parameters)
      ensures r.Some? ==> refunds == old(refunds) + [r.value] && r.value == NewRefund(old(refunds), p, reference, now)
      ensures r.None? ==> refunds == old(refunds)
    {
      if !AmountValid(p.parameters) {
        return None;
      }
      var refund := NewRefund(refunds, p, reference, now);
      refunds := refunds + [refund];
      return Some(refund);
    }

    method ExecuteRefund(p: Proposal, key: string, fault: ExecutionFault, now: Time) returns (reply: ConnectorReply)
      requires Valid()
      modifies this
      ensures Valid() && (State(), reply) == Execute(crypto, old(State()), p, key, fault, now)
      ensures executeCalls == old(executeCalls) + 1 && remedyCalls == old(remedyCalls)
    {
      executeCalls := executeCalls + 1;
      var d := DigestProposal(crypto, p);
      if key in executionActionDigests {
        if executionActionDigests[key] != d {
          return Threw(IdempotencyConflict);
        }
        return executions[key];
      }
      if fault == LostBeforeCommit {
        executionActionDigests, executions := executionActionDigests[key := d],
          executions[key := Replied(NoEffect, key, None)];
        return Threw(OtherFailure);
      }
      var refund := CreateRefund(p, key + ":primary", now);
      if refund.None? {
        return Threw(OtherFailure);
      }
      var result := Replied(Executed, key, Some(refund.value.refundId));
      executionActionDigests, executions := executionActionDigests[key := d], executions[key := result];
      if fault == Duplicate || fault == ExecutionRemedyFailure {
        var _ := CreateRefund(p, key + ":duplicate", now);
      }
      if fault == LostAfterCommit {
        return Threw(OtherFailure);
      }
      return result;
    }

    method Status(key: string) returns (reply: ConnectorReply)
      ensures reply == Cached(executions, key)
    {
      reply := if key in executions then executions[key] else Replied(Unresolved, key, None);
    }

    method AddUp(order: string) returns (count: int, total: int)
      ensures count == |ActiveOn(refunds, order)| && total == Total(ActiveOn(refunds, order))
    {
      count, total := 0, 0;
      for i := 0 to |refunds|
        invariant count == |ActiveOn(refunds[..i], order)|
        invariant total == Total(ActiveOn(refunds[..i], order))
      {
        assert refunds[..i + 1][..i] == refunds[..i];
        if refunds[i].orderId == order && refunds[i].active {
          ghost var before := ActiveOn(refunds[..i], order);
          assert (before + [refunds[i]])[..|before|] == before;
          count := count + 1;
          total := total + refunds[i].amountMinor;
        }
      }
      assert refunds[..|refunds|] == refunds;
    }

    method ObserveOrder(p: Proposal, actionDigest: Digest, fault: EvidenceFault, now: Time) returns (o: Observation)
      requires p.parameters.RefundParameters?
      ensures o == Observe(refunds, p, actionDigest, fault, now)
    {
      var count, total := AddUp(p.resourceId);
      var offset := if fault == FalseEvidence then 1 else 0;
      return Reported(actionDigest, REFUND_CONNECTOR, "order", p.resourceId,
        RefundFacts(count + offset, total + offset * p.parameters.amountMinor, p.parameters.currency),
        Some(if fault == StaleEvidence then now - STALE_BY else now));
    }

    method RemediateRefund(p: Proposal, capability: string, token: string, key: string, fault: RemedyFault, now: Time)
      returns (reply: ConnectorReply)
      requires Valid()
      modifies this
      ensures Valid() && (State(), reply) == Remediate(crypto, old(State()), p, capability, token, key, fault, now)
      ensures remedyCalls == old(remedyCalls) + 1 && executeCalls == old(executeCalls)
    {
      hide OwnedAt, Void, Owned, DigestProposal;
      remedyCalls := remedyCalls + 1;
      var d := DigestProposal(crypto, p);
      if key in remedyActionDigests {
        if remedyActionDigests[key] != d {
          return Threw(IdempotencyConflict);
        }
        return remedyExecutions[key];
      }
      if token !in recourseReservations || recourseReservations[token].status != StatusActive {
        return Threw(OtherFailure);
      }
      if fault == RemedyLostBeforeCommit {
        remedyActionDigests, remedyExecutions := remedyActionDigests[key := d],
          remedyExecutions[key := Replied(NoEffect, key, None)];
        return Threw(OtherFailure);
      }
      if fault == RemedyFailure {
        remedyActionDigests, remedyExecutions := remedyActionDigests[key := d],
          remedyExecutions[key := Replied(Failed, key, None)];
        return Replied(Failed, key, None);
      }
      if capability != VOID_DUPLICATE {
        return Threw(OtherFailure);
      }
      var active := OwnedAt(refunds, p);
      if |active| < 2 {
        remedyActionDigests, remedyExecutions := remedyActionDigests[key := d],
          remedyExecutions[key := Replied(NoChange, key, None)];
        return Replied(NoChange, key, None);
      }
      var last := active[|active| - 1];
      var result := Replied(Remediated, key, Some(refunds[last].refundId));
      refunds := Void(refunds, last, now);
      remedyActionDigests, remedyExecutions := remedyActionDigests[key := d], remedyExecutions[key := result];
      recourseReservations := recourseReservations[token := recourseReservations[token].(status := StatusConsumed)];
      if fault == RemedyLostAfterCommit {
        return Threw(OtherFailure);
      }
      return result;
    }

    method RemedyStatus(key: string) returns (reply: ConnectorReply)
      ensures reply == Cached(remedyExecutions, key)
    {
      reply := if key in remedyExecutions then remedyExecutions[key] else Replied(Unresolved, key, None);
    }
  }
}
