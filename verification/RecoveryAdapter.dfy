/** The refund recovery drill (src/mock-refund-recovery-adapter.js): it runs the processor twice,
    once undamaged and once with an injected duplicate and its remedy, and compares what each
    shows. */
module RecoveryAdapter {
  import opened RailStates
  import opened JsonValues
  import opened Artifacts
  import opened Postconditions
  import opened RailModel
  import opened Recovery
  import opened MockRecourse
  import opened RefundConnectors

  datatype DrillFault =
    | NoDrillFault | MissingCheckpoint | CorruptCheckpoint | FaultNotObserved | DrillRemedyFailure
    | LocalUnavailable | OutOfScope | UnsupportedFault

  const SOURCE_PATH := "source"
  const TYPE_PATH := "resource.type"
  const ID_PATH := "resource.id"
  const COUNT_PATH := "facts.active_refund_count"
  const TOTAL_PATH := "facts.net_refunded_minor"
  const CURRENCY_PATH := "facts.currency"
  const ORACLE_PATHS: seq<string> := [SOURCE_PATH, TYPE_PATH, ID_PATH, COUNT_PATH, TOTAL_PATH, CURRENCY_PATH]

  const EXPECTED_FAULT := Operation("connector-fault-injection", "1", Obj([Member("fault", Str("duplicate"))]))
  const EXPECTED_PROCEDURE := Operation("connector-reserved-remedy", "1",
    Obj([Member("capability", Str(VOID_DUPLICATE))]))
  const EXPECTED_ORACLE :=
    Operation("exact-state-digest", "1", Obj([Member("paths", Arr([Str(SOURCE_PATH), Str(TYPE_PATH), Str(ID_PATH),
      Str(COUNT_PATH), Str(TOTAL_PATH), Str(CURRENCY_PATH)]))]))

  // ----- Observed states -----

  /** An observation as the object the connector returns. */
  function EvidenceObject(o: Observation): Facts
    requires o.Reported?
  {
    Obj([Member("schema_version", Str("consequence-rail/outcome-evidence/v0.1")),
         Member("action_digest", Str(o.actionDigest)),
         Member("source", Str(o.source)),
         Member("resource", Obj([Member("type", Str(o.resourceType)), Member("id", Str(o.resourceId))])),
         Member("observed_at", match o.observedAt case Some(t) => Number(t as real) case None => Null),
         Member("facts", o.facts)])
  }

  /** `state[name] = value`. */
  function SetMember(members: seq<Member<string, real>>, name: string, value: Facts): seq<Member<string, real>> {
    if members == [] then [Member(name, value)]
    else if members[0].name == name then [Member(name, value)] + members[1..]
    else [members[0]] + SetMember(members[1..], name, value)
  }

  /** The first `n` paths of a state; a path that leads nowhere cannot be copied. */
  function StateOf(evidence: Facts, paths: seq<string>, n: nat): Option<seq<Member<string, real>>>
    requires n <= |paths|
  {
    if n == 0 then Some([])
    else match StateOf(evidence, paths, n - 1)
      case None => None
      case Some(members) =>
        match ReadPath(evidence, paths[n - 1])
        case None => None
        case Some(value) => Some(SetMember(members, paths[n - 1], value))
  }

  lemma {:induction false} LostStateStaysLost(evidence: Facts, paths: seq<string>, n: nat, m: nat)
    requires n <= m <= |paths| && StateOf(evidence, paths, n) == None
    ensures StateOf(evidence, paths, m) == None
  {
    if n < m {
      LostStateStaysLost(evidence, paths, n, m - 1);
    }
  }

  method ObservedState(evidence: Facts, paths: seq<string>) returns (state: Option<Facts>)
    ensures state == match StateOf(evidence, paths, |paths|) case Some(members) => Some(Obj(members)) case None => None
  {
    var members: seq<Member<string, real>> := [];
    for n := 0 to |paths|
      invariant StateOf(evidence, paths, n) == Some(members)
    {
      var current := ResolvePath(evidence, paths[n]);
      if current.None? {
        LostStateStaysLost(evidence, paths, n + 1, |paths|);
        return None;
      }
      members := SetMember(members, paths[n], current.value);
    }
    return Some(Obj(members));
  }

  /** What the oracle's six paths show of an order with `count` active refunds of the action. */
  function OracleState(p: Proposal, count: int): Facts
    requires p.parameters.RefundParameters?
  {
    Obj([Member(SOURCE_PATH, Str(REFUND_CONNECTOR)), Member(TYPE_PATH, Str("order")),
      Member(ID_PATH, Str(p.resourceId)), Member(COUNT_PATH, Number(count as real)),
           Member(TOTAL_PATH, Number((count * p.parameters.amountMinor) as real)),
         Member(CURRENCY_PATH, Str(p.parameters.currency))])
  }

  // Paths of one and of two parts.

  lemma ReadOne(value: Facts, word: string)
    requires NoDot(word)
    ensures ReadPath(value, word) == Property(value, word)
  {
    SplitWord(word, "");
    assert "" + word == word && Split(word) == [word];
    assert Reach(value, [word], 0) == Some(value);
  }

  lemma ReadTwo(value: Facts, path: string, first: string, second: string)
    requires NoDot(first) && NoDot(second) && path == first + ("." + second)
    ensures ReadPath(value, path) == match Property(value, first) case None => None case Some(v) => Property(v, second)
  {
    SplitPair(first, second, "");
    SplitWord(second, "");
    assert "" + first == first && "" + second == second && [first] + [second] == [first, second];
    assert Split(path) == [first, second];
    assert Reach(value, [first, second], 0) == Some(value);
    assert Reach(value, [first, second], 1) == Property(value, first);
  }

  lemma FindLater(members: seq<Member<string, real>>, k: nat, name: string)
    requires k < |members| && members[k].name == name && forall i :: k < i < |members| ==> members[i].name != name
    ensures FindMember(members, name) == Some(members[k].value)
    decreases |members|
  {
    var n := |members| - 1;
    if k < n {
      FindLater(members[..n], k, name);
    }
  }

  lemma ReadsOfEvidence(o: Observation, p: Proposal, count: int, total: int)
    requires p.parameters.RefundParameters?
    requires o.Reported? && o.source == REFUND_CONNECTOR && o.resourceType == "order" && o.resourceId == p.resourceId
    requires o.facts == RefundFacts(count, total, p.parameters.currency)
    ensures var e := EvidenceObject(o);
            && ReadPath(e, SOURCE_PATH) == Some(Str(REFUND_CONNECTOR))
            && ReadPath(e, TYPE_PATH) == Some(Str("order")) && ReadPath(e, ID_PATH) == Some(Str(p.resourceId))
            && ReadPath(e, COUNT_PATH) == Some(Number(count as real))
            && ReadPath(e, TOTAL_PATH) == Some(Number(total as real))
            && ReadPath(e, CURRENCY_PATH) == Some(Str(p.parameters.currency))
  {
    ReadsOfSource(o);
    ReadsOfResource(o);
    ReadsOfFacts(o, count, total, p.parameters.currency);
  }

  lemma ReadsOfSource(o: Observation)
    requires o.Reported?
    ensures ReadPath(EvidenceObject(o), SOURCE_PATH) == Some(Str(o.source))
  {
    var e := EvidenceObject(o);
    ReadOne(e, "source");
    FindLater(e.members, 2, "source");
  }

  lemma ReadsOfResource(o: Observation)
    requires o.Reported?
    ensures ReadPath(EvidenceObject(o), TYPE_PATH) == Some(Str(o.resourceType))
    ensures ReadPath(EvidenceObject(o), ID_PATH) == Some(Str(o.resourceId))
  {
    var e := EvidenceObject(o);
    FindLater(e.members, 3, "resource");
    var resource := e.members[3].value;
    assert TYPE_PATH == "resource" + ("." + "type") && ID_PATH == "resource" + ("." + "id");
    ReadTwo(e, TYPE_PATH, "resource", "type");
    ReadTwo(e, ID_PATH, "resource", "id");
    FindLater(resource.members, 0, "type");
    FindLater(resource.members, 1, "id");
  }

  lemma ReadsOfFacts(o: Observation, count: int, total: int, currency: string)
    requires o.Reported? && o.facts == RefundFacts(count, total, currency)
    ensures ReadPath(EvidenceObject(o), COUNT_PATH) == Some(Number(count as real))
    ensures ReadPath(EvidenceObject(o), TOTAL_PATH) == Some(Number(total as real))
    ensures ReadPath(EvidenceObject(o), CURRENCY_PATH) == Some(Str(currency))
  {
    hide ReadPath, EvidenceObject;
    assert |"active_refund_count"| == 19 && |"net_refunded_minor"| == 18 && |"currency"| == 8;
    CountIsRead(o);
    TotalIsRead(o);
    FactIsRead(o, CURRENCY_PATH, "currency", 2);
  }

  lemma CountIsRead(o: Observation)
    requires o.Reported? && o.facts.Obj? && |o.facts.members| == 3 && o.facts.members[0].name == "active_refund_count"
    requires |o.facts.members[1].name| == 18 && |o.facts.members[2].name| == 8
    ensures ReadPath(EvidenceObject(o), COUNT_PATH) == Some(o.facts.members[0].value)
  {
    FactIsRead(o, COUNT_PATH, "active_refund_count", 0);
  }

  lemma TotalIsRead(o: Observation)
    requires o.Reported? && o.facts.Obj? && |o.facts.members| == 3 && o.facts.members[1].name == "net_refunded_minor"
    requires |o.facts.members[2].name| == 8
    ensures ReadPath(EvidenceObject(o), TOTAL_PATH) == Some(o.facts.members[1].value)
  {
    FactIsRead(o, TOTAL_PATH, "net_refunded_minor", 1);
  }

  lemma FactIsRead(o: Observation, path: string, name: string, k: nat)
    requires o.Reported? && o.facts.Obj? && k < |o.facts.members| && o.facts.members[k].name == name
    requires forall i :: k < i < |o.facts.members| ==> o.facts.members[i].name != name
    requires NoDot(name) && !Postconditions.Reserved(name) && path == "facts" + ("." + name)
    ensures ReadPath(EvidenceObject(o), path) == Some(o.facts.members[k].value)
  {
    var e := EvidenceObject(o);
    FindLater(e.members, 5, "facts");
    ReadTwo(e, path, "facts", name);
    FindLater(o.facts.members, k, name);
  }

  lemma SetNewMember(members: seq<Member<string, real>>, name: string, value: Facts)
    requires forall i :: 0 <= i < |members| ==> members[i].name != name
    ensures SetMember(members, name, value) == members + [Member(name, value)]
  {
  }

  lemma OracleSees(o: Observation, p: Proposal, count: int)
    requires p.parameters.RefundParameters?
    requires o.Reported? && o.source == REFUND_CONNECTOR && o.resourceType == "order" && o.resourceId == p.resourceId
    requires o.facts == RefundFacts(count, count * p.parameters.amountMinor, p.parameters.currency)
    ensures StateOf(EvidenceObject(o), ORACLE_PATHS, 6) == Some(OracleState(p, count).members)
  {
    hide ReadPath, StateOf, EvidenceObject;
    var e, s := EvidenceObject(o), OracleState(p, count).members;
    ReadsOfEvidence(o, p, count, count * p.parameters.amountMinor);
    StateStarts(e, s);
    StateGrows(e, s, 0);
    StateGrows(e, s, 1);
    StateGrows(e, s, 2);
    StateGrows(e, s, 3);
    StateGrows(e, s, 4);
    StateGrows(e, s, 5);
    assert s[..6] == s;
  }

  lemma StateStarts(e: Facts, s: seq<Member<string, real>>)
    ensures StateOf(e, ORACLE_PATHS, 0) == Some(s[..0])
  {
  }

  lemma StateGrows(e: Facts, s: seq<Member<string, real>>, n: nat)
    requires n < 6 == |s| && forall i :: 0 <= i < 6 ==> s[i].name == ORACLE_PATHS[i]
    requires StateOf(e, ORACLE_PATHS, n) == Some(s[..n]) && ReadPath(e, ORACLE_PATHS[n]) == Some(s[n].value)
    ensures StateOf(e, ORACLE_PATHS, n + 1) == Some(s[..n + 1])
  {
    PathsDiffer(n);
    SetNewMember(s[..n], s[n].name, s[n].value);
    assert s[..n + 1] == s[..n] + [Member(s[n].name, s[n].value)];
  }

  lemma PathsDiffer(n: nat)
    requires n < 6
    ensures forall i :: 0 <= i < n ==> ORACLE_PATHS[i] != ORACLE_PATHS[n]
  {
    assert |SOURCE_PATH| == 6 && |TYPE_PATH| == 13 && |ID_PATH| == 11 && |COUNT_PATH| == 25 && |TOTAL_PATH| == 24
      && |CURRENCY_PATH| == 14;
  }

  // ----- What the processor shows in a drill -----

  /** `n` active refunds of the proposal and nothing else active on its order. */
  ghost predicate Shows(refunds: seq<Refund>, p: Proposal, n: nat) {
    && p.parameters.RefundParameters?
    && |ActiveOn(refunds, p.resourceId)| == n
    && Total(ActiveOn(refunds, p.resourceId)) == n * p.parameters.amountMinor
  }

  lemma ShownIsObserved(refunds: seq<Refund>, p: Proposal, n: nat, actionDigest: Digest, now: Time)
    requires Shows(refunds, p, n)
    ensures StateOf(EvidenceObject(Observe(refunds, p, actionDigest, NoEvidenceFault, now)), ORACLE_PATHS, 6)
            == Some(OracleState(p, n).members)
  {
    OracleSees(Observe(refunds, p, actionDigest, NoEvidenceFault, now), p, n);
  }

  lemma TotalAppends(refunds: seq<Refund>, r: Refund)
    ensures Total(refunds + [r]) == Total(refunds) + r.amountMinor
  {
    assert (refunds + [r])[..|refunds|] == refunds;
  }

  lemma CreatedIsShown(s: RefundState, p: Proposal, reference: string, now: Time, n: nat)
    requires AmountValid(p.parameters) && Shows(s.refunds, p, n)
    ensures Shows(Create(s, p, reference, now).refunds, p, n + 1)
  {
    var r := NewRefund(s.refunds, p, reference, now);
    assert (s.refunds + [r])[..|s.refunds|] == s.refunds;
    TotalAppends(ActiveOn(s.refunds, p.resourceId), r);
  }

  /** Refunds of the proposal, owned by it, and nothing else. */
  ghost predicate OnlyOwn(refunds: seq<Refund>, p: Proposal) {
    && p.parameters.RefundParameters?
    && forall i :: 0 <= i < |refunds| ==> Owned(refunds[i], p) && refunds[i].amountMinor == p.parameters.amountMinor
  }

  lemma CreatedIsOwn(s: RefundState, p: Proposal, reference: string, now: Time)
    requires AmountValid(p.parameters) && OnlyOwn(s.refunds, p) && Shows(s.refunds, p, |s.refunds|)
    ensures var t := Create(s, p, reference, now);
            OnlyOwn(t.refunds, p) && Shows(t.refunds, p, |t.refunds|) && |t.refunds| == |s.refunds| + 1
  {
    CreatedIsShown(s, p, reference, now, |s.refunds|);
  }

  /** One execution under a fresh key shows one refund, or two with the injected duplicate. */
  lemma ExecutionShows(c: Crypto, s: RefundState, p: Proposal, key: string, duplicate: bool, now: Time)
    requires KeysMatch(s) && AmountValid(p.parameters) && key !in s.executionDigests && s.refunds == []
    ensures var (t, reply) := Execute(c, s, p, key, if duplicate then Duplicate else NoExecutionFault, now);
            && reply.Replied? && KeysMatch(t) && t.book == s.book && t.remedyDigests == s.remedyDigests
            && OnlyOwn(t.refunds, p) && Shows(t.refunds, p, |t.refunds|) && |t.refunds| == (if duplicate then 2 else 1)
  {
    hide Execute, Create;
    assert Shows(s.refunds, p, 0);
    var first := Create(s, p, key + ":primary", now);
    CreatedIsOwn(s, p, key + ":primary", now);
    CreatedIsOwn(first, p, key + ":duplicate", now);
    ExecutionCreates(c, s, p, key, duplicate, now);
  }

  lemma ExecutionCreates(c: Crypto, s: RefundState, p: Proposal, key: string, duplicate: bool, now: Time)
    requires KeysMatch(s) && AmountValid(p.parameters) && key !in s.executionDigests
    ensures var (t, reply) := Execute(c, s, p, key, if duplicate then Duplicate else NoExecutionFault, now);
            var first := Create(s, p, key + ":primary", now);
            && reply.Replied? && KeysMatch(t) && t.book == s.book && t.remedyDigests == s.remedyDigests
            && t.refunds == (if duplicate then Create(first, p, key + ":duplicate", now) else first).refunds
  {
  }

  /** The reserved remedy takes two owned refunds back to one, and leaves one alone. */
  lemma RemedyShows(c: Crypto, s: RefundState, p: Proposal, token: string, key: string, now: Time)
    requires KeysMatch(s) && key !in s.remedyDigests && token in s.book && s.book[token].status == StatusActive
    requires OnlyOwn(s.refunds, p) && 1 <= |s.refunds| <= 2 && Shows(s.refunds, p, |s.refunds|)
    ensures var (t, reply) := Remediate(c, s, p, VOID_DUPLICATE, token, key, NoRemedyFault, now);
            reply.Replied? && Shows(t.refunds, p, 1)
  {
    OwnAreOwned(s.refunds, p);
    RemedyVoids(c, s, p, token, key, now);
    if |s.refunds| == 2 {
      VoidedShowsOne(s.refunds, p, now);
    }
  }

  lemma OwnAreOwned(refunds: seq<Refund>, p: Proposal)
    requires OnlyOwn(refunds, p) && 1 <= |refunds| <= 2
    ensures OwnedAt(refunds, p) == if |refunds| == 1 then [0] else [0, 1]
  {
    if |refunds| == 1 {
      assert refunds[..0] == [] && OwnedAt(refunds[..0], p) == [];
    } else {
      assert refunds[..1][..0] == [] && OwnedAt(refunds[..1][..0], p) == [];
      assert OwnedAt(refunds[..1], p) == [0];
    }
  }

  lemma RemedyVoids(c: Crypto, s: RefundState, p: Proposal, token: string, key: string, now: Time)
    requires KeysMatch(s) && key !in s.remedyDigests && token in s.book && s.book[token].status == StatusActive
    requires 1 <= |s.refunds| <= 2 && OwnedAt(s.refunds, p) == if |s.refunds| == 1 then [0] else [0, 1]
    ensures var (t, reply) := Remediate(c, s, p, VOID_DUPLICATE, token, key, NoRemedyFault, now);
            reply.Replied? && t.refunds == if |s.refunds| == 1 then s.refunds else Void(s.refunds, 1, now)
  {
  }

  lemma VoidedShowsOne(refunds: seq<Refund>, p: Proposal, now: Time)
    requires p.parameters.RefundParameters?
    requires |refunds| == 2 && Owned(refunds[0], p) && refunds[0].amountMinor == p.parameters.amountMinor
    ensures Shows(Void(refunds, 1, now), p, 1)
  {
    var t := Void(refunds, 1, now);
    assert t[..1] == [refunds[0]] && t[..1][..0] == [];
    assert ActiveOn(t[..1][..0], p.resourceId) == [];
    assert ActiveOn(t[..1], p.resourceId) == [] + [refunds[0]];
    assert ActiveOn(t, p.resourceId) == [refunds[0]];
    assert [refunds[0]][..0] == [] && Total([]) == 0;
    assert Total([refunds[0]]) == refunds[0].amountMinor;
  }

  // ----- The adapter -----

  /** A trace of a drill that could not be run here. */
  function NotTestable(note: string): RawTrace {
    RawTrace(None, None, None, false, None, None, None, None, None, false, false, false, [note])
  }

  /** The operation digests of a contract are those the adapter knows. */
  predicate OperationsMatch(c: Crypto, k: Contract) {
    && c.digest(OperationA(k.fault)) == c.digest(OperationA(EXPECTED_FAULT))
    && c.digest(OperationA(k.procedure)) == c.digest(OperationA(EXPECTED_PROCEDURE))
    && c.digest(OperationA(k.oracle)) == c.digest(OperationA(EXPECTED_ORACLE))
  }

  predicate InScope(c: Crypto, k: Contract, adapterDigest: Digest, connectorDigest: Digest) {
    var p := k.fixture.proposal;
    && k.fixture.fidelity == Synthetic
    && ActionTypeOf(p.parameters) == k.actionClass
    && DigestProposal(c, p) == k.actionDigest
    && p.connector == k.scope.connector
    && p.resourceType == k.scope.resourceType
    && p.mode == k.scope.mode
    && c.digest(ParametersA(p.parameters)) == k.scope.parametersDigest
    && c.digest(PostconditionA(p.postcondition)) == k.scope.postconditionDigest
    && c.digest(EvidencePlanA(p.evidenceSource, p.maxAgeSeconds)) == k.scope.evidencePlanDigest
    && k.recourse.kind == Reverse
    && k.recourse.capability == VOID_DUPLICATE
    && k.recourse.implementationDigest == connectorDigest
    && k.fixture.adapterDigest == adapterDigest
    && OperationsMatch(c, k)
  }

  predicate RequestBound(c: Crypto, k: Contract) {
    var r := k.fixture.request;
    && r.actionDigest == DigestProposal(c, k.fixture.proposal)
    && r.kind == k.recourse.kind
    && r.connector == k.scope.connector
    && r.capability == k.recourse.capability
    && DigestText(c, r.capabilityReference) == k.recourse.capabilityReferenceDigest
  }

  /** A refund contract as the demonstration builds them: in scope, with the operations the
      adapter expects, a request the processor reserves, the commitment it then makes, and the
      expected checkpoint. */
  predicate Matching(c: Crypto, signer: Signer, k: Contract, adapterDigest: Digest, connectorDigest: Digest,
      now: Time) {
    var p := k.fixture.proposal;
    && InScope(c, k, adapterDigest, connectorDigest)
    && k.fault == EXPECTED_FAULT && k.procedure == EXPECTED_PROCEDURE && k.oracle == EXPECTED_ORACLE
    && RequestBound(c, k)
    && AmountValid(p.parameters)
    && CanReserve(REFUND_OFFER, p, k.fixture.request)
    && DigestCommitment(c, MakeCommitment(c, signer, REFUND_OFFER, k.fixture.request,
         now)) == k.recourse.commitmentDigest
    && k.recoveryClass == Exact
    && k.fixture.checkpointDigest == DigestFacts(c, OracleState(p, 1))
  }

  /** The trace a drill of a matching contract leaves: how many active refunds each state shows,
      and what was made of the checkpoint. */
  function DrillTrace(c: Crypto, k: Contract, fault: DrillFault): RawTrace
    requires k.fixture.proposal.parameters.RefundParameters?
  {
    var p := k.fixture.proposal;
    var baseline := OracleState(p, 1);
    var damaged := OracleState(p, if fault == FaultNotObserved then 1 else 2);
    var recovered := if fault == DrillRemedyFailure then damaged else baseline;
    RawTrace(
      None, None, None, true, Some(k.fixture.checkpointDigest), Some(baseline),
      if fault == MissingCheckpoint then Some(Null)
      else if fault == CorruptCheckpoint then Some(CorruptedState(baseline))
      else Some(baseline),
      Some(damaged), Some(recovered),
      DigestFacts(c, damaged) != DigestFacts(c, baseline), true, DigestFacts(c, recovered) == DigestFacts(c, baseline),
      ["ISOLATED_SYNTHETIC_CONNECTOR", "EXACT_ONLY_WITHIN_DECLARED_EVIDENCE_SURFACE"])
  }

  /** `checkpointState["facts.active_refund_count"] += 100`. */
  function CorruptedState(state: Facts): Facts {
    if state.Obj? && FindMember(state.members, COUNT_PATH).Some? && FindMember(state.members, COUNT_PATH).value.Number?
    then Obj(SetMember(state.members, COUNT_PATH, Number(FindMember(state.members, COUNT_PATH).value.n + 100.0)))
    else state
  }

  predicate AllStrings(items: seq<Facts>) { forall i :: 0 <= i < |items| ==> items[i].Str? }

  /** The oracle's paths, when it lists any. */
  function OraclePaths(k: Contract): Option<seq<string>> {
    if !k.oracle.parameters.Obj? then None
    else
      var found := FindMember(k.oracle.parameters.members, "paths");
      if found.Some? && found.value.Arr? && AllStrings(found.value.items) then Some(Texts(found.value.items)) else None
  }

  function Texts(items: seq<Facts>): (texts: seq<string>)
    requires AllStrings(items)
    ensures |texts| == |items| && forall i :: 0 <= i < |items| ==> texts[i] == items[i].text
  {
    seq(|items|, i requires 0 <= i < |items| => items[i].text)
  }

  lemma ExpectedOraclePaths(k: Contract)
    requires k.oracle == EXPECTED_ORACLE
    ensures OraclePaths(k) == Some(ORACLE_PATHS)
  {
    var members := k.oracle.parameters.members;
    FindLater(members, 0, "paths");
    assert Texts(members[0].value.items) == ORACLE_PATHS;
  }

  class MockRefundRecoveryAdapter {
    const crypto: Crypto
    const signer: Signer
    const drillFault: DrillFault
    const implementationDigest: Digest
    /** What the measured processor implementation digests to. */
    const connectorDigest: Digest

    constructor (crypto: Crypto, signer: Signer, drillFault: DrillFault, implementationDigest: Digest,
        connectorDigest: Digest)
      ensures this.crypto == crypto && this.signer == signer && this.drillFault == drillFault
      ensures this.implementationDigest == implementationDigest && this.connectorDigest == connectorDigest
    {
      this.crypto, this.signer, this.drillFault := crypto, signer, drillFault;
      this.implementationDigest, this.connectorDigest := implementationDigest, connectorDigest;
    }

    /** The faults that still drill. */
    predicate Drills() {
      drillFault in {NoDrillFault, MissingCheckpoint, CorruptCheckpoint, FaultNotObserved, DrillRemedyFailure}
    }

    /** run(): nothing comes back when a connector call throws. */
    method Run(k: Contract, now: Time) returns (r: Option<RawTrace>)
      ensures drillFault == UnsupportedFault ==> r == Some(NotTestable("DRILL_FAULT_UNSUPPORTED"))
      ensures drillFault == LocalUnavailable ==> r == Some(NotTestable("LOCAL_ADAPTER_UNAVAILABLE"))
      ensures Drills() && !InScope(crypto, k, implementationDigest, connectorDigest) ==>
                r == Some(NotTestable("CONTRACT_OUTSIDE_ADAPTER_SCOPE"))
      ensures drillFault == OutOfScope ==> r == Some(NotTestable("CONTRACT_OUTSIDE_ADAPTER_SCOPE"))
      ensures Drills() && Matching(crypto, signer, k, implementationDigest, connectorDigest, now) ==>
                r == Some(DrillTrace(crypto, k, drillFault))
    {
      if drillFault == UnsupportedFault {
        return Some(NotTestable("DRILL_FAULT_UNSUPPORTED"));
      }
      if drillFault == LocalUnavailable {
        return Some(NotTestable("LOCAL_ADAPTER_UNAVAILABLE"));
      }
      if drillFault == OutOfScope || !InScope(crypto, k, implementationDigest, connectorDigest) {
        return Some(NotTestable("CONTRACT_OUTSIDE_ADAPTER_SCOPE"));
      }
      ghost var matching := Matching(crypto, signer, k, implementationDigest, connectorDigest, now);
      var paths := OraclePaths(k);
      if matching {
        ExpectedOraclePaths(k);
      }
      if paths.None? || !k.fixture.proposal.parameters.RefundParameters? {
        return None;
      }
      var baseline := Control(k.fixture.proposal, paths.value, now);
      if baseline.None? {
        return None;
      }
      if !RequestBound(crypto, k) {
        return Some(NotTestable("RECOURSE_BINDING_MISMATCH"));
      }
      r := Damage(k, paths.value, baseline.value, now);
    }

    /** The undamaged run. */
    method Control(p: Proposal, paths: seq<string>, now: Time) returns (state: Option<Facts>)
      requires p.parameters.RefundParameters?
      ensures AmountValid(p.parameters) && paths == ORACLE_PATHS ==> state == Some(OracleState(p, 1))
    {
      var control := new MockRefundConnector(crypto, signer);
      var key := p.idempotencyKey + ":preflight-control";
      ghost var empty := control.State();
      var reply := control.ExecuteRefund(p, key, NoExecutionFault, now);
      if reply.Threw? {
        if AmountValid(p.parameters) {
          ExecutionShows(crypto, empty, p, key, false, now);
        }
        return None;
      }
      var evidence := control.ObserveOrder(p, DigestProposal(crypto, p), NoEvidenceFault, now);
      state := ObservedState(EvidenceObject(evidence), paths);
      if AmountValid(p.parameters) {
        ExecutionShows(crypto, empty, p, key, false, now);
        ShownIsObserved(control.refunds, p, 1, DigestProposal(crypto, p), now);
      }
    }

    /** The damaged run: reserve, execute with the injected fault, remedy, and look twice. */
    method Damage(k: Contract, paths: seq<string>, baseline: Facts, now: Time) returns (r: Option<RawTrace>)
      requires k.fixture.proposal.parameters.RefundParameters?
      requires Drills()
      ensures (Matching(crypto, signer, k, implementationDigest, connectorDigest, now) && paths == ORACLE_PATHS
               && baseline == OracleState(k.fixture.proposal, 1)) ==> r == Some(DrillTrace(crypto, k, drillFault))
    {
      hide OracleState, DigestCommitment, TokenOf, CorruptedState;
      var p := k.fixture.proposal;
      var fixture := new MockRefundConnector(crypto, signer);
      var commitment := fixture.ReserveRecourse(p, k.fixture.request, now);
      if commitment.None? {
        return None;
      }
      if DigestCommitment(crypto, commitment.value) != k.recourse.commitmentDigest {
        return Some(NotTestable("CONNECTOR_COMMITMENT_BINDING_MISMATCH"));
      }
      var states := BreakAndRepair(fixture, p, k.fixture.request.capability, commitment.value.body.token, paths, now);
      if states.None? {
        return None;
      }
      var (damaged, recovered) := states.value;
      var checkpoint := Checkpoint(baseline);
      r := Some(RawTrace(
        None, None, None, true, Some(k.fixture.checkpointDigest), Some(baseline), Some(checkpoint), Some(damaged),
          Some(recovered), DigestFacts(crypto, damaged) != DigestFacts(crypto, baseline), true,
        DigestFacts(crypto, recovered) == DigestFacts(crypto, baseline),
        ["ISOLATED_SYNTHETIC_CONNECTOR", "EXACT_ONLY_WITHIN_DECLARED_EVIDENCE_SURFACE"]));
    }

    /** The state the fault leaves, and the one the remedy leaves. */
    method BreakAndRepair(
        fixture: MockRefundConnector, p: Proposal, capability: string, token: string, paths: seq<string>, now: Time)
      returns (states: Option<(Facts, Facts)>)
      requires p.parameters.RefundParameters? && fixture.crypto == crypto && fixture.Valid() && Drills()
      requires fixture.refunds == [] && fixture.executionActionDigests == map[] && fixture.remedyActionDigests == map[]
      requires token in fixture.recourseReservations && fixture.recourseReservations[token].status == StatusActive
      modifies fixture
      ensures AmountValid(p.parameters) && capability == VOID_DUPLICATE && paths == ORACLE_PATHS ==>
                states == Some((OracleState(p, if drillFault == FaultNotObserved then 1 else 2),
                                OracleState(p, if drillFault == DrillRemedyFailure then 2 else 1)))
    {
      hide OracleState, OnlyOwn, Shows;
      var damaged := Break(fixture, p, paths, now);
      if damaged.None? {
        return None;
      }
      var recovered := Repair(fixture, p, capability, token, paths, now);
      if recovered.None? {
        return None;
      }
      return Some((damaged.value, recovered.value));
    }

    /** Executes under the drill's fault and shows the damage. */
    method Break(fixture: MockRefundConnector, p: Proposal, paths: seq<string>, now: Time)
      returns (state: Option<Facts>)
      requires p.parameters.RefundParameters? && fixture.crypto == crypto && fixture.Valid()
      requires fixture.refunds == [] && fixture.executionActionDigests == map[]
      modifies fixture
      ensures fixture.Valid()
      ensures AmountValid(p.parameters) ==>
                && OnlyOwn(fixture.refunds, p) && |fixture.refunds| == (if drillFault == FaultNotObserved then 1 else 2)
                && Shows(fixture.refunds, p, |fixture.refunds|)
                && fixture.recourseReservations == old(fixture.recourseReservations)
                && fixture.remedyActionDigests == old(fixture.remedyActionDigests)
                && (paths == ORACLE_PATHS ==> state == Some(OracleState(p, |fixture.refunds|)))
    {
      var key := p.idempotencyKey + ":preflight-fixture";
      var duplicate := drillFault != FaultNotObserved;
      ghost var before := fixture.State();
      var reply := fixture.ExecuteRefund(p, key, if duplicate then Duplicate else NoExecutionFault, now);
      if AmountValid(p.parameters) {
        ExecutionShows(crypto, before, p, key, duplicate, now);
        ShownIsObserved(fixture.refunds, p, |fixture.refunds|, DigestProposal(crypto, p), now);
      }
      if reply.Threw? {
        return None;
      }
      var evidence := fixture.ObserveOrder(p, DigestProposal(crypto, p), NoEvidenceFault, now);
      state := ObservedState(EvidenceObject(evidence), paths);
    }

    /** Runs the reserved remedy and shows what it left. */
    method Repair(fixture: MockRefundConnector, p: Proposal, capability: string, token: string, paths: seq<string>,
        now: Time)
      returns (state: Option<Facts>)
      requires p.parameters.RefundParameters? && fixture.crypto == crypto && fixture.Valid() && Drills()
      modifies fixture
      ensures (capability == VOID_DUPLICATE && paths == ORACLE_PATHS && old(Broken(fixture, p, token))) ==>
                state == Some(OracleState(p, if drillFault == DrillRemedyFailure then 2 else 1))
    {
      var key := p.idempotencyKey + ":preflight-remedy";
      var remedyFault := if drillFault == DrillRemedyFailure then RemedyFailure else NoRemedyFault;
      ghost var before := fixture.State();
      ghost var repairable := capability == VOID_DUPLICATE && Broken(fixture, p, token);
      var reply := fixture.RemediateRefund(p, capability, token, key, remedyFault, now);
      if repairable {
        RemediedShows(before, p, token, key, remedyFault, now);
        ShownIsObserved(fixture.refunds, p, if drillFault == DrillRemedyFailure then 2 else 1,
          DigestProposal(crypto, p), now);
      }
      if reply.Threw? {
        return None;
      }
      var evidence := fixture.ObserveOrder(p, DigestProposal(crypto, p), NoEvidenceFault, now);
      state := ObservedState(EvidenceObject(evidence), paths);
    }

    /** The fixture as the fault leaves it, its recourse still active. */
    ghost predicate Broken(fixture: MockRefundConnector, p: Proposal, token: string)
      reads fixture
    {
      && OnlyOwn(fixture.refunds, p) && |fixture.refunds| == (if drillFault == FaultNotObserved then 1 else 2)
      && Shows(fixture.refunds, p, |fixture.refunds|)
      && fixture.remedyActionDigests == map[]
      && token in fixture.recourseReservations && fixture.recourseReservations[token].status == StatusActive
    }

    /** What the drill's fault makes of the copied baseline. */
    method Checkpoint(baseline: Facts) returns (checkpoint: Facts)
      ensures checkpoint == if drillFault == MissingCheckpoint then Null
                            else if drillFault == CorruptCheckpoint then CorruptedState(baseline)
                            else baseline
    {
      checkpoint := baseline;
      if drillFault == MissingCheckpoint {
        checkpoint := Null;
      } else if drillFault == CorruptCheckpoint {
        checkpoint := CorruptedState(checkpoint);
      }
    }

    lemma RemediedShows(s: RefundState, p: Proposal, token: string, key: string, fault: RemedyFault, now: Time)
      requires KeysMatch(s) && key !in s.remedyDigests && token in s.book && s.book[token].status == StatusActive
      requires OnlyOwn(s.refunds, p) && 1 <= |s.refunds| <= 2 && Shows(s.refunds, p, |s.refunds|)
      requires fault == NoRemedyFault || (fault == RemedyFailure && |s.refunds| == 2)
      ensures var (t, reply) := Remediate(crypto, s, p, VOID_DUPLICATE, token, key, fault, now);
              reply.Replied? && Shows(t.refunds, p, if fault == RemedyFailure then 2 else 1)
    {
      if fault == NoRemedyFault {
        RemedyShows(crypto, s, p, token, key, now);
      }
    }
  }

  // ----- What a drill qualifies -----

  lemma CorruptedStateDiffers(p: Proposal)
    requires p.parameters.RefundParameters?
    ensures CorruptedState(OracleState(p, 1)) != OracleState(p, 1)
  {
    var state := OracleState(p, 1);
    FindLater(state.members, 3, COUNT_PATH);
    var corrupted := SetMember(state.members, COUNT_PATH, Number(101.0));
    assert state.members[0].name != COUNT_PATH && state.members[1].name != COUNT_PATH
      && state.members[2].name != COUNT_PATH by {
      PathsDiffer(3);
    }
    assert CorruptedState(state) == Obj(corrupted);
    SetChanges(state.members, 3, COUNT_PATH, Number(101.0));
  }

  lemma {:induction false} SetChanges(members: seq<Member<string, real>>, k: nat, name: string, value: Facts)
    requires k < |members| && members[k] .name == name && members[k].value != value
    requires forall i :: 0 <= i < k ==> members[i].name != name
    ensures SetMember(members, name, value) != members
    decreases k
  {
    if k > 0 {
      SetChanges(members[1..], k - 1, name, value);
      var changed := SetMember(members, name, value);
      assert changed[1..] == SetMember(members[1..], name, value);
    } else {
      assert SetMember(members, name, value)[0] == Member(name, value);
    }
  }

  /** Two states of the drill that a digest cannot tell apart. */
  ghost predicate StatesCollide(c: Crypto, p: Proposal)
    requires p.parameters.RefundParameters?
  {
    || FactsCollide(c, OracleState(p, 2), OracleState(p, 1))
    || FactsCollide(c, CorruptedState(OracleState(p, 1)), OracleState(p, 1))
  }

  function Drilled(c: Crypto, k: Contract, adapter: Adapter, fault: DrillFault): Option<Qualification>
    requires k.fixture.proposal.parameters.RefundParameters?
  {
    match NormalizeTrace(DrillTrace(c, k, fault), adapter)
    case None => None
    case Some(t) => Some(DeriveQualification(c, k, t))
  }

  /** For every matching refund contract the drill without a fault qualifies exact recovery, and
      a missing checkpoint, a corrupt checkpoint, a fault that is not observed and a remedy that
      fails each do not, unless two states collide under the digest. */
  lemma DrillQualifiesExactly(
      c: Crypto, signer: Signer, k: Contract, adapterDigest: Digest, connectorDigest: Digest, now: Time,
      adapter: Adapter, fault: DrillFault)
    requires Matching(c, signer, k, adapterDigest, connectorDigest, now)
    requires fault in {NoDrillFault, MissingCheckpoint, CorruptCheckpoint, FaultNotObserved, DrillRemedyFailure}
    ensures StatesCollide(c, k.fixture.proposal) ||
            Drilled(c, k, adapter, fault) == Some(if fault == NoDrillFault then QualifiedExact else NotQualified)
  {
    var p := k.fixture.proposal;
    CorruptedStateDiffers(p);
    assert OracleState(p, 2).members[3].value != OracleState(p, 1).members[3].value;
  }
}
