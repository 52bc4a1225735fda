/** What acceptance by `VerifyBundle` says about an event list nobody vouches for. */
module VerifySoundness {
  import opened RailStates
  import opened Artifacts
  import opened Postconditions
  import opened EventStore
  import opened Verify

  // ----- Paths -----

  /** A state with an outcome can only stand directly before CLOSED. */
  lemma OutcomeStandsBeforeClosed(path: seq<State>, i: nat)
    requires LegalPath(path) && path[|path| - 1] == CLOSED
    requires i < |path| && OutcomeOf(path[i]).Some?
    ensures i == |path| - 2
  {
    OutcomeStatesClose(path[i]);
    assert i < |path| - 1;
    assert Allowed(path[i], path[i + 1]);
    if i + 1 < |path| - 1 {
      RankFalls(path, i + 1, |path| - 1);
    }
  }

  /** The membership tests of deriveOutcome agree with the state that led to CLOSED, and on a
      complete lifecycle they never fail. */
  lemma {:induction false} OutcomeIsTheStateBeforeClosed(path: seq<State>)
    requires LegalPath(path) && path[|path| - 1] == CLOSED
    ensures |path| >= 2
    ensures DeriveOutcome(path) == OutcomeOf(path[|path| - 2])
    ensures DeriveOutcome(path).Some?
  {
    var last := path[|path| - 2];
    assert Allowed(last, path[|path| - 1]);
    OutcomeStatesClose(last);
    assert last in path;
    forall s | s in path && OutcomeOf(s).Some?
      ensures s == last
    {
      var i :| 0 <= i < |path| && path[i] == s;
      OutcomeStandsBeforeClosed(path, i);
    }
  }

  ghost predicate VisitsOnce(path: seq<State>) {
    forall i, j :: 0 <= i < j < |path| ==> path[i] != path[j]
  }

  lemma LegalPathIsSimple(path: seq<State>)
    requires LegalPath(path)
    ensures VisitsOnce(path)
  {
    forall i, j | 0 <= i < j < |path|
      ensures path[i] != path[j]
    {
      RankFalls(path, i, j);
    }
  }

  // ----- Positions -----

  lemma {:induction false} ReplayReachesLastState(id: Id, es: seq<Event>)
    requires Replay(id, es).Some?
    ensures LastState(es) == Replay(id, es).value[|Replay(id, es).value| - 1]
  {
    if es != [] {
      ReplayReachesLastState(id, es[..|es| - 1]);
    }
  }

  /** Along a legal history the state before a later event never outranks an earlier one. */
  lemma {:induction false} StateFalls(id: Id, es: seq<Event>, i: nat, j: nat)
    requires Replay(id, es).Some?
    requires i <= j <= |es|
    ensures Rank(LastState(es[..j])) <= Rank(LastState(es[..i]))
    decreases |es|
  {
    var n := |es| - 1;
    if i < j {
      ReplayReachesLastState(id, es);
      ReplayReachesLastState(id, es[..n]);
      if j <= n {
        assert es[..n][..i] == es[..i] && es[..n][..j] == es[..j];
        StateFalls(id, es[..n], i, j);
      } else {
        assert es[..n][..i] == es[..i] && es[..n][..n] == es[..n] && es[..j] == es;
        StateFalls(id, es[..n], i, n);
        match es[n].Payload() {
          case StateTransition(from, to, _, _) => SuccessorFalls(from, to);
          case _ =>
        }
      }
    }
  }

  /** In a verified chain sequence numbers are positions, so looking an event up by its
      number finds the state before its position. */
  lemma SequenceIsPosition(c: Crypto, keys: map<KeyId, PublicKey>, es: seq<Event>, i: nat)
    requires ChainValid(c, keys, es) && i < |es|
    ensures es[i].signed.body.sequence == i
    ensures StateBefore(es, es[i].signed.body.sequence) == Some(LastState(es[..i]))
  {
    assert LinkError(c, keys, es, i) == None;
    var found := FindFirst(es, SequenceIs(i));
    if found.Some? {
      assert LinkError(c, keys, es, found.value) == None;
    }
  }

  // ----- Accepted bundles -----

  /** Event `i` records the acceptance of an included, rail-signed piece of evidence of this
      phase, in the state that phase belongs to, while the evidence was fresh. */
  ghost predicate AcceptedAt(c: Crypto, b: Bundle, p: Proposal, i: nat, phase: Phase, satisfied: bool) {
    && i < |b.events|
    && LastState(b.events[..i]) == (if phase == PostRemedy then REMEDY_VERIFYING else VERIFYING)
    && AcceptedSatisfied(b.events[i]) == satisfied
    && exists e <- b.outcomeEvidence ::
         && e.body.phase == phase
         && AcceptanceOf(phase, DigestEvidence(c, e))(b.events[i])
         && Evaluate(p.postcondition, e.body.facts).satisfied == satisfied
         && 0 <= b.events[i].RecordedAt() - e.body.observedAt <= p.maxAgeSeconds * 1000
  }

  /** What the checks on one piece of evidence say about its acceptance event. */
  lemma AcceptanceOfEvidence(c: Crypto, es: seq<Event>, e: Evidence, p: Proposal, keys: map<KeyId, PublicKey>)
      returns (i: nat)
    requires ChainValid(c, keys, es)
    requires EvidenceSemantics(c, e, p, es)
    ensures i < |es|
    ensures AcceptanceOf(e.body.phase, DigestEvidence(c, e))(es[i])
    ensures LastState(es[..i]) == (if e.body.phase == PostRemedy then REMEDY_VERIFYING else VERIFYING)
    ensures 0 <= es[i].RecordedAt() - e.body.observedAt <= p.maxAgeSeconds * 1000
    ensures AcceptedSatisfied(es[i]) == Evaluate(p.postcondition, e.body.facts).satisfied
  {
    i := FindFirst(es, AcceptanceOf(e.body.phase, DigestEvidence(c, e))).value;
    SequenceIsPosition(c, keys, es, i);
  }

  lemma EvidenceWasAccepted(c: Crypto, b: Bundle, p: Proposal, keys: map<KeyId, PublicKey>, phase: Phase,
      satisfied: bool)
      returns (i: nat)
    requires ChainValid(c, keys, b.events)
    requires forall e <- b.outcomeEvidence :: EvidenceSemantics(c, e, p, b.events)
    requires SomeEvidence(b, p, phase, satisfied)
    ensures AcceptedAt(c, b, p, i, phase, satisfied)
    ensures i < |b.events| && LastState(b.events[..i]) == (if phase == PostRemedy then REMEDY_VERIFYING else VERIFYING)
  {
    hide EvidenceSemantics, ChainValid, DigestEvidence, LastState, Evaluate;
    var e :| e in b.outcomeEvidence && e.body.phase == phase &&
             Evaluate(p.postcondition, e.body.facts).satisfied == satisfied;
    i := AcceptanceOfEvidence(c, b.events, e, p, keys);
  }

  /** The stages of an accepted audit bundle that the theorems below use. */
  lemma AcceptedStages(
      c: Crypto, b: Bundle, keys: map<KeyId, PublicKey>, connectorKeys: map<KeyId, PublicKey>)
    requires VerifyBundle(c, b, keys, connectorKeys, true).Ok?
    ensures ChainValid(c, keys, b.events)
    ensures b.action.proposal.Some?
    ensures ArtifactSemantics(c, b, b.action.proposal.value)
    ensures CompleteReplay(b.events, b.action).Some?
    ensures LifecycleSemantics(c, b, CompleteReplay(b.events, b.action).value)
    ensures forall e <- b.outcomeEvidence :: EvidenceSemantics(c, e, b.action.proposal.value, b.events)
    ensures EvidenceSupportsOutcome(b, b.action.proposal.value, CompleteReplay(b.events, b.action).value)
    ensures RecourseSemantics(c, b)
    ensures VerifyBundle(c, b, keys, connectorKeys, true).value.outcome == b.receipt.body.outcome
  {
  }

  /** One simple legal path from PROPOSED to CLOSED, with one execution. */
  ghost predicate LawfulPath(path: seq<State>) {
    && LegalPath(path)
    && VisitsOnce(path)
    && path[|path| - 1] == CLOSED
    && multiset(path)[EXECUTING] == 1
    && multiset(path)[REMEDIATING] <= 1
  }

  /** The permit was consumed once, inside its own window and the proposal's. */
  ghost predicate ExecutedInWindow(b: Bundle, p: Proposal) {
    exists i :: 0 <= i < |b.events| && TransitionTo(EXECUTING)(b.events[i]) &&
      p.requestedAt <= b.permit.body.issuedAt <= b.events[i].RecordedAt() < p.expiresAt
  }

  /** Acceptance of an audit bundle, with arbitrary events, implies a lawful history whose
      receipt says how it really ended. */
  lemma AcceptedHistoryIsLawful(
      c: Crypto, b: Bundle, keys: map<KeyId, PublicKey>, connectorKeys: map<KeyId, PublicKey>)
    requires VerifyBundle(c, b, keys, connectorKeys, true).Ok?
    ensures b.action.proposal.Some?
    ensures var path := CompleteReplay(b.events, b.action);
            && path.Some?
            && LawfulPath(path.value)
            && OutcomeOf(path.value[|path.value| - 2]) == Some(b.receipt.body.outcome)
            && VerifyBundle(c, b, keys, connectorKeys, true).value.outcome == b.receipt.body.outcome
    ensures ExecutedInWindow(b, b.action.proposal.value)
    ensures ScopeCovers(b.action.proposal.value.parameters, b.reservation.body.commitment.body.scope)
    ensures b.reservation.body.commitment.body.reservedAt <= b.permit.body.issuedAt
    ensures b.reservation.body.expiresAt >=
              b.action.proposal.value.expiresAt + b.reservation.body.remedyWindowSeconds * 1000
  {
    AcceptedStages(c, b, keys, connectorKeys);
    var path := CompleteReplay(b.events, b.action).value;
    OutcomeIsTheStateBeforeClosed(path);
    LegalPathIsSimple(path);
    VisitedAtMostOnce(path, REMEDIATING);
    var execution := FindFirst(b.events, TransitionTo(EXECUTING)).value;
    assert TransitionTo(EXECUTING)(b.events[execution]);
  }

  /** Settled: satisfying evidence was accepted while verifying, and nothing was breached. */
  lemma SettledWasSatisfied(
      c: Crypto, b: Bundle, keys: map<KeyId, PublicKey>, connectorKeys: map<KeyId, PublicKey>) returns (i: nat)
    requires VerifyBundle(c, b, keys, connectorKeys, true).Ok?
    requires b.receipt.body.outcome == Settled
    ensures b.action.proposal.Some?
    ensures AcceptedAt(c, b, b.action.proposal.value, i, Initial, true)
    ensures CompleteReplay(b.events, b.action).Some? && BREACHED !in CompleteReplay(b.events, b.action).value
  {
    AcceptedStages(c, b, keys, connectorKeys);
    i := EvidenceWasAccepted(c, b, b.action.proposal.value, keys, Initial, true);
  }

  /** Compensated: a breach was accepted first and a satisfying post-remedy observation was
      accepted strictly later, each fresh and each in its own phase. */
  lemma CompensatedWasBreachedThenRemedied(
      c: Crypto, b: Bundle, keys: map<KeyId, PublicKey>, connectorKeys: map<KeyId, PublicKey>) returns (i: nat, j: nat)
    requires VerifyBundle(c, b, keys, connectorKeys, true).Ok?
    requires b.receipt.body.outcome == Compensated
    ensures b.action.proposal.Some?
    ensures AcceptedAt(c, b, b.action.proposal.value, i, Initial, false)
    ensures AcceptedAt(c, b, b.action.proposal.value, j, PostRemedy, true)
    ensures i < j
  {
    AcceptedStages(c, b, keys, connectorKeys);
    i, j := BreachThenRemedy(c, b, b.action.proposal.value, keys);
  }

  lemma BreachThenRemedy(c: Crypto, b: Bundle, p: Proposal, keys: map<KeyId, PublicKey>) returns (i: nat, j: nat)
    requires ChainValid(c, keys, b.events)
    requires forall e <- b.outcomeEvidence :: EvidenceSemantics(c, e, p, b.events)
    requires SomeEvidence(b, p, Initial, false) && SomeEvidence(b, p, PostRemedy, true)
    requires Replay(b.action.actionId, b.events).Some?
    ensures AcceptedAt(c, b, p, i, Initial, false)
    ensures AcceptedAt(c, b, p, j, PostRemedy, true)
    ensures i < j
  {
    i := EvidenceWasAccepted(c, b, p, keys, Initial, false);
    j := EvidenceWasAccepted(c, b, p, keys, PostRemedy, true);
    VerifyingPrecedesRemedyVerifying(b.action.actionId, b.events, i, j);
  }

  lemma VerifyingPrecedesRemedyVerifying(id: Id, es: seq<Event>, i: nat, j: nat)
    requires Replay(id, es).Some? && i <= |es| && j <= |es|
    requires LastState(es[..i]) == VERIFYING && LastState(es[..j]) == REMEDY_VERIFYING
    ensures i < j
  {
    if j <= i {
      StateFalls(id, es, j, i);
    }
  }

  ghost predicate RecourseSettledLast(b: Bundle) {
    var n := |b.events|;
    && n >= 2
    && IsRecourseEvent(b.events[n - 2])
    && (forall i :: 0 <= i < n && IsRecourseEvent(b.events[i]) ==> i == n - 2)
    && b.events[n - 2].Payload().status == b.receipt.body.recourseFinalStatus
    && OutcomeOf(LastState(b.events[..n - 2])) == Some(b.receipt.body.outcome)
    && b.events[n - 1].RecordedAt() == b.receipt.body.closedAt
  }

  /** The final recourse status is the one and only recourse event, recorded directly before
      CLOSED in the very state that decided the outcome. */
  lemma RecourseWasSettledLast(
      c: Crypto, b: Bundle, keys: map<KeyId, PublicKey>, connectorKeys: map<KeyId, PublicKey>)
    requires VerifyBundle(c, b, keys, connectorKeys, true).Ok?
    ensures RecourseSettledLast(b)
  {
    hide VerifyBundle, LastState, EvidenceSupportsOutcome, LifecycleSemantics, EvidenceSemantics, ArtifactSemantics,
         RecourseEvents, ChainValid, SignatureChecks, StateBefore, BindingsOk, CompleteReplay;
    AcceptedStages(c, b, keys, connectorKeys);
    var n := |b.events|;
    SequenceIsPosition(c, keys, b.events, n - 2);
    forall i | 0 <= i < n && IsRecourseEvent(b.events[i])
      ensures i == n - 2
    {
      if i != n - 2 {
        TwoRecourseEventsCount(b.events, if i < n - 2 then i else n - 2, if i < n - 2 then n - 2 else i);
      }
    }
  }

  lemma {:induction false} TwoRecourseEventsCount(es: seq<Event>, i: nat, j: nat)
    requires i < j < |es| && IsRecourseEvent(es[i]) && IsRecourseEvent(es[j])
    ensures |RecourseEvents(es)| >= 2
    decreases |es|
  {
    var n := |es| - 1;
    if j < n {
      TwoRecourseEventsCount(es[..n], i, j);
    } else {
      OneRecourseEventCounts(es[..n], i);
    }
  }

  lemma {:induction false} OneRecourseEventCounts(es: seq<Event>, i: nat)
    requires i < |es| && IsRecourseEvent(es[i])
    ensures |RecourseEvents(es)| >= 1
    decreases |es|
  {
    if i < |es| - 1 {
      OneRecourseEventCounts(es[..|es| - 1], i);
    }
  }

  /** verifyChainCheckpoint: two accepted bundles that extend the same checkpoint share the
      checkpointed history, or exhibit a digest collision. */
  lemma CheckpointedBundlesShareHistory(
      c: Crypto, a: Bundle, b: Bundle,
      keys: map<KeyId, PublicKey>, connectorKeys: map<KeyId, PublicKey>,
      aSemantics: bool, bSemantics: bool, eventCount: nat, chainHead: Digest)
    requires VerifyBundle(c, a, keys, connectorKeys, aSemantics).Ok?
    requires VerifyBundle(c, b, keys, connectorKeys, bSemantics).Ok?
    requires ExtendsCheckpoint(a.events, eventCount, chainHead)
    requires ExtendsCheckpoint(b.events, eventCount, chainHead)
    ensures SamePrefixOrCollision(c, a.events, b.events, eventCount)
  {
    AcceptedExactly(c, a, keys, connectorKeys, aSemantics);
    AcceptedExactly(c, b, keys, connectorKeys, bSemantics);
    CheckpointProvesPrefix(c, keys, keys, a.events, b.events, eventCount);
  }
}
