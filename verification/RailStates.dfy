/** The lifecycle states, the transition table and the outcome table (src/rail-state.js). */
module RailStates {
  datatype State =
    | PROPOSED | AUTHORIZED | DENIED | RECOURSE_RESERVED | PERMITTED | EXPIRED | REVOKED
    | EXECUTING | EXECUTED | FAILED | UNKNOWN
    | VERIFYING | SATISFIED | BREACHED | INCONCLUSIVE
    | REMEDY_DUE | REMEDIATING | REMEDY_UNKNOWN | REMEDY_VERIFYING
    | REMEDIATED | REMEDY_FAILED | REMEDY_INCONCLUSIVE
    | REVIEW_REQUIRED | CLOSED

  datatype Outcome = Settled | Compensated | Disputed

  datatype Option<+T> = None | Some(value: T)

  /** ALLOWED_TRANSITIONS; a state without an entry has no successors. */
  predicate Allowed(from: State, to: State) {
    match from
    case PROPOSED => to == AUTHORIZED || to == DENIED
    case AUTHORIZED => to == EXPIRED || to == REVOKED || to == RECOURSE_RESERVED
    case RECOURSE_RESERVED => to == EXPIRED || to == REVOKED || to == PERMITTED
    case PERMITTED => to == EXPIRED || to == REVOKED || to == EXECUTING
    case EXECUTING => to == EXECUTED || to == FAILED || to == UNKNOWN
    case UNKNOWN => to == EXECUTED || to == FAILED || to == REVIEW_REQUIRED
    case EXECUTED => to == VERIFYING
    case VERIFYING => to == SATISFIED || to == BREACHED || to == INCONCLUSIVE
    case BREACHED => to == REMEDY_DUE
    case REMEDY_DUE => to == REMEDIATING || to == REVIEW_REQUIRED
    case REMEDIATING => to == REMEDY_VERIFYING || to == REMEDY_FAILED || to == REMEDY_UNKNOWN
    case REMEDY_UNKNOWN => to == REMEDY_VERIFYING || to == REMEDY_FAILED || to == REVIEW_REQUIRED
    case REMEDY_VERIFYING => to == REMEDIATED || to == REMEDY_FAILED || to == REMEDY_INCONCLUSIVE
    case SATISFIED => to == CLOSED
    case REMEDIATED => to == CLOSED
    case INCONCLUSIVE => to == CLOSED
    case REMEDY_INCONCLUSIVE => to == CLOSED
    case REVIEW_REQUIRED => to == CLOSED
    case REMEDY_FAILED => to == CLOSED
    case _ => false
  }

  /** RECEIPT_OUTCOME_BY_STATE. */
  function OutcomeOf(s: State): Option<Outcome> {
    match s
    case SATISFIED => Some(Settled)
    case REMEDIATED => Some(Compensated)
    case INCONCLUSIVE => Some(Disputed)
    case REMEDY_INCONCLUSIVE => Some(Disputed)
    case REVIEW_REQUIRED => Some(Disputed)
    case REMEDY_FAILED => Some(Disputed)
    case _ => None
  }

  /** Length of the longest path that leaves a state: the table is acyclic because this falls. */
  function Rank(s: State): nat {
    match s
    case PROPOSED => 14
    case AUTHORIZED => 13
    case RECOURSE_RESERVED => 12
    case PERMITTED => 11
    case EXECUTING => 10
    case UNKNOWN => 9
    case EXECUTED => 8
    case VERIFYING => 7
    case BREACHED => 6
    case REMEDY_DUE => 5
    case REMEDIATING => 4
    case REMEDY_UNKNOWN => 3
    case REMEDY_VERIFYING => 2
    case SATISFIED => 1
    case REMEDIATED => 1
    case INCONCLUSIVE => 1
    case REMEDY_INCONCLUSIVE => 1
    case REVIEW_REQUIRED => 1
    case REMEDY_FAILED => 1
    case _ => 0
  }

  /** A run through the table that starts where every action starts. */
  ghost predicate LegalPath(path: seq<State>) {
    && |path| > 0
    && path[0] == PROPOSED
    && forall i :: 0 < i < |path| ==> Allowed(path[i - 1], path[i])
  }

  lemma SuccessorFalls(s: State, t: State)
    requires Allowed(s, t)
    ensures Rank(t) < Rank(s)
  {
  }

  /** Every state on a legal path has a smaller rank than all the states before it. */
  lemma {:induction false} RankFalls(path: seq<State>, i: nat, j: nat)
    requires LegalPath(path)
    requires i < j < |path|
    ensures Rank(path[j]) < Rank(path[i])
    decreases j - i
  {
    SuccessorFalls(path[j - 1], path[j]);
    if i < j - 1 {
      RankFalls(path, i, j - 1);
    }
  }

  /** No state is visited twice, so no state is counted twice. */
  lemma {:induction false} VisitedAtMostOnce(path: seq<State>, s: State)
    requires LegalPath(path)
    ensures multiset(path)[s] <= 1
    ensures multiset(path)[s] == 1 <==> s in path
    ensures s in path ==> Rank(path[|path| - 1]) <= Rank(s)
    decreases |path|
  {
    var n := |path|;
    var init := path[..n - 1];
    assert path == init + [path[n - 1]];
    if n > 1 {
      VisitedAtMostOnce(init, s);
      SuccessorFalls(path[n - 2], path[n - 1]);
      if s in init && path[n - 1] == s {
        assert Rank(path[n - 1]) < Rank(path[n - 2]) == Rank(init[|init| - 1]) <= Rank(s);
      }
    }
  }

  /** Exactly the six states with an outcome lead to CLOSED, and they lead nowhere else. */
  lemma OutcomeStatesClose(s: State)
    ensures Allowed(s, CLOSED) <==> OutcomeOf(s).Some?
    ensures forall t :: OutcomeOf(s).Some? && Allowed(s, t) ==> t == CLOSED
  {
  }
}
