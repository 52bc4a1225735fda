/** Evaluation of an all-clause postcondition over reported facts (src/postconditions.js). */
module Postconditions {
  import opened RailStates
  import opened JsonValues
  import opened Artifacts

  // ----- Paths -----

  /** `path.split(".")`. */
  function Split(path: string): (parts: seq<string>)
    ensures |parts| >= 1
  {
    SplitFrom(path, "")
  }

  function SplitFrom(rest: string, current: string): (parts: seq<string>)
    ensures |parts| >= 1
  {
    if rest == [] then [current]
    else if rest[0] == '.' then [current] + SplitFrom(rest[1..], "")
    else SplitFrom(rest[1..], current + [rest[0]])
  }

  predicate NoDot(word: string) { forall i :: 0 <= i < |word| ==> word[i] != '.' }

  lemma {:induction false} SplitWord(word: string, current: string)
    requires NoDot(word)
    ensures SplitFrom(word, current) == [current + word]
    decreases |word|
  {
    if word == [] {
      assert current + word == current;
    } else {
      SplitWord(word[1..], current + [word[0]]);
      assert current + [word[0]] + word[1..] == current + word;
    }
  }

  lemma {:induction false} SplitPair(word: string, rest: string, current: string)
    requires NoDot(word)
    ensures SplitFrom(word + ("." + rest), current) == [current + word] + SplitFrom(rest, "")
    decreases |word|
  {
    var text := word + ("." + rest);
    if word == [] {
      assert text == "." + rest && text[0] == '.' && text[1..] == rest && current + word == current;
    } else {
      assert text[1..] == word[1..] + ("." + rest);
      SplitPair(word[1..], rest, current + [word[0]]);
      assert current + [word[0]] + word[1..] == current + word;
    }
  }

  predicate Reserved(part: string) {
    part == "__proto__" || part == "constructor" || part == "prototype"
  }

  predicate IsDigits(s: string) { forall i :: 0 <= i < |s| ==> '0' <= s[i] <= '9' }

  function DecimalValue(s: string): nat
    requires IsDigits(s)
  {
    if s == [] then 0 else DecimalValue(s[..|s| - 1]) * 10 + (s[|s| - 1] as int - '0' as int)
  }

  /** The own properties of an array: its indexes, written canonically, and `length`. */
  function ArrayProperty(items: seq<Facts>, part: string): Option<Facts> {
    if part == "length" then Some(Number(|items| as real))
    else if |part| > 0 && IsDigits(part) && (part[0] != '0' || |part| == 1) && DecimalValue(part) < |items|
      then Some(items[DecimalValue(part)])
    else None
  }

  function Property(value: Facts, part: string): Option<Facts> {
    if Reserved(part) then None
    else match value
      case Obj(members) => FindMember(members, part)
      case Arr(items) => ArrayProperty(items, part)
      case _ => None
  }

  /** Names are unique in a JavaScript object; in a member list the last one stands. */
  function FindMember(members: seq<Member<string, real>>, name: string): Option<Facts> {
    if members == [] then None
    else if members[|members| - 1].name == name then Some(members[|members| - 1].value)
    else FindMember(members[..|members| - 1], name)
  }

  /** What a path reaches after its first `n` parts. */
  function Reach(value: Facts, parts: seq<string>, n: nat): Option<Facts>
    requires n <= |parts|
  {
    if n == 0 then Some(value)
    else match Reach(value, parts, n - 1)
      case None => None
      case Some(v) => Property(v, parts[n - 1])
  }

  function ReadPath(value: Facts, path: string): Option<Facts> {
    Reach(value, Split(path), |Split(path)|)
  }

  lemma {:induction false} ReachStaysLost(value: Facts, parts: seq<string>, n: nat, m: nat)
    requires n <= m <= |parts| && Reach(value, parts, n) == None
    ensures Reach(value, parts, m) == None
  {
    if n < m {
      ReachStaysLost(value, parts, n, m - 1);
    }
  }

  /** resolvePath: walk the parts and give up at the first one that is not an own property. */
  method ResolvePath(value: Facts, path: string) returns (found: Option<Facts>)
    ensures found == ReadPath(value, path)
  {
    var parts := Split(path);
    var current := value;
    var i := 0;
    while i < |parts|
      invariant 0 <= i <= |parts|
      invariant Reach(value, parts, i) == Some(current)
    {
      match Property(current, parts[i]) {
        case None =>
          ReachStaysLost(value, parts, i + 1, |parts|);
          return None;
        case Some(v) => current := v;
      }
      i := i + 1;
    }
    found := Some(current);
  }

  // ----- Clauses -----

  predicate IsScalar(v: Facts) { v.Null? || v.Str? || v.Bool? || v.Number? }

  /** What evaluatePostcondition accepts as a clause. */
  predicate ClauseValid(clause: Clause) {
    && |clause.path| > 0
    && (forall part <- Split(clause.path) :: part != "" && !Reserved(part))
    && (if clause.op == EQ then IsScalar(clause.expected) else clause.expected.Number?)
  }

  predicate PostconditionValid(clauses: seq<Clause>) {
    |clauses| > 0 && forall clause <- clauses :: ClauseValid(clause)
  }

  /** The operator table. Strict equality of compound values compares references, so an array
      or object never equals the scalar a valid clause expects. */
  predicate ClauseHolds(clause: Clause, actual: Option<Facts>) {
    match clause.op
    case EQ => actual == Some(clause.expected) && IsScalar(clause.expected)
    case GTE => actual.Some? && actual.value.Number? && clause.expected.Number? && actual.value.n >= clause.expected.n
    case LTE => actual.Some? && actual.value.Number? && clause.expected.Number? && actual.value.n <= clause.expected.n
  }

  function EvaluateClause(clause: Clause, facts: Facts): ClauseResult {
    var actual := ReadPath(facts, clause.path);
    ClauseResult(clause, actual, ClauseHolds(clause, actual))
  }

  function EvaluateAll(clauses: seq<Clause>, facts: Facts): (results: seq<ClauseResult>) {
    seq(|clauses|, i requires 0 <= i < |clauses| => EvaluateClause(clauses[i], facts))
  }

  predicate AllSatisfied(results: seq<ClauseResult>) {
    forall i :: 0 <= i < |results| ==> results[i].satisfied
  }

  function Evaluate(clauses: seq<Clause>, facts: Facts): (e: Evaluation) {
    var results := EvaluateAll(clauses, facts);
    Evaluation(AllSatisfied(results), results)
  }

  /** The evaluation is satisfied exactly when every clause holds of the fact its path reaches. */
  lemma EvaluationIsExact(clauses: seq<Clause>, facts: Facts)
    ensures Evaluate(clauses, facts).satisfied <==>
      forall i :: 0 <= i < |clauses| ==> ClauseHolds(clauses[i], ReadPath(facts, clauses[i].path))
  {
    var results := EvaluateAll(clauses, facts);
    assert |results| == |clauses|;
    assert forall i :: 0 <= i < |clauses| ==>
      results[i].satisfied == ClauseHolds(clauses[i], ReadPath(facts, clauses[i].path));
  }

  /** Indexes, in order, of the clauses whose fact is absent. */
  function Missing(clauses: seq<Clause>, facts: Facts): seq<nat> {
    if clauses == [] then []
    else
      var n := |clauses| - 1;
      Missing(clauses[..n], facts) + if ReadPath(facts, clauses[n].path) == None then [n] else []
  }

  method MissingPostconditionPaths(clauses: seq<Clause>, facts: Facts) returns (missing: seq<nat>)
    ensures missing == Missing(clauses, facts)
  {
    missing := [];
    var i := 0;
    while i < |clauses|
      invariant 0 <= i <= |clauses|
      invariant missing == Missing(clauses[..i], facts)
    {
      var found := ResolvePath(facts, clauses[i].path);
      assert clauses[..i + 1][..i] == clauses[..i];
      if found == None {
        missing := missing + [i];
      }
      i := i + 1;
    }
    assert clauses[..|clauses|] == clauses;
  }

  lemma {:induction false} MissingIsExact(clauses: seq<Clause>, facts: Facts, k: nat)
    ensures k in Missing(clauses, facts) <==> k < |clauses| && ReadPath(facts, clauses[k].path) == None
  {
    if clauses != [] {
      var n := |clauses| - 1;
      MissingIsExact(clauses[..n], facts, k);
      assert k < n ==> clauses[..n][k] == clauses[k];
    }
  }

  /** A satisfied postcondition never rests on an absent fact: evidence that evaluates as
      satisfied reports every path that any clause names. */
  lemma SatisfiedMeansReported(clauses: seq<Clause>, facts: Facts)
    requires Evaluate(clauses, facts).satisfied
    ensures Missing(clauses, facts) == []
  {
    var missing := Missing(clauses, facts);
    var k := if missing == [] then 0 else missing[0];
    MissingIsExact(clauses, facts, k);
    EvaluationIsExact(clauses, facts);
  }
}
