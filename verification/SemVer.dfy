/** Versions and their precedence (scripts/release-metadata.js, section 11 of Semantic Versioning
    2.0.0). Section 11 compares numbers exactly; the program compares them as doubles. Both are
    one order over the numbers they see, and this file says exactly when the two agree. */
module SemVer {
  import opened RailStates
  import opened Postconditions
  import opened Doubles

  // ----- Versions -----

  /** A version taken apart; `pre` lists the prerelease identifiers, when there are any. */
  datatype Version = Version(major: nat, minor: nat, patch: nat, pre: Option<seq<string>>)

  predicate IsNumeric(s: string) { |s| > 0 && IsDigits(s) }
  predicate IsCoreNumber(s: string) { IsNumeric(s) && (s[0] != '0' || |s| == 1) }
  predicate IsIdentifierChar(ch: char) { '0' <= ch <= '9' || 'A' <= ch <= 'Z' || 'a' <= ch <= 'z' || ch == '-' }
  predicate IsIdentifier(s: string) { |s| > 0 && forall ch <- s :: IsIdentifierChar(ch) }

  function IndexOf(s: string, ch: char): (i: nat)
    ensures i <= |s| && (i < |s| ==> s[i] == ch)
  {
    if s == [] || s[0] == ch then 0 else 1 + IndexOf(s[1..], ch)
  }

  /** The SEMVER expression: no number has a leading zero, identifiers may. */
  function Parse(text: string): Option<Version> {
    var dash := IndexOf(text, '-');
    var core := Split(text[..dash]);
    if |core| != 3 || !IsCoreNumber(core[0]) || !IsCoreNumber(core[1]) || !IsCoreNumber(core[2]) then None
    else
      var numbers := Version(DecimalValue(core[0]), DecimalValue(core[1]), DecimalValue(core[2]), None);
      if dash == |text| then Some(numbers)
      else
        var ids := Split(text[dash + 1..]);
        if forall id <- ids :: IsIdentifier(id) then Some(numbers.(pre := Some(ids))) else None
  }

  predicate IsSemVer(text: string) { Parse(text).Some? }

  /** `<` and `>` on strings. */
  function CompareText(a: string, b: string): int {
    if a == [] then (if b == [] then 0 else -1)
    else if b == [] then 1
    else if a[0] != b[0] then (if a[0] < b[0] then -1 else 1)
    else CompareText(a[1..], b[1..])
  }

  // ----- The comparator -----

  function CompareIdentifiers(a: string, b: string): Verdict {
    if IsNumeric(a) && IsNumeric(b) then Difference(DecimalValue(a), DecimalValue(b))
    else if IsNumeric(a) then Sign(-1)
    else if IsNumeric(b) then Sign(1)
    else Sign(CompareText(a, b))
  }

  /** Lists of identifiers: the first difference decides, and a list that goes on wins. NaN is a
      difference. */
  function CompareLists(a: seq<string>, b: seq<string>): Verdict {
    if a == [] then (if b == [] then Sign(0) else Sign(-1))
    else if b == [] then Sign(1)
    else Decided(CompareIdentifiers(a[0], b[0]), CompareLists(a[1..], b[1..]))
  }

  function ComparePre(a: Option<seq<string>>, b: Option<seq<string>>): Verdict {
    match (a, b)
    case (None, None) => Sign(0)
    case (None, Some(_)) => Sign(1)
    case (Some(_), None) => Sign(-1)
    case (Some(x), Some(y)) => CompareLists(x, y)
  }

  function Decided(first: Verdict, later: Verdict): Verdict { if first != Sign(0) then first else later }

  function Compared(a: Version, b: Version): Verdict {
    Decided(Difference(a.major, b.major),
      Decided(Difference(a.minor, b.minor), Decided(Difference(a.patch, b.patch), ComparePre(a.pre, b.pre))))
  }

  /** compareSemVer; it throws on anything that is not a version. */
  method CompareSemVer(left: string, right: string) returns (r: Option<Verdict>)
    ensures r.Some? <==> IsSemVer(left) && IsSemVer(right)
    ensures r.Some? ==> r.value == Compared(Parse(left).value, Parse(right).value)
  {
    hide Difference, CompareLists;
    if !IsSemVer(left) || !IsSemVer(right) {
      return None;
    }
    var a, b := Parse(left).value, Parse(right).value;
    var x: seq<nat>, y: seq<nat> := [a.major, a.minor, a.patch], [b.major, b.minor, b.patch];
    for index := 0 to 3
      invariant forall k :: 0 <= k < index ==> Difference(x[k], y[k]) == Sign(0)
    {
      var difference := Difference(x[index], y[index]);
      if difference != Sign(0) {
        assert index > 0 ==> Difference(x[0], y[0]) == Sign(0);
        assert index > 1 ==> Difference(x[1], y[1]) == Sign(0);
        return Some(difference);
      }
    }
    assert Difference(x[0], y[0]) == Difference(x[1], y[1]) == Difference(x[2], y[2]) == Sign(0);
    if a.pre.None? || b.pre.None? {
      return Some(Sign(if a.pre == b.pre then 0 else if a.pre.None? then 1 else -1));
    }
    var lists := CompareParts(a.pre.value, b.pre.value);
    return Some(lists);
  }

  /** The loop over prerelease identifiers. */
  method CompareParts(left: seq<string>, right: seq<string>) returns (r: Verdict)
    ensures r == CompareLists(left, right)
  {
    hide CompareIdentifiers;
    var longest := if |left| < |right| then |right| else |left|;
    for index := 0 to longest
      invariant index <= |left| && index <= |right|
      invariant CompareLists(left, right) == CompareLists(left[index..], right[index..])
    {
      if index >= |left| {
        return Sign(-1);
      }
      if index >= |right| {
        return Sign(1);
      }
      var difference := CompareIdentifiers(left[index], right[index]);
      if difference != Sign(0) {
        return difference;
      }
      assert left[index..][1..] == left[index + 1..] && right[index..][1..] == right[index + 1..];
    }
    return Sign(0);
  }

  // ----- Precedence -----

  /** Section 11, over the numbers `num` makes of the numerals. */
  function RankIdentifiers(num: nat -> nat, a: string, b: string): int {
    if IsNumeric(a) && IsNumeric(b) then SignOf(num(DecimalValue(a)) - num(DecimalValue(b)))
    else if IsNumeric(a) then -1
    else if IsNumeric(b) then 1
    else CompareText(a, b)
  }

  function RankLists(num: nat -> nat, a: seq<string>, b: seq<string>): int {
    if a == [] then (if b == [] then 0 else -1)
    else if b == [] then 1
    else
      var difference := RankIdentifiers(num, a[0], b[0]);
      if difference != 0 then difference else RankLists(num, a[1..], b[1..])
  }

  function RankPre(num: nat -> nat, a: Option<seq<string>>, b: Option<seq<string>>): int {
    match (a, b)
    case (None, None) => 0
    case (None, Some(_)) => 1
    case (Some(_), None) => -1
    case (Some(x), Some(y)) => RankLists(num, x, y)
  }

  function RankVersions(num: nat -> nat, a: Version, b: Version): int {
    if num(a.major) != num(b.major) then SignOf(num(a.major) - num(b.major))
    else if num(a.minor) != num(b.minor) then SignOf(num(a.minor) - num(b.minor))
    else if num(a.patch) != num(b.patch) then SignOf(num(a.patch) - num(b.patch))
    else RankPre(num, a.pre, b.pre)
  }

  function Exact(n: nat): nat { n }

  /** Section 11 as it is written. */
  function Precedence(a: Version, b: Version): int { RankVersions(Exact, a, b) }

  // ----- Any such rank is a total preorder -----

  lemma {:induction false} TextIsAntisymmetric(a: string, b: string)
    ensures CompareText(a, b) == -CompareText(b, a) && -1 <= CompareText(a, b) <= 1
    decreases |a|
  {
    if a != [] && b != [] && a[0] == b[0] {
      TextIsAntisymmetric(a[1..], b[1..]);
    }
  }

  lemma {:induction false} ListsAreAntisymmetric(num: nat -> nat, a: seq<string>, b: seq<string>)
    ensures RankLists(num, a, b) == -RankLists(num, b, a) && -1 <= RankLists(num, a, b) <= 1
    decreases |a|
  {
    if a != [] && b != [] {
      TextIsAntisymmetric(a[0], b[0]);
      ListsAreAntisymmetric(num, a[1..], b[1..]);
    }
  }

  /** Comparing the other way round turns the sign, so exactly one of less, equal and greater
      holds. */
  lemma RankIsAntisymmetric(num: nat -> nat, a: Version, b: Version)
    ensures RankVersions(num, a, b) == -RankVersions(num, b, a) && -1 <= RankVersions(num, a, b) <= 1
  {
    hide RankLists;
    if a.pre.Some? && b.pre.Some? {
      ListsAreAntisymmetric(num, a.pre.value, b.pre.value);
    }
  }

  /** How two comparisons in a row decide the third. */
  predicate Chains(ab: int, bc: int, ac: int) {
    && (ab <= 0 && bc <= 0 ==> ac <= 0)
    && (ab <= 0 && bc <= 0 && (ab < 0 || bc < 0) ==> ac < 0)
    && (ab == 0 ==> ac == bc)
    && (bc == 0 ==> ac == ab)
  }

  lemma {:induction false} TextChains(a: string, b: string, c: string)
    ensures Chains(CompareText(a, b), CompareText(b, c), CompareText(a, c))
    decreases |a| + |b| + |c|
  {
    if a != [] && b != [] && c != [] {
      if a[0] == b[0] == c[0] {
        TextChains(a[1..], b[1..], c[1..]);
      } else if a[0] == b[0] {
        EqualTextsAgree(a[1..], b[1..]);
      } else if b[0] == c[0] {
        EqualTextsAgree(b[1..], c[1..]);
      }
      EqualTextsAgree(a, b);
      EqualTextsAgree(b, c);
    } else {
      EqualTextsAgree(a, b);
      EqualTextsAgree(b, c);
    }
  }

  lemma {:induction false} EqualTextsAgree(a: string, b: string)
    ensures CompareText(a, b) == 0 <==> a == b
    decreases |a|
  {
    if a != [] && b != [] {
      EqualTextsAgree(a[1..], b[1..]);
      assert a == [a[0]] + a[1..] && b == [b[0]] + b[1..];
    }
  }

  lemma IdentifiersChain(num: nat -> nat, a: string, b: string, c: string)
    ensures Chains(RankIdentifiers(num, a, b), RankIdentifiers(num, b, c), RankIdentifiers(num, a, c))
  {
    hide CompareText, DecimalValue;
    TextChains(a, b, c);
  }

  lemma {:induction false} ListsChain(num: nat -> nat, a: seq<string>, b: seq<string>, c: seq<string>)
    ensures Chains(RankLists(num, a, b), RankLists(num, b, c), RankLists(num, a, c))
    decreases |a|
  {
    hide RankIdentifiers;
    if a != [] && b != [] && c != [] {
      IdentifiersChain(num, a[0], b[0], c[0]);
      ListsChain(num, a[1..], b[1..], c[1..]);
    } else {
      ListsAreAntisymmetric(num, a, b);
      ListsAreAntisymmetric(num, b, c);
    }
  }

  lemma PreChains(num: nat -> nat, a: Option<seq<string>>, b: Option<seq<string>>, c: Option<seq<string>>)
    ensures Chains(RankPre(num, a, b), RankPre(num, b, c), RankPre(num, a, c))
  {
    hide RankLists;
    if a.Some? && b.Some? && c.Some? {
      ListsChain(num, a.value, b.value, c.value);
    }
    if a.Some? && b.Some? {
      ListsAreAntisymmetric(num, a.value, b.value);
    }
    if b.Some? && c.Some? {
      ListsAreAntisymmetric(num, b.value, c.value);
    }
  }

  /** A rank is transitive, prerelease lists of any length included, and versions of equal rank
      compare alike with everything else. */
  lemma RankChains(num: nat -> nat, a: Version, b: Version, c: Version)
    ensures Chains(RankVersions(num, a, b), RankVersions(num, b, c), RankVersions(num, a, c))
  {
    hide RankPre;
    PreChains(num, a.pre, b.pre, c.pre);
  }

  // ----- The comparator is the rank over rounded numbers -----

  predicate BoundedId(id: string) { IsNumeric(id) ==> IsFinite(DecimalValue(id)) }

  /** No numeric part of the version overflows. */
  predicate Bounded(v: Version) {
    && IsFinite(v.major) && IsFinite(v.minor) && IsFinite(v.patch)
    && (v.pre.Some? ==> forall id <- v.pre.value :: BoundedId(id))
  }

  lemma {:induction false} BoundedListsAreRanked(a: seq<string>, b: seq<string>)
    requires (forall id <- a :: BoundedId(id)) && (forall id <- b :: BoundedId(id))
    ensures CompareLists(a, b) == Sign(RankLists(Rounded, a, b))
    decreases |a|
  {
    if a != [] && b != [] {
      assert BoundedId(a[0]) && BoundedId(b[0]);
      BoundedListsAreRanked(a[1..], b[1..]);
    }
  }

  /** Without overflow the comparator is precedence over the rounded numbers, hence a total
      preorder. */
  lemma BoundedVersionsAreRanked(a: Version, b: Version)
    requires Bounded(a) && Bounded(b)
    ensures Compared(a, b) == Sign(RankVersions(Rounded, a, b))
  {
    hide CompareLists, RankLists, Rounded, Limit;
    if a.pre.Some? && b.pre.Some? {
      BoundedListsAreRanked(a.pre.value, b.pre.value);
    }
  }

  function Turned(v: Verdict): Verdict { match v case Sign(n) => Sign(-n) case NaN => NaN }

  lemma {:induction false} ListsTurn(a: seq<string>, b: seq<string>)
    ensures CompareLists(b, a) == Turned(CompareLists(a, b))
    decreases |a|
  {
    hide CompareIdentifiers;
    if a != [] && b != [] {
      IdentifiersTurn(a[0], b[0]);
      ListsTurn(a[1..], b[1..]);
    }
  }

  lemma DifferenceTurns(m: nat, n: nat)
    ensures Difference(n, m) == Turned(Difference(m, n))
  {
    hide ToDouble;
  }

  lemma IdentifiersTurn(a: string, b: string)
    ensures CompareIdentifiers(b, a) == Turned(CompareIdentifiers(a, b))
  {
    hide Difference, CompareText, DecimalValue;
    TextIsAntisymmetric(a, b);
    if IsNumeric(a) && IsNumeric(b) {
      DifferenceTurns(DecimalValue(a), DecimalValue(b));
    }
  }

  /** An answer is one of three. */
  lemma VerdictsAreSigns(a: Version, b: Version)
    ensures Compared(a, b) in {NaN, Sign(-1), Sign(0), Sign(1)}
  {
    hide CompareLists, ToDouble;
    if a.pre.Some? && b.pre.Some? {
      ListVerdictsAreSigns(a.pre.value, b.pre.value);
    }
  }

  lemma {:induction false} ListVerdictsAreSigns(a: seq<string>, b: seq<string>)
    ensures CompareLists(a, b) in {NaN, Sign(-1), Sign(0), Sign(1)}
    decreases |a|
  {
    hide ToDouble, DecimalValue, CompareText;
    if a != [] && b != [] {
      TextIsAntisymmetric(a[0], b[0]);
      ListVerdictsAreSigns(a[1..], b[1..]);
    }
  }

  lemma DecidedTurns(first: Verdict, later: Verdict)
    ensures Decided(Turned(first), Turned(later)) == Turned(Decided(first, later))
  {
  }

  lemma PreTurns(a: Option<seq<string>>, b: Option<seq<string>>)
    ensures ComparePre(b, a) == Turned(ComparePre(a, b))
  {
    hide CompareLists;
    if a.Some? && b.Some? {
      ListsTurn(a.value, b.value);
    }
  }

  /** The comparator turned around, overflow included: NaN stays NaN. */
  lemma ComparisonTurns(a: Version, b: Version)
    ensures Compared(b, a) == Turned(Compared(a, b))
  {
    hide ComparePre, Difference, Decided, Turned;
    DifferenceTurns(a.major, b.major);
    DifferenceTurns(a.minor, b.minor);
    DifferenceTurns(a.patch, b.patch);
    PreTurns(a.pre, b.pre);
    var patch := Decided(Difference(a.patch, b.patch), ComparePre(a.pre, b.pre));
    var minor := Decided(Difference(a.minor, b.minor), patch);
    DecidedTurns(Difference(a.patch, b.patch), ComparePre(a.pre, b.pre));
    DecidedTurns(Difference(a.minor, b.minor), patch);
    DecidedTurns(Difference(a.major, b.major), minor);
  }

  lemma {:induction false} ListAgainstItself(a: seq<string>)
    ensures CompareLists(a, a) == if forall id <- a :: BoundedId(id) then Sign(0) else NaN
    decreases |a|
  {
    if a != [] {
      EqualTextsAgree(a[0], a[0]);
      ListAgainstItself(a[1..]);
      assert forall id <- a :: id == a[0] || id in a[1..];
      assert a[0] in a && forall id <- a[1..] :: id in a;
    }
  }

  /** A version equals itself exactly when none of its numbers overflows. */
  lemma SelfComparisonExactly(v: Version)
    ensures Compared(v, v) == if Bounded(v) then Sign(0) else NaN
  {
    hide CompareLists, Rounded, Limit;
    if v.pre.Some? {
      ListAgainstItself(v.pre.value);
    }
  }

  // ----- The comparator climbs, overflow included -----

  /** How two verdicts in a row decide the third, whatever overflows. */
  predicate Climbs(ab: Verdict, bc: Verdict, ac: Verdict) {
    && (ab == bc == Sign(1) ==> ac == Sign(1))
    && (ab == Sign(0) ==> ac == bc)
    && (bc == Sign(0) ==> ac == ab)
  }

  lemma DecidedClimbs(ab: Verdict, bc: Verdict, ac: Verdict, xy: Verdict, yz: Verdict, xz: Verdict)
    requires Climbs(ab, bc, ac) && Climbs(xy, yz, xz)
    ensures Climbs(Decided(ab, xy), Decided(bc, yz), Decided(ac, xz))
  {
  }

  lemma DifferencesClimb(m: nat, n: nat, o: nat)
    ensures Climbs(Difference(m, n), Difference(n, o), Difference(m, o))
  {
    hide ToDouble;
  }

  lemma IdentifiersClimb(a: string, b: string, c: string)
    ensures Climbs(CompareIdentifiers(a, b), CompareIdentifiers(b, c), CompareIdentifiers(a, c))
  {
    hide Difference, CompareText, DecimalValue;
    TextChains(c, b, a);
    TextIsAntisymmetric(a, b);
    TextIsAntisymmetric(b, c);
    TextIsAntisymmetric(a, c);
    if IsNumeric(a) && IsNumeric(b) && IsNumeric(c) {
      DifferencesClimb(DecimalValue(a), DecimalValue(b), DecimalValue(c));
    } else {
      TextAndNumbersDiffer(a, b);
      TextAndNumbersDiffer(b, c);
    }
  }

  /** Between a number and another identifier, and between numbers alone, NaN aside. */
  lemma TextAndNumbersDiffer(a: string, b: string)
    ensures IsNumeric(a) != IsNumeric(b) ==> CompareIdentifiers(a, b) == Sign(if IsNumeric(a) then -1 else 1)
  {
  }

  lemma {:induction false} ListsClimb(a: seq<string>, b: seq<string>, c: seq<string>)
    ensures Climbs(CompareLists(a, b), CompareLists(b, c), CompareLists(a, c))
    decreases |a|
  {
    hide CompareIdentifiers, Decided;
    if a != [] && b != [] && c != [] {
      IdentifiersClimb(a[0], b[0], c[0]);
      ListsClimb(a[1..], b[1..], c[1..]);
      DecidedClimbs(
        CompareIdentifiers(a[0], b[0]), CompareIdentifiers(b[0], c[0]), CompareIdentifiers(a[0], c[0]),
        CompareLists(a[1..], b[1..]), CompareLists(b[1..], c[1..]), CompareLists(a[1..], c[1..]));
    }
  }

  lemma PreClimb(a: Option<seq<string>>, b: Option<seq<string>>, c: Option<seq<string>>)
    ensures Climbs(ComparePre(a, b), ComparePre(b, c), ComparePre(a, c))
  {
    hide CompareLists;
    if a.Some? && b.Some? && c.Some? {
      ListsClimb(a.value, b.value, c.value);
    }
  }

  /** What is greater stays greater along any chain of comparisons, and equal versions compare
      alike with everything, with no bound on any number. */
  lemma ComparisonsClimb(a: Version, b: Version, c: Version)
    ensures Climbs(Compared(a, b), Compared(b, c), Compared(a, c))
  {
    hide Difference, ComparePre, Decided, Climbs;
    PreClimb(a.pre, b.pre, c.pre);
    DifferencesClimb(a.patch, b.patch, c.patch);
    DifferencesClimb(a.minor, b.minor, c.minor);
    DifferencesClimb(a.major, b.major, c.major);
    var ab, bc, ac := PatchOn(a, b), PatchOn(b, c), PatchOn(a, c);
    DecidedClimbs(
      Difference(a.patch, b.patch), Difference(b.patch, c.patch), Difference(a.patch, c.patch),
      ComparePre(a.pre, b.pre), ComparePre(b.pre, c.pre), ComparePre(a.pre, c.pre));
    DecidedClimbs(
      Difference(a.minor, b.minor), Difference(b.minor, c.minor), Difference(a.minor, c.minor), ab, bc, ac);
    DecidedClimbs(
      Difference(a.major, b.major), Difference(b.major, c.major), Difference(a.major, c.major),
      Decided(Difference(a.minor, b.minor), ab), Decided(Difference(b.minor, c.minor), bc),
      Decided(Difference(a.minor, c.minor), ac));
  }

  function PatchOn(a: Version, b: Version): Verdict {
    Decided(Difference(a.patch, b.patch), ComparePre(a.pre, b.pre))
  }

  // ----- Places -----

  /** Two versions side by side, place by place: two numbers, or an order the texts settle. */
  datatype Place = Numbers(left: nat, right: nat) | Ordered(sign: int)

  function IdPlace(a: string, b: string): Place {
    if IsNumeric(a) && IsNumeric(b) then Numbers(DecimalValue(a), DecimalValue(b))
    else Ordered(if IsNumeric(a) then -1 else if IsNumeric(b) then 1 else CompareText(a, b))
  }

  function ListPlaces(a: seq<string>, b: seq<string>): seq<Place> {
    if a == [] || b == [] then [Ordered(SignOf(|a| - |b|))]
    else [IdPlace(a[0], b[0])] + ListPlaces(a[1..], b[1..])
  }

  function PrePlaces(a: Option<seq<string>>, b: Option<seq<string>>): seq<Place> {
    match (a, b)
    case (Some(x), Some(y)) => ListPlaces(x, y)
    case _ => [Ordered((if b.Some? then 1 else 0) - (if a.Some? then 1 else 0))]
  }

  function Places(a: Version, b: Version): seq<Place> {
    [Numbers(a.major, b.major)] + ([Numbers(a.minor, b.minor)]
      + ([Numbers(a.patch, b.patch)] + PrePlaces(a.pre, b.pre)))
  }

  /** The numbers, or the texts, differ. */
  predicate Differs(p: Place) { match p case Numbers(m, n) => m != n case Ordered(sign) => sign != 0 }

  /** The doubles tell them apart. */
  predicate ToldApart(p: Place) {
    match p case Numbers(m, n) => ToDouble(m) != ToDouble(n) case Ordered(sign) => sign != 0
  }

  /** Both numbers overflow. */
  predicate Overflows(p: Place) { p.Numbers? && !IsFinite(p.left) && !IsFinite(p.right) }

  function First(places: seq<Place>, wanted: Place -> bool): (i: nat)
    ensures i <= |places| && (i < |places| ==> wanted(places[i]))
    ensures forall k :: 0 <= k < i ==> !wanted(places[k])
  {
    if places == [] || wanted(places[0]) then 0 else 1 + First(places[1..], wanted)
  }

  /** The order of the exact numbers, or of the texts, at one place; none behind the last. */
  function SignAt(places: seq<Place>, i: nat): int {
    if i >= |places| then 0
    else match places[i] case Numbers(m, n) => SignOf(m - n) case Ordered(sign) => sign
  }

  /** Two overflowing numbers stand at one place, and no place before it tells the versions apart. */
  ghost predicate OverflowAhead(places: seq<Place>) {
    exists i :: 0 <= i < First(places, ToldApart) && Overflows(places[i])
  }

  ghost predicate OverflowsMeet(a: Version, b: Version) { OverflowAhead(Places(a, b)) }

  function VerdictAt(p: Place): Verdict {
    match p case Numbers(m, n) => Difference(m, n) case Ordered(sign) => Sign(sign)
  }

  function ComparePlaces(places: seq<Place>): Verdict {
    if places == [] then Sign(0) else Decided(VerdictAt(places[0]), ComparePlaces(places[1..]))
  }

  function RankPlaces(places: seq<Place>): int {
    if places == [] then 0 else if Differs(places[0]) then SignAt(places, 0) else RankPlaces(places[1..])
  }

  lemma FirstGoesOn(places: seq<Place>)
    requires places != [] && !ToldApart(places[0])
    ensures First(places, ToldApart) == 1 + First(places[1..], ToldApart)
    ensures OverflowAhead(places) <==> Overflows(places[0]) || OverflowAhead(places[1..])
  {
    hide ToldApart, Overflows;
    var rest := places[1..];
    if OverflowAhead(rest) {
      var i :| 0 <= i < First(rest, ToldApart) && Overflows(rest[i]);
      assert places[i + 1] == rest[i];
    }
    if OverflowAhead(places) && !Overflows(places[0]) {
      var i :| 0 <= i < First(places, ToldApart) && Overflows(places[i]);
      assert rest[i - 1] == places[i];
    }
  }

  lemma OnePlace(p: Place)
    ensures ToldApart(p) ==> VerdictAt(p) == Sign(SignAt([p], 0)) && VerdictAt(p) != Sign(0)
    ensures !ToldApart(p) ==> VerdictAt(p) == if Overflows(p) then NaN else Sign(0)
  {
    hide Rounded, Limit;
    match p {
      case Numbers(m, n) => DifferenceIsRight(m, n);
      case Ordered(_) =>
    }
  }

  /** The comparator, exactly: NaN where two overflowing numbers meet, and otherwise the order at
      the first place the doubles tell apart. */
  lemma {:induction false} PlacesCompare(places: seq<Place>)
    ensures ComparePlaces(places) ==
              if OverflowAhead(places) then NaN else Sign(SignAt(places, First(places, ToldApart)))
    decreases |places|
  {
    hide ToldApart, Overflows, VerdictAt;
    if places != [] {
      OnePlace(places[0]);
      if !ToldApart(places[0]) {
        PlacesCompare(places[1..]);
        FirstGoesOn(places);
      }
    }
  }

  lemma {:induction false} PlacesRank(places: seq<Place>)
    ensures RankPlaces(places) == SignAt(places, First(places, Differs))
    decreases |places|
  {
    hide Differs;
    if places != [] && !Differs(places[0]) {
      PlacesRank(places[1..]);
    }
  }

  lemma {:induction false} ListsAreTheirPlaces(a: seq<string>, b: seq<string>)
    ensures CompareLists(a, b) == ComparePlaces(ListPlaces(a, b))
            && RankLists(Exact, a, b) == RankPlaces(ListPlaces(a, b))
    decreases |a|
  {
    hide Difference, CompareText, DecimalValue;
    if a == [] || b == [] {
      assert ListPlaces(a, b)[1..] == [];
    } else {
      var place, rest := IdPlace(a[0], b[0]), ListPlaces(a[1..], b[1..]);
      ListsAreTheirPlaces(a[1..], b[1..]);
      assert ([place] + rest)[1..] == rest;
    }
  }

  lemma VersionsAreTheirPlaces(a: Version, b: Version)
    ensures Compared(a, b) == ComparePlaces(Places(a, b)) && Precedence(a, b) == RankPlaces(Places(a, b))
  {
    hide Difference, CompareLists, RankLists, ListPlaces, Decided;
    var pre := PrePlaces(a.pre, b.pre);
    var patch := [Numbers(a.patch, b.patch)] + pre;
    var minor := [Numbers(a.minor, b.minor)] + patch;
    assert patch[1..] == pre && minor[1..] == patch && Places(a, b)[1..] == minor;
    PreAreTheirPlaces(a.pre, b.pre);
    JoinPlaces(Numbers(a.patch, b.patch), pre);
    JoinPlaces(Numbers(a.minor, b.minor), patch);
    JoinPlaces(Numbers(a.major, b.major), minor);
  }

  lemma JoinPlaces(p: Place, rest: seq<Place>)
    ensures ComparePlaces([p] + rest) == Decided(VerdictAt(p), ComparePlaces(rest))
    ensures RankPlaces([p] + rest) == if Differs(p) then SignAt([p], 0) else RankPlaces(rest)
  {
    hide Decided, VerdictAt, Differs;
    assert ([p] + rest)[1..] == rest;
  }

  lemma PreAreTheirPlaces(a: Option<seq<string>>, b: Option<seq<string>>)
    ensures ComparePre(a, b) == ComparePlaces(PrePlaces(a, b)) && RankPre(Exact, a, b) == RankPlaces(PrePlaces(a, b))
  {
    hide CompareLists, RankLists, ListPlaces;
    if a.Some? && b.Some? {
      ListsAreTheirPlaces(a.value, b.value);
    } else {
      assert PrePlaces(a, b)[1..] == [];
    }
  }

  /** The comparator has no answer exactly when two overflowing numbers stand at one place and no
      place before it tells the versions apart. */
  lemma NoAnswerExactly(a: Version, b: Version)
    ensures Compared(a, b) == NaN <==> OverflowsMeet(a, b)
  {
    hide Places, ComparePlaces, Compared, OverflowAhead, First;
    VersionsAreTheirPlaces(a, b);
    PlacesCompare(Places(a, b));
  }

  // ----- When the comparator is precedence -----

  /** No overflow is met, and the first place the doubles tell apart is ordered like the first
      place at which the versions differ. */
  ghost predicate VersionsAgree(a: Version, b: Version) {
    var places := Places(a, b);
    && !OverflowsMeet(a, b)
    && SignAt(places, First(places, ToldApart)) == SignAt(places, First(places, Differs))
  }

  /** The comparator gives section 11's precedence if and only if no overflow is met and the
      first place the doubles tell apart is ordered like the first place that differs. */
  lemma ComparatorAgreesExactly(a: Version, b: Version)
    ensures Compared(a, b) == Sign(Precedence(a, b)) <==> VersionsAgree(a, b)
  {
    hide Places, ComparePlaces, Compared, OverflowAhead, First, SignAt, RankPlaces, Precedence;
    VersionsAreTheirPlaces(a, b);
    PlacesCompare(Places(a, b));
    PlacesRank(Places(a, b));
  }

  predicate SafeId(id: string) { IsNumeric(id) ==> DecimalValue(id) <= TWO53 }

  predicate Safe(v: Version) {
    && v.major <= TWO53 && v.minor <= TWO53 && v.patch <= TWO53
    && (v.pre.Some? ==> forall id <- v.pre.value :: SafeId(id))
  }

  /** The doubles tell apart what differs, and nothing overflows. */
  predicate PlaceIsSafe(p: Place) { (ToldApart(p) <==> Differs(p)) && !Overflows(p) }

  lemma SafeNumbersAreTold(m: nat, n: nat)
    requires m <= TWO53 && n <= TWO53
    ensures PlaceIsSafe(Numbers(m, n))
  {
    hide Rounded, Limit;
    SmallIsExact(m);
    SmallIsExact(n);
    LimitIsLarge();
  }

  lemma {:induction false} SafeListsAreSafe(a: seq<string>, b: seq<string>)
    requires (forall id <- a :: SafeId(id)) && (forall id <- b :: SafeId(id))
    ensures forall p <- ListPlaces(a, b) :: PlaceIsSafe(p)
    decreases |a|
  {
    hide DecimalValue, CompareText, ToDouble;
    if a != [] && b != [] {
      assert SafeId(a[0]) && SafeId(b[0]);
      SafeListsAreSafe(a[1..], b[1..]);
      if IsNumeric(a[0]) && IsNumeric(b[0]) {
        SafeNumbersAreTold(DecimalValue(a[0]), DecimalValue(b[0]));
      }
    }
  }

  lemma {:induction false} SafePlacesAgree(places: seq<Place>)
    requires forall p <- places :: PlaceIsSafe(p)
    ensures First(places, ToldApart) == First(places, Differs) && !OverflowAhead(places)
    decreases |places|
  {
    hide ToldApart, Differs, Overflows;
    if places != [] {
      assert PlaceIsSafe(places[0]);
      SafePlacesAgree(places[1..]);
      assert forall i :: 0 <= i < |places| ==> places[i] in places;
    }
  }

  /** With all numbers up to 2^53 the comparator is precedence. */
  lemma SafeVersionsAgree(a: Version, b: Version)
    requires Safe(a) && Safe(b)
    ensures VersionsAgree(a, b) && Compared(a, b) == Sign(Precedence(a, b))
  {
    hide ListPlaces, PlaceIsSafe, ToldApart, Differs, Overflows, First, OverflowAhead, Compared, Precedence;
    SafeNumbersAreTold(a.major, b.major);
    SafeNumbersAreTold(a.minor, b.minor);
    SafeNumbersAreTold(a.patch, b.patch);
    SafePre(a.pre, b.pre);
    SafePlacesAgree(Places(a, b));
    ComparatorAgreesExactly(a, b);
  }

  lemma SafePre(a: Option<seq<string>>, b: Option<seq<string>>)
    requires (a.Some? ==> forall id <- a.value :: SafeId(id)) && (b.Some? ==> forall id <- b.value :: SafeId(id))
    ensures forall p <- PrePlaces(a, b) :: PlaceIsSafe(p)
  {
    if a.Some? && b.Some? {
      SafeListsAreSafe(a.value, b.value);
    }
  }

  // ----- Numerals that are short enough -----

  /** No numeral of the text has more than 300 digits. */
  predicate ShortNumerals(text: string) {
    var dash := IndexOf(text, '-');
    && (forall part <- Split(text[..dash]) :: |part| <= 300)
    && (dash < |text| ==> forall id <- Split(text[dash + 1..]) :: IsNumeric(id) ==> |id| <= 300)
  }

  lemma {:induction false} NumeralsAreBelow(s: string)
    requires IsDigits(s)
    ensures DecimalValue(s) < Pow10(|s|)
    decreases |s|
  {
    if s != [] {
      NumeralsAreBelow(s[..|s| - 1]);
    }
  }

  lemma {:induction false} PowersGrow(j: nat, k: nat)
    requires j <= k
    ensures Pow10(j) <= Pow10(k)
    decreases k
  {
    if j < k {
      PowersGrow(j, k - 1);
    }
  }

  lemma ShortNumeralIsFinite(s: string)
    requires IsDigits(s) && |s| <= 300
    ensures IsFinite(DecimalValue(s))
  {
    hide Pow10, IsFinite, DecimalValue;
    NumeralsAreBelow(s);
    PowersGrow(|s|, 300);
    ShortNumbersAreFinite(DecimalValue(s));
  }

  /** A check anyone can make before comparing: a version whose numerals have at most 300 digits
      overflows nowhere. */
  lemma ShortVersionsAreBounded(text: string)
    requires IsSemVer(text) && ShortNumerals(text)
    ensures Bounded(Parse(text).value)
  {
    hide IsFinite, DecimalValue, Split;
    var dash := IndexOf(text, '-');
    var core := Split(text[..dash]);
    ShortNumeralIsFinite(core[0]);
    ShortNumeralIsFinite(core[1]);
    ShortNumeralIsFinite(core[2]);
    if dash < |text| {
      forall id | id in Split(text[dash + 1..])
        ensures BoundedId(id)
      {
        if IsNumeric(id) {
          ShortNumeralIsFinite(id);
        }
      }
    }
  }

  /** Where no number overflows, no overflow is met. */
  lemma BoundedVersionsMeetNoOverflow(a: Version, b: Version)
    requires Bounded(a)
    ensures !OverflowsMeet(a, b)
  {
    hide ListPlaces, IsFinite, First;
    if a.pre.Some? && b.pre.Some? {
      BoundedListsMeetNoOverflow(a.pre.value, b.pre.value);
    }
    forall p | p in Places(a, b)
      ensures !Overflows(p)
    {
    }
    assert forall i :: 0 <= i < |Places(a, b)| ==> Places(a, b)[i] in Places(a, b);
  }

  lemma {:induction false} BoundedListsMeetNoOverflow(a: seq<string>, b: seq<string>)
    requires forall id <- a :: BoundedId(id)
    ensures forall p <- ListPlaces(a, b) :: !Overflows(p)
    decreases |a|
  {
    hide IsFinite, DecimalValue, CompareText;
    if a != [] && b != [] {
      assert BoundedId(a[0]);
      BoundedListsMeetNoOverflow(a[1..], b[1..]);
    }
  }

  // ----- Where it is not -----

  const ODD_NUMERAL := "9007199254740993"
  const EVEN_NUMERAL := "9007199254740992"

  lemma FourDigits(s: string)
    requires |s| == 4 && IsDigits(s)
    ensures DecimalValue(s) == Digit(s[0]) * 1000 + Digit(s[1]) * 100 + Digit(s[2]) * 10 + Digit(s[3])
  {
    assert s[..3][..2] == s[..2] && s[..2][..1] == s[..1] && s[..1][..0] == [];
    assert DecimalValue(s[..1]) == Digit(s[0]);
    assert DecimalValue(s[..2]) == Digit(s[0]) * 10 + Digit(s[1]);
    assert DecimalValue(s[..3]) == Digit(s[0]) * 100 + Digit(s[1]) * 10 + Digit(s[2]);
  }

  function Digit(ch: char): int { ch as int - '0' as int }

  lemma TenTimes(x: nat, p: nat)
    ensures x * (10 * p) == x * p * 10
  {
  }

  lemma {:induction false} NumeralsJoin(x: string, y: string)
    requires IsDigits(x) && IsDigits(y)
    ensures IsDigits(x + y) && DecimalValue(x + y) == DecimalValue(x) * Pow10(|y|) + DecimalValue(y)
    decreases |y|
  {
    if y == [] {
      assert x + y == x;
    } else {
      var n := |y| - 1;
      assert (x + y)[..|x| + n] == x + y[..n];
      NumeralsJoin(x, y[..n]);
      TenTimes(DecimalValue(x), Pow10(n));
      assert Pow10(n + 1) == 10 * Pow10(n);
    }
  }

  lemma NumeralValues()
    ensures IsNumeric(ODD_NUMERAL) && IsNumeric(EVEN_NUMERAL)
    ensures DecimalValue(ODD_NUMERAL) == TWO53 + 1 && DecimalValue(EVEN_NUMERAL) == TWO53
  {
    assert ODD_NUMERAL == "9007" + "1992" + "5474" + "0993" && EVEN_NUMERAL == "9007" + "1992" + "5474" + "0992";
    FourDigits("9007");
    FourDigits("1992");
    FourDigits("5474");
    FourDigits("0993");
    FourDigits("0992");
    TenThousand();
    NumeralsJoin("9007", "1992");
    NumeralsJoin("9007" + "1992", "5474");
    NumeralsJoin("9007" + "1992" + "5474", "0993");
    NumeralsJoin("9007" + "1992" + "5474", "0992");
  }

  lemma TenThousand()
    ensures Pow10(4) == 10000
  {
    assert Pow10(2) == 100;
  }

  /** 1.0.0-9007199254740993 comes after 1.0.0-9007199254740992; the comparator calls them equal. */
  lemma NeighboursAreNotTold()
    ensures var a, b := Version(1, 0, 0, Some([ODD_NUMERAL])), Version(1, 0, 0, Some([EVEN_NUMERAL]));
            Compared(a, b) == Sign(0) && Precedence(a, b) == 1
  {
    var a, b := Version(1, 0, 0, Some([ODD_NUMERAL])), Version(1, 0, 0, Some([EVEN_NUMERAL]));
    NumeralValues();
    assert Ulp(TWO53 + 1) == 2 && Rounded(TWO53 + 1) == TWO53;
    SmallIsExact(TWO53);
    SmallIsExact(1);
    SmallIsExact(0);
    LimitIsLarge();
    assert a.pre.value[1..] == [] && b.pre.value[1..] == [];
    assert Difference(TWO53 + 1, TWO53) == Sign(0);
    assert CompareLists(a.pre.value, b.pre.value) == Sign(0);
    assert RankLists(Exact, a.pre.value, b.pre.value) == 1;
  }

  /** What is not told apart is passed over, so a later place can turn the order around. */
  lemma PassedOverMajorsTurnTheOrder()
    ensures var a, b := Version(TWO53, 2, 0, None), Version(TWO53 + 1, 1, 0, None);
            Bounded(a) && Bounded(b) && Compared(a, b) == Sign(1) && Precedence(a, b) == -1
  {
    assert Ulp(TWO53 + 1) == 2 && Rounded(TWO53 + 1) == TWO53;
    hide Rounded, Limit;
    SmallIsExact(TWO53);
    SmallIsExact(2);
    SmallIsExact(1);
    SmallIsExact(0);
    LimitIsLarge();
  }

  /** The digit one and `zeros` zeros. */
  function PowerNumeral(zeros: nat): (s: string)
    ensures |s| == zeros + 1 && IsCoreNumber(s) && DecimalValue(s) == Pow10(zeros)
  {
    if zeros == 0 then
      assert DecimalValue("1") == 1;
      "1"
    else
      var s := PowerNumeral(zeros - 1);
      assert (s + "0")[..|s|] == s;
      s + "0"
  }

  const HUGE_VERSION: string := PowerNumeral(342) + (".0.0")

  /** A version of one number and two zeros. */
  lemma ParseOfNumeral(x: string)
    requires IsCoreNumber(x)
    ensures Parse(x + ".0.0") == Some(Version(DecimalValue(x), 0, 0, None))
  {
    hide Split;
    var text := x + ".0.0";
    SplitsInThree(x);
    NoDash(text);
    assert text[..|text|] == text;
    assert DecimalValue("0") == 0;
  }

  lemma SplitsInThree(x: string)
    requires IsNumeric(x)
    ensures Split(x + ".0.0") == [x, "0", "0"] && forall ch <- x + ".0.0" :: ch != '-'
  {
    var text := x + ("." + ("0" + ("." + "0")));
    assert text == x + ".0.0";
    SplitPair(x, "0" + ("." + "0"), "");
    SplitPair("0", "0", "");
    SplitWord("0", "");
    assert "" + x == x && "" + "0" == "0";
    assert Split(text) == [x] + ["0", "0"];
  }

  lemma {:induction false} NoDash(text: string)
    requires forall ch <- text :: ch != '-'
    ensures IndexOf(text, '-') == |text|
    decreases |text|
  {
    if text != [] {
      assert text[0] in text && forall ch <- text[1..] :: ch in text;
      NoDash(text[1..]);
    }
  }

  /** A number of 343 digits is Infinity, and then a version does not equal itself. */
  lemma HugeVersionIsNotItself()
    ensures IsSemVer(HUGE_VERSION)
    ensures Compared(Parse(HUGE_VERSION).value, Parse(HUGE_VERSION).value) == NaN
    ensures Precedence(Parse(HUGE_VERSION).value, Parse(HUGE_VERSION).value) == 0
  {
    hide Parse, Compared, RankVersions, DecimalValue, Pow10, IsFinite;
    ParseOfNumeral(PowerNumeral(342));
    LongNumbersOverflow(Pow10(342));
    SelfComparisonExactly(Parse(HUGE_VERSION).value);
    RankIsAntisymmetric(Exact, Parse(HUGE_VERSION).value, Parse(HUGE_VERSION).value);
  }
}
