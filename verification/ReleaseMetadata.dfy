/** Release metadata checks (scripts/release-metadata.js): the releases a changelog lists and the
    findings about them. */
module ReleaseMetadata {
  import opened RailStates
  import opened Postconditions
  import opened Doubles
  import opened SemVer

  // ----- Changelogs -----

  datatype Release = Release(version: string, date: string, body: seq<string>)
  datatype Section = Section(version: string, date: string, lines: seq<string>)

  const UNRELEASED_HEADING := "## [Unreleased]"

  /** White space and line terminators of ECMA-262 (sections 12.2 and 12.3), which `trim` removes
      and `\S` excludes. */
  predicate IsWhite(ch: char) {
    || '\t' <= ch <= '\r' || ch in {' ', '\U{A0}', '\U{1680}', '\U{202F}', '\U{205F}', '\U{3000}', '\U{FEFF}'}
    || '\U{2000}' <= ch <= '\U{200A}' || ch in {'\U{2028}', '\U{2029}'}
  }

  predicate IsBlank(line: string) { forall ch <- line :: IsWhite(ch) }

  predicate IsHeading(line: string) { "## " <= line }

  /** A link definition: `[label]: target`. */
  predicate IsLinkDefinition(line: string) {
    && |line| > 0 && line[0] == '['
    && var close := IndexOf(line, ']');
    && 2 <= close && close + 3 < |line|
    && line[close + 1] == ':' && line[close + 2] == ' ' && !IsWhite(line[close + 3])
  }

  predicate LooksLikeVersion(v: string) {
    var dash := IndexOf(v, '-');
    var core := Split(v[..dash]);
    && |core| == 3 && IsNumeric(core[0]) && IsNumeric(core[1]) && IsNumeric(core[2])
    && (dash < |v| ==> |v| > dash + 1 && forall ch <- v[dash + 1..] :: IsIdentifierChar(ch) || ch == '.')
  }

  predicate LooksLikeDate(d: string) {
    |d| == 10 && IsDigits(d[..4]) && d[4] == '-' && IsDigits(d[5..7]) && d[7] == '-' && IsDigits(d[8..])
  }

  /** RELEASE_HEADING: a version in brackets, then a date. */
  function ReleaseHeading(line: string): Option<(string, string)> {
    var n := |line|;
    if n < 18 || line[..4] != "## [" || line[n - 14..n - 10] != "] - " then None
    else if !LooksLikeVersion(line[4..n - 14]) || !LooksLikeDate(line[n - 10..]) then None
    else Some((line[4..n - 14], line[n - 10..]))
  }

  function TrimEnd(lines: seq<string>): (r: seq<string>)
    ensures r <= lines && (r != [] ==> !IsBlank(r[|r| - 1]))
  {
    if lines != [] && IsBlank(lines[|lines| - 1]) then TrimEnd(lines[..|lines| - 1]) else lines
  }

  function TrimStart(lines: seq<string>): (r: seq<string>)
    ensures |r| <= |lines| && r == lines[|lines| - |r|..] && (r != [] ==> !IsBlank(r[0]))
  {
    if lines != [] && IsBlank(lines[0]) then TrimStart(lines[1..]) else lines
  }

  function Finished(s: Option<Section>): seq<Release> {
    match s case None => [] case Some(x) => [Release(x.version, x.date, TrimStart(TrimEnd(x.lines)))]
  }

  datatype Progress = Progress(hasUnreleased: bool, releases: seq<Release>, current: Option<Section>)

  function Advance(p: Progress, line: string): Progress {
    if IsHeading(line) || IsLinkDefinition(line) then
      var done := p.releases + Finished(p.current);
      if line == UNRELEASED_HEADING then Progress(true, done, None)
      else Progress(p.hasUnreleased, done, match ReleaseHeading(line) case None => None
        case Some((v, d)) => Some(Section(v, d, [])))
    else match p.current
      case None => p
      case Some(x) => p.(current := Some(x.(lines := x.lines + [line])))
  }

  function Walk(lines: seq<string>): Progress {
    if lines == [] then Progress(false, [], None) else Advance(Walk(lines[..|lines| - 1]), lines[|lines| - 1])
  }

  /** parseChangelog, given the lines of the text. */
  method ParseChangelog(lines: seq<string>) returns (hasUnreleased: bool, releases: seq<Release>)
    ensures hasUnreleased == Walk(lines).hasUnreleased
    ensures releases == Walk(lines).releases + Finished(Walk(lines).current)
  {
    hasUnreleased, releases := false, [];
    var current: Option<Section> := None;
    for i := 0 to |lines|
      invariant Walk(lines[..i]) == Progress(hasUnreleased, releases, current)
    {
      assert lines[..i + 1][..i] == lines[..i] && lines[..i + 1][i] == lines[i];
      var line := lines[i];
      if IsHeading(line) || IsLinkDefinition(line) {
        var finished := Finish(current);
        releases := releases + finished;
        current := None;
        if line == UNRELEASED_HEADING {
          hasUnreleased := true;
        } else {
          match ReleaseHeading(line) {
            case None =>
            case Some((version, date)) => current := Some(Section(version, date, []));
          }
        }
      } else if current.Some? {
        current := Some(current.value.(lines := current.value.lines + [line]));
      }
    }
    assert lines[..|lines|] == lines;
    var finished := Finish(current);
    releases := releases + finished;
  }

  method Finish(current: Option<Section>) returns (finished: seq<Release>)
    ensures finished == Finished(current)
  {
    if current.None? {
      return [];
    }
    var lines := current.value.lines;
    while |lines| > 0 && IsBlank(lines[|lines| - 1])
      invariant TrimEnd(lines) == TrimEnd(current.value.lines)
    {
      lines := lines[..|lines| - 1];
    }
    while |lines| > 0 && IsBlank(lines[0])
      invariant TrimStart(lines) == TrimStart(TrimEnd(current.value.lines))
    {
      lines := lines[1..];
    }
    return [Release(current.value.version, current.value.date, lines)];
  }

  /** The release headings of a text, in order. */
  function Headings(lines: seq<string>): seq<(string, string)> {
    if lines == [] then []
    else
      var before, line := Headings(lines[..|lines| - 1]), lines[|lines| - 1];
      if IsHeading(line) && line != UNRELEASED_HEADING && ReleaseHeading(line).Some?
      then before + [ReleaseHeading(line).value] else before
  }

  function HeadingsOf(releases: seq<Release>): (headings: seq<(string, string)>)
    ensures |headings| == |releases| && forall i :: 0 <= i < |releases| ==>
            headings[i] == (releases[i].version, releases[i].date)
  {
    seq(|releases|, i requires 0 <= i < |releases| => (releases[i].version, releases[i].date))
  }

  /** The releases are exactly the release headings, in the order they are written: none is
      lost, repeated or made up. */
  lemma {:induction false} ReleasesAreHeadings(lines: seq<string>)
    ensures HeadingsOf(Walk(lines).releases + Finished(Walk(lines).current)) == Headings(lines)
    decreases |lines|
  {
    hide Advance, Finished, IsHeading, IsLinkDefinition, ReleaseHeading;
    if lines == [] {
      NothingFinished();
    } else {
      ReleasesAreHeadings(lines[..|lines| - 1]);
      LineKeepsHeadings(Walk(lines[..|lines| - 1]), lines[|lines| - 1]);
    }
  }

  lemma NothingFinished()
    ensures Finished(None) == []
  {
  }

  lemma LineKeepsHeadings(p: Progress, line: string)
    ensures var before, q := HeadingsOf(p.releases + Finished(p.current)), Advance(p, line);
            HeadingsOf(q.releases + Finished(q.current)) ==
              if IsHeading(line) && line != UNRELEASED_HEADING && ReleaseHeading(line).Some?
              then before + [ReleaseHeading(line).value] else before
  {
    hide IsHeading, IsLinkDefinition, ReleaseHeading, Finished, HeadingsOf;
    NothingFinished();
    var done := p.releases + Finished(p.current);
    assert done + [] == done;
    if ReleaseHeading(line).Some? {
      ReleaseHeadingIsHeading(line);
      OpenedSectionIsHeading(done, ReleaseHeading(line).value.0, ReleaseHeading(line).value.1);
    }
    if !IsHeading(line) && !IsLinkDefinition(line) && p.current.Some? {
      var x := p.current.value;
      LinesAreNoHeading(p.releases, x, x.lines + [line]);
    }
  }

  lemma FinishedIsOne(x: Section)
    ensures Finished(Some(x)) == [Finished(Some(x))[0]]
    ensures Finished(Some(x))[0].version == x.version && Finished(Some(x))[0].date == x.date
  {
    hide TrimStart, TrimEnd;
  }

  lemma HeadingAppended(done: seq<Release>, r: Release)
    ensures HeadingsOf(done + [r]) == HeadingsOf(done) + [(r.version, r.date)]
  {
    hide HeadingsOf;
    var all, expected := HeadingsOf(done + [r]), HeadingsOf(done) + [(r.version, r.date)];
    assert |all| == |expected| && forall i :: 0 <= i < |all| ==> all[i] == expected[i];
  }

  lemma OpenedSectionIsHeading(done: seq<Release>, v: string, d: string)
    ensures HeadingsOf(done + Finished(Some(Section(v, d, [])))) == HeadingsOf(done) + [(v, d)]
  {
    hide Finished, HeadingsOf;
    FinishedIsOne(Section(v, d, []));
    HeadingAppended(done, Finished(Some(Section(v, d, [])))[0]);
  }

  lemma LinesAreNoHeading(releases: seq<Release>, x: Section, lines: seq<string>)
    ensures HeadingsOf(releases + Finished(Some(x.(lines := lines)))) == HeadingsOf(releases + Finished(Some(x)))
  {
    hide Finished, HeadingsOf;
    var y := x.(lines := lines);
    FinishedIsOne(x);
    FinishedIsOne(y);
    HeadingAppended(releases, Finished(Some(x))[0]);
    HeadingAppended(releases, Finished(Some(y))[0]);
  }

  lemma ReleaseHeadingIsHeading(line: string)
    requires ReleaseHeading(line).Some?
    ensures IsHeading(line)
  {
    assert line[..4] == "## [" && line[..3] == line[..4][..3];
  }

  // ----- Findings -----

  predicate IsLeap(year: int) { year % 4 == 0 && (year % 100 != 0 || year % 400 == 0) }

  function DaysIn(year: int, month: int): int {
    if month == 2 then (if IsLeap(year) then 29 else 28) else if month in {4, 6, 9, 11} then 30 else 31
  }

  predicate IsCalendarDate(d: string) {
    && LooksLikeDate(d)
    && var year, month, day := DecimalValue(d[..4]), DecimalValue(d[5..7]), DecimalValue(d[8..]);
    && 1 <= month <= 12 && 1 <= day <= DaysIn(year, month)
  }

  datatype Finding =
    | PackageNotSemVer | OpenapiDiffers | ReadmeSilent | StatusSilent | NoUnreleased | NoRelease | TopReleaseDiffers
    | ReleaseNotSemVer(version: string) | DateInvalid(version: string) | NotDescending(version: string, next: string)
    | DateIncreases(version: string, next: string) | TagDiffers

  /** `verdict <= 0`, which is false of NaN. */
  predicate AtMostZero(verdict: Verdict) { verdict.Sign? && verdict.value <= 0 }

  /** What one release and the one below it are found to do wrong. */
  function ReleaseFindings(releases: seq<Release>, i: nat): seq<Finding>
    requires i < |releases|
  {
    var r := releases[i];
    (if IsSemVer(r.version) then [] else [ReleaseNotSemVer(r.version)])
    + (if IsCalendarDate(r.date) then [] else [DateInvalid(r.version)])
    + (if i + 1 == |releases| then []
       else
         var next := releases[i + 1];
         (if IsSemVer(r.version) && IsSemVer(next.version)
           && AtMostZero(Compared(Parse(r.version).value, Parse(next.version).value))
          then [NotDescending(r.version, next.version)] else [])
         + (if IsCalendarDate(r.date) && IsCalendarDate(next.date) && CompareText(r.date, next.date) < 0
            then [DateIncreases(r.version, next.version)] else []))
  }

  function AllReleaseFindings(releases: seq<Release>, n: nat): seq<Finding>
    requires n <= |releases|
  {
    if n == 0 then [] else AllReleaseFindings(releases, n - 1) + ReleaseFindings(releases, n - 1)
  }

  /** The other surfaces a version appears on; whether two documents name it is an input. */
  datatype Surfaces = Surfaces(
    packageVersion: string, openapiVersion: string, readmeMentions: bool, statusMentions: bool, changelog: seq<string>,
    tag: Option<string>)

  function ReleasesOf(s: Surfaces): seq<Release> { Walk(s.changelog).releases + Finished(Walk(s.changelog).current) }

  function DocumentFindings(s: Surfaces): seq<Finding> {
    (if s.openapiVersion != s.packageVersion then [OpenapiDiffers] else [])
    + (if !s.readmeMentions then [ReadmeSilent] else [])
    + (if !s.statusMentions then [StatusSilent] else [])
  }

  /** What the surfaces themselves are found to do wrong. */
  function SurfaceFindings(s: Surfaces, hasUnreleased: bool, releases: seq<Release>): seq<Finding> {
    DocumentFindings(s)
    + (if !hasUnreleased then [NoUnreleased] else [])
    + (if releases == [] then [NoRelease] else if releases[0].version != s.packageVersion then [TopReleaseDiffers]
      else [])
  }

  function FindingsOf(s: Surfaces): seq<Finding> {
    var releases := ReleasesOf(s);
    if !IsSemVer(s.packageVersion) then [PackageNotSemVer]
    else
      SurfaceFindings(s, Walk(s.changelog).hasUnreleased, releases)
      + AllReleaseFindings(releases, |releases|)
      + (if s.tag.Some? && s.tag.value != "v" + s.packageVersion then [TagDiffers] else [])
  }

  method VersionFindings(s: Surfaces) returns (findings: seq<Finding>)
    ensures findings == FindingsOf(s)
  {
    if !IsSemVer(s.packageVersion) {
      return [PackageNotSemVer];
    }
    var hasUnreleased, releases := ParseChangelog(s.changelog);
    findings := CheckSurfaces(s, hasUnreleased, releases);
    var ofReleases := CheckReleases(releases);
    findings := findings + ofReleases;
    if s.tag.Some? && s.tag.value != "v" + s.packageVersion {
      findings := findings + [TagDiffers];
    }
  }

  method CheckDocuments(s: Surfaces) returns (findings: seq<Finding>)
    ensures findings == DocumentFindings(s)
  {
    findings := [];
    if s.openapiVersion != s.packageVersion {
      findings := findings + [OpenapiDiffers];
    }
    if !s.readmeMentions {
      findings := findings + [ReadmeSilent];
    }
    if !s.statusMentions {
      findings := findings + [StatusSilent];
    }
  }

  method CheckSurfaces(s: Surfaces, hasUnreleased: bool, releases: seq<Release>) returns (findings: seq<Finding>)
    ensures findings == SurfaceFindings(s, hasUnreleased, releases)
  {
    hide DocumentFindings;
    findings := CheckDocuments(s);
    if !hasUnreleased {
      findings := findings + [NoUnreleased];
    }
    if releases == [] {
      findings := findings + [NoRelease];
    } else if releases[0].version != s.packageVersion {
      findings := findings + [TopReleaseDiffers];
    }
  }

  /** The loop over the releases and their neighbours. */
  method CheckReleases(releases: seq<Release>) returns (findings: seq<Finding>)
    ensures findings == AllReleaseFindings(releases, |releases|)
  {
    findings := [];
    for i := 0 to |releases|
      invariant findings == AllReleaseFindings(releases, i)
    {
      var found := CheckRelease(releases, i);
      findings := findings + found;
    }
  }

  method CheckRelease(releases: seq<Release>, i: nat) returns (found: seq<Finding>)
    requires i < |releases|
    ensures found == ReleaseFindings(releases, i)
  {
    hide Compared, Parse, IsCalendarDate, CompareText;
    var r := releases[i];
    found := [];
    if !IsSemVer(r.version) {
      found := found + [ReleaseNotSemVer(r.version)];
    }
    if !IsCalendarDate(r.date) {
      found := found + [DateInvalid(r.version)];
    }
    if i + 1 < |releases| {
      var next := releases[i + 1];
      var order := CompareSemVer(r.version, next.version);
      if order.Some? && AtMostZero(order.value) {
        found := found + [NotDescending(r.version, next.version)];
      }
      if IsCalendarDate(r.date) && IsCalendarDate(next.date) && CompareText(r.date, next.date) < 0 {
        found := found + [DateIncreases(r.version, next.version)];
      }
    }
  }

  lemma {:induction false} NoFindingAnywhere(releases: seq<Release>, n: nat, i: nat)
    requires i < n <= |releases| && AllReleaseFindings(releases, n) == []
    ensures ReleaseFindings(releases, i) == []
    decreases n
  {
    hide ReleaseFindings;
    assert AllReleaseFindings(releases, n - 1) == [] && ReleaseFindings(releases, n - 1) == [];
    if i < n - 1 {
      NoFindingAnywhere(releases, n - 1, i);
    }
  }

  ghost predicate Descends(releases: seq<Release>) {
    forall i :: 0 <= i < |releases| ==> ReleaseFindings(releases, i) == []
  }

  /** No number in a release's version overflows. */
  predicate NoOverflow(releases: seq<Release>) {
    forall i :: 0 <= i < |releases| ==> IsSemVer(releases[i].version) ==> Bounded(Parse(releases[i].version).value)
  }

  function VersionAt(releases: seq<Release>, i: nat): Version
    requires i < |releases| && IsSemVer(releases[i].version)
  {
    Parse(releases[i].version).value
  }

  /** Every earlier release is greater than every later one for the comparator itself. */
  ghost predicate ComparesThroughout(releases: seq<Release>)
    requires forall i :: 0 <= i < |releases| ==> IsSemVer(releases[i].version)
  {
    forall i, k :: 0 <= i < k < |releases| ==> Compared(VersionAt(releases, i), VersionAt(releases, k)) == Sign(1)
  }

  /** No two neighbours meet in an overflowing number. */
  ghost predicate NeighboursTell(releases: seq<Release>)
    requires forall i :: 0 <= i < |releases| ==> IsSemVer(releases[i].version)
  {
    forall i :: 0 <= i < |releases| - 1 ==> !OverflowsMeet(VersionAt(releases, i), VersionAt(releases, i + 1))
  }

  /** What no finding says about two neighbours: greater, or not comparable. */
  lemma NeighboursCompare(releases: seq<Release>, i: nat)
    requires Descends(releases) && i + 1 < |releases|
    ensures IsSemVer(releases[i].version) && IsSemVer(releases[i + 1].version)
    ensures Compared(VersionAt(releases, i), VersionAt(releases, i + 1)) ==
              if OverflowsMeet(VersionAt(releases, i), VersionAt(releases, i + 1)) then NaN else Sign(1)
  {
    hide Compared, OverflowsMeet, Parse;
    assert ReleaseFindings(releases, i) == [] && ReleaseFindings(releases, i + 1) == [];
    NoAnswerExactly(VersionAt(releases, i), VersionAt(releases, i + 1));
    VerdictsAreSigns(VersionAt(releases, i), VersionAt(releases, i + 1));
  }

  lemma {:induction false} EarlierCompares(releases: seq<Release>, i: nat, k: nat)
    requires Descends(releases) && i < k < |releases|
    requires forall j :: 0 <= j < |releases| ==> IsSemVer(releases[j].version)
    requires NeighboursTell(releases)
    ensures Compared(VersionAt(releases, i), VersionAt(releases, k)) == Sign(1)
    decreases k - i
  {
    hide Compared, OverflowsMeet, Parse, ReleaseFindings, VersionAt;
    NeighboursCompare(releases, k - 1);
    if i < k - 1 {
      EarlierCompares(releases, i, k - 1);
      ComparisonsClimb(VersionAt(releases, i), VersionAt(releases, k - 1), VersionAt(releases, k));
    }
  }

  /** Without findings, although only neighbours are compared, every earlier listed release is
      greater than every later one if and only if no two neighbours meet in an overflowing number:
      no place at which both numbers overflow, all places before it being the same to the doubles. */
  lemma NoFindingsOrderExactly(s: Surfaces)
    requires FindingsOf(s) == []
    ensures var releases := ReleasesOf(s);
            && releases != [] && releases[0].version == s.packageVersion == s.openapiVersion
            && (forall i :: 0 <= i < |releases| ==> IsSemVer(releases[i].version) && IsCalendarDate(releases[i].date))
            && (ComparesThroughout(releases) <==> NeighboursTell(releases))
  {
    hide Compared, OverflowsMeet, Parse, IsCalendarDate, SurfaceFindings, ReleaseFindings, VersionAt;
    var releases := ReleasesOf(s);
    FindingsAreListed(s);
    NoReleaseFindings(releases);
    if NeighboursTell(releases) {
      forall i, k | 0 <= i < k < |releases|
        ensures Compared(VersionAt(releases, i), VersionAt(releases, k)) == Sign(1)
      {
        EarlierCompares(releases, i, k);
      }
    }
    if ComparesThroughout(releases) {
      forall i | 0 <= i < |releases| - 1
        ensures !OverflowsMeet(VersionAt(releases, i), VersionAt(releases, i + 1))
      {
        NeighboursCompare(releases, i);
      }
    }
  }

  /** Every earlier release is greater than every later one for the comparator itself; and it is
      greater by section 11 exactly when the two agree. */
  ghost predicate DescendsThroughout(releases: seq<Release>) {
    && (forall i :: 0 <= i < |releases| ==> IsSemVer(releases[i].version))
    && forall i, k :: 0 <= i < k < |releases| ==>
         && Compared(VersionAt(releases, i), VersionAt(releases, k)) == Sign(1)
         && (Precedence(VersionAt(releases, i), VersionAt(releases, k)) == 1 <==>
               VersionsAgree(VersionAt(releases, i), VersionAt(releases, k)))
  }

  /** In particular when no number overflows. */
  lemma NoFindingsMeansDescending(s: Surfaces)
    requires FindingsOf(s) == [] && NoOverflow(ReleasesOf(s))
    ensures var releases := ReleasesOf(s);
            && releases != [] && releases[0].version == s.packageVersion == s.openapiVersion
            && DescendsThroughout(releases)
            && (forall i :: 0 <= i < |releases| ==> IsCalendarDate(releases[i].date))
  {
    hide Compared, Precedence, VersionsAgree, OverflowsMeet, Parse, Bounded, IsCalendarDate, FindingsOf, VersionAt;
    var releases := ReleasesOf(s);
    NoFindingsOrderExactly(s);
    forall i | 0 <= i < |releases| - 1
      ensures !OverflowsMeet(VersionAt(releases, i), VersionAt(releases, i + 1))
    {
      BoundedAt(releases, i);
      BoundedVersionsMeetNoOverflow(VersionAt(releases, i), VersionAt(releases, i + 1));
    }
    forall i, k | 0 <= i < k < |releases|
      ensures Precedence(VersionAt(releases, i), VersionAt(releases, k)) == 1 <==>
                VersionsAgree(VersionAt(releases, i), VersionAt(releases, k))
    {
      ComparatorAgreesExactly(VersionAt(releases, i), VersionAt(releases, k));
    }
  }

  lemma BoundedAt(releases: seq<Release>, i: nat)
    requires NoOverflow(releases) && i < |releases| && IsSemVer(releases[i].version)
    ensures Bounded(VersionAt(releases, i))
  {
    hide Bounded, Parse;
  }

  /** The check a maintainer can make by eye: numerals of at most 300 digits overflow nowhere. */
  lemma ShortReleasesOverflowNowhere(releases: seq<Release>)
    requires forall r <- releases :: ShortNumerals(r.version)
    ensures NoOverflow(releases)
  {
    hide ShortNumerals, Bounded, Parse;
    forall i | 0 <= i < |releases| && IsSemVer(releases[i].version)
      ensures Bounded(Parse(releases[i].version).value)
    {
      assert releases[i] in releases;
      ShortVersionsAreBounded(releases[i].version);
    }
  }

  lemma FindingsAreListed(s: Surfaces)
    requires FindingsOf(s) == []
    ensures var releases := ReleasesOf(s);
            && releases != [] && releases[0].version == s.packageVersion == s.openapiVersion
            && AllReleaseFindings(releases, |releases|) == []
  {
    hide AllReleaseFindings, ReleasesOf, Walk, Parse;
  }

  lemma NoReleaseFindings(releases: seq<Release>)
    requires AllReleaseFindings(releases, |releases|) == []
    ensures Descends(releases)
    ensures forall i :: 0 <= i < |releases| ==> IsSemVer(releases[i].version) && IsCalendarDate(releases[i].date)
  {
    hide Compared, Parse, IsCalendarDate, AllReleaseFindings;
    forall i | 0 <= i < |releases|
      ensures ReleaseFindings(releases, i) == [] && IsSemVer(releases[i].version) && IsCalendarDate(releases[i].date)
    {
      NoFindingAnywhere(releases, |releases|, i);
    }
  }

  // ----- An input that has no findings and is not in order -----

  const HEADING := "## [" + HUGE_VERSION + "] - 2024-01-01"
  const HUGE_CHANGELOG := [UNRELEASED_HEADING, HEADING, HEADING]
  const HUGE_SURFACES := Surfaces(HUGE_VERSION, HUGE_VERSION, true, true, HUGE_CHANGELOG, None)
  const HUGE_RELEASE := Release(HUGE_VERSION, "2024-01-01", [])

  lemma FirstDayIsADate()
    ensures IsCalendarDate("2024-01-01")
  {
    var d := "2024-01-01";
    assert d[..4] == "2024" && d[5..7] == "01" && d[8..] == "01";
    FourDigits("2024");
    assert "01"[..1] == "0" && "0"[..0] == "";
    assert DecimalValue("0") == 0 && DecimalValue("01") == 1;
  }

  lemma HugeVersionLooksLikeOne()
    ensures LooksLikeVersion(HUGE_VERSION)
  {
    hide PowerNumeral;
    SplitsInThree(PowerNumeral(342));
    var v := HUGE_VERSION;
    NoDash(v);
    assert v[..|v|] == v;
  }

  lemma HeadingIsRead()
    ensures IsHeading(HEADING) && HEADING != UNRELEASED_HEADING
    ensures ReleaseHeading(HEADING) == Some((HUGE_VERSION, "2024-01-01"))
  {
    hide LooksLikeVersion, LooksLikeDate, IsCalendarDate, PowerNumeral;
    var v, tail := HUGE_VERSION, "] - 2024-01-01";
    var line := HEADING;
    assert line == "## [" + (v + tail) && |tail| == 14;
    assert line[..4] == "## [" && line[4..|line| - 14] == v && line[|line| - 14..] == tail;
    assert line[|line| - 14..|line| - 10] == tail[..4] == "] - " && line[|line| - 10..] == tail[4..] == "2024-01-01";
    HugeVersionLooksLikeOne();
    FirstDayIsADate();
    assert LooksLikeDate("2024-01-01") by {
      DateLooksLikeOne("2024-01-01");
    }
    assert |v| >= 343;
  }

  lemma DateLooksLikeOne(d: string)
    requires IsCalendarDate(d)
    ensures LooksLikeDate(d)
  {
  }

  lemma HugeChangelogIsRead()
    ensures Walk(HUGE_CHANGELOG).hasUnreleased && ReleasesOf(HUGE_SURFACES) == [HUGE_RELEASE, HUGE_RELEASE]
  {
    hide ReleaseHeading, IsHeading, HEADING;
    var c := HUGE_CHANGELOG;
    assert c[..2] == [UNRELEASED_HEADING, HEADING] && c[..2][..1] == [UNRELEASED_HEADING] && c[..2][..1][..0] == [];
    HeadingIsRead();
    assert IsHeading(UNRELEASED_HEADING) by {
      UnreleasedIsHeading();
    }
    assert Walk(c[..2][..1]) == Progress(true, [], None);
    assert Walk(c[..2]) == Progress(true, [], Some(Section(HUGE_VERSION, "2024-01-01", [])));
  }

  lemma UnreleasedIsHeading()
    ensures IsHeading(UNRELEASED_HEADING)
  {
  }

  /** One version with an overflowing number, released twice in a row: a changelog and a package
      without any finding, and two releases the comparator has no answer for. */
  lemma OverflowHidesARepetition()
    ensures FindingsOf(HUGE_SURFACES) == [] && ReleasesOf(HUGE_SURFACES) == [HUGE_RELEASE, HUGE_RELEASE]
    ensures Compared(VersionAt(ReleasesOf(HUGE_SURFACES), 0), VersionAt(ReleasesOf(HUGE_SURFACES), 1)) == NaN
  {
    hide Compared, Parse, IsCalendarDate, Walk, PowerNumeral;
    HugeChangelogIsRead();
    HugeVersionIsNotItself();
    FirstDayIsADate();
    EqualTextsAgree("2024-01-01", "2024-01-01");
    var releases := [HUGE_RELEASE, HUGE_RELEASE];
    assert ReleaseFindings(releases, 0) == [] && ReleaseFindings(releases, 1) == [];
    assert AllReleaseFindings(releases, 0) == [] && AllReleaseFindings(releases, 1) == [];
  }
}
