/** Reviews of a settlement bundle (src/review.js): the receipt projection and the timing of the
    recorded lifecycle. */
module Review {
  import opened RailStates
  import opened Artifacts
  import opened EventStore
  import opened Verify
  import opened VerifySoundness
  import opened RailModel
  import opened RailRuns
  import opened RailTheorems

  datatype Options = Options(keys: map<KeyId, PublicKey>, connectorKeys: map<KeyId, PublicKey>, requireSemantics: bool)

  /** The verification behind reviewBundle: audit bundles are always checked semantically. */
  function Reviewed(c: Crypto, b: Bundle, o: Options): Result<Verification, Refusal> {
    VerifyBundle(c, b, o.keys, o.connectorKeys, o.requireSemantics || b.profile == AuditProfile)
  }

  // ----- The receipt projection -----

  /** The edits receiptBundle makes to its copy. */
  function Projected(b: Bundle): Bundle {
    b.(profile := ReceiptProfile, action := b.action.(proposal := None), outcomeEvidence := [])
  }

  method ReceiptBundle(c: Crypto, input: Bundle, o: Options) returns (r: Result<Bundle, Refusal>)
    ensures r.Ok? <==> Reviewed(c, input, o).Ok? && Reviewed(c, Projected(input), o).Ok?
    ensures r.Ok? ==> r.value == Projected(input)
  {
    var bundle := input;
    match Reviewed(c, bundle, o) {
      case Err(e) => return Err(e);
      case Ok(_) =>
    }
    bundle := bundle.(profile := ReceiptProfile);
    bundle := bundle.(action := bundle.action.(proposal := None));
    bundle := bundle.(outcomeEvidence := []);
    match Reviewed(c, bundle, o) {
      case Err(e) => return Err(e);
      case Ok(_) => return Ok(bundle);
    }
  }

  lemma ProjectionKeepsSignatures(c: Crypto, b: Bundle, keys: map<KeyId, PublicKey>,
      connectorKeys: map<KeyId, PublicKey>)
    requires forall i :: 0 <= i < |SignatureChecks(c, b, keys, connectorKeys)| ==>
             SignatureChecks(c, b, keys, connectorKeys)[i] == SignatureGood
    ensures forall i :: 0 <= i < |SignatureChecks(c, Projected(b), keys, connectorKeys)| ==>
              SignatureChecks(c, Projected(b), keys, connectorKeys)[i] == SignatureGood
  {
    var all, kept := SignatureChecks(c, b, keys, connectorKeys), SignatureChecks(c, Projected(b), keys, connectorKeys);
    assert |all| == |b.outcomeEvidence| + 4 && |kept| == 4;
    assert kept[0] == all[0] && kept[1] == all[1] && kept[2] == all[2] && kept[3] == all[|all| - 1];
  }

  /** How far a receipt's close time lies behind its CLOSED event. */
  predicate CloseTimeFits(b: Bundle) {
    b.events != [] && 0 <= b.receipt.body.closedAt - b.events[|b.events| - 1].RecordedAt() <= LEGACY_CLOSE_TIME_LAG_MS
  }

  /** The projection of an audit bundle whose integrity checks is accepted as a receipt exactly
      when its close time fits its CLOSED event, with the same outcome and chain head. */
  lemma ProjectionAcceptedExactly(c: Crypto, b: Bundle, keys: map<KeyId, PublicKey>,
      connectorKeys: map<KeyId, PublicKey>)
    requires b.profile == AuditProfile && VerifyBundle(c, b, keys, connectorKeys, false).Ok?
    ensures VerifyBundle(c, Projected(b), keys, connectorKeys, false).Ok? <==> CloseTimeFits(b)
    ensures CloseTimeFits(b) ==>
              VerifyBundle(c, Projected(b), keys, connectorKeys, false).value == VerifyBundle(c, b, keys, connectorKeys,
                false).value
  {
    AcceptedExactly(c, b, keys, connectorKeys, false);
    AcceptedExactly(c, Projected(b), keys, connectorKeys, false);
    ProjectionKeepsSignatures(c, b, keys, connectorKeys);
    assert BindingsOk(c, Projected(b)) <==> CloseTimeFits(b);
  }

  /** Whenever an audit bundle verifies with semantics, its receipt projection is made and
      verifies as a receipt with the same outcome and chain head; projecting again changes
      nothing. Forcing semantics on the receipt is the one thing that refuses it. */
  lemma ProjectionPreservesAcceptance(c: Crypto, b: Bundle, o: Options)
    requires b.profile == AuditProfile && Reviewed(c, b, o).Ok?
    ensures Reviewed(c, Projected(b), o).Ok? <==> !o.requireSemantics
    ensures !o.requireSemantics ==>
              && Reviewed(c, Projected(b), o).value.outcome == Reviewed(c, b, o).value.outcome
              && Reviewed(c, Projected(b), o).value.chainHead == Reviewed(c, b, o).value.chainHead
    ensures Projected(Projected(b)) == Projected(b)
  {
    hide SemanticsOk, BindingsOk, ShapeOk, ChainValid, SignatureChecks;
    AcceptedExactly(c, b, o.keys, o.connectorKeys, true);
    AcceptedExactly(c, b, o.keys, o.connectorKeys, false);
    ProjectionAcceptedExactly(c, b, o.keys, o.connectorKeys);
    AcceptedExactly(c, Projected(b), o.keys, o.connectorKeys, true);
    SemanticsFixCloseTime(c, b);
    ReceiptHasNoSemantics(c, Projected(b));
  }

  lemma SemanticsFixCloseTime(c: Crypto, b: Bundle)
    requires SemanticsOk(c, b)
    ensures CloseTimeFits(b)
  {
    hide ArtifactSemantics, CompleteReplay, LifecycleSemantics, EvidenceSemantics, EvidenceSupportsOutcome, LastState;
  }

  lemma ReceiptHasNoSemantics(c: Crypto, b: Bundle)
    requires b.profile == ReceiptProfile
    ensures !SemanticsOk(c, b)
  {
    hide ArtifactSemantics, CompleteReplay, LifecycleSemantics, EvidenceSemantics, EvidenceSupportsOutcome,
         RecourseSemantics;
  }

  /** Of an action the rail has closed, the projection of the audit export is the receipt export. */
  lemma ProjectionIsReceiptExport(cfg: Config, v: View)
    requires v.rec.receipt.Some? && v.rec.reservation.Some? && v.rec.permit.Some?
    ensures Projected(ExportBundle(cfg, v, AuditProfile)) == ExportBundle(cfg, v, ReceiptProfile)
  {
  }

  /** What the rail exports, the review accepts: of every closed action of a truthful run without
      a late observation, the audit export passes the review, its projection is the receipt
      export, and that passes with the same outcome and chain head. */
  lemma ProducerExportsProject(cfg: Config, p: Proposal, start: Time, turns: seq<Turn>, views: seq<View>, i: nat)
    requires SoundSignatures(cfg.crypto)
    requires Run(cfg, p, start, turns, views) && RegularRun(turns, views) && i <= |turns|
    requires views[i].rec.receipt.Some?
    ensures var v, o := views[i], Options(cfg.Keys(), cfg.connectorKeys, false);
            && v.rec.reservation.Some? && v.rec.permit.Some?
            && var audit, receipt := ExportBundle(cfg, v, AuditProfile), ExportBundle(cfg, v, ReceiptProfile);
               && Projected(audit) == receipt
               && Reviewed(cfg.crypto, audit, o).Ok? && Reviewed(cfg.crypto, receipt, o).Ok?
               && Reviewed(cfg.crypto, receipt, o).value.outcome == Reviewed(cfg.crypto, audit, o).value.outcome
               && Reviewed(cfg.crypto, receipt, o).value.chainHead == Reviewed(cfg.crypto, audit, o).value.chainHead
  {
    hide VerifyBundle, RegularRun, ProposalValid, TakeTurn;
    var v, o := views[i], Options(cfg.Keys(), cfg.connectorKeys, false);
    ProducerVerifierAgree(cfg, p, start, turns, views, i);
    ProjectionIsReceiptExport(cfg, v);
    ProjectionPreservesAcceptance(cfg.crypto, ExportBundle(cfg, v, AuditProfile), o);
  }

  // ----- Lifecycle timing -----

  datatype Interval = Interval(state: State, enteredAt: Time, leftAt: Time) {
    function Duration(): int { leftAt - enteredAt }
  }

  datatype Row = Row(visits: nat, duration: int)

  datatype Timing = Timing(
    recordedFrom: Time, recordedUntil: Time, totals: map<State, Row>, finalState: State, finalEnteredAt: Time,
    totalRecorded: int, intervals: seq<Interval>)

  /** When the current state was entered: at the last transition, or else at the first event. */
  function EnteredAt(es: seq<Event>, start: Time): Time {
    if es == [] then start
    else
      var e := es[|es| - 1];
      if e.Payload().StateTransition? then e.RecordedAt() else EnteredAt(es[..|es| - 1], start)
  }

  function Intervals(es: seq<Event>, start: Time): seq<Interval> {
    if es == [] then []
    else
      var n := |es| - 1;
      var before := Intervals(es[..n], start);
      match es[n].Payload()
      case StateTransition(from, _, _, _) => before + [Interval(from, EnteredAt(es[..n], start), es[n].RecordedAt())]
      case _ => before
  }

  function Sum(intervals: seq<Interval>): int {
    if intervals == [] then 0 else Sum(intervals[..|intervals| - 1]) + intervals[|intervals| - 1].Duration()
  }

  function Tally(totals: map<State, Row>, i: Interval): map<State, Row> {
    var row := if i.state in totals then totals[i.state] else Row(0, 0);
    totals[i.state := Row(row.visits + 1, row.duration + i.Duration())]
  }

  function Totals(intervals: seq<Interval>): map<State, Row> {
    if intervals == [] then map[] else Tally(Totals(intervals[..|intervals| - 1]), intervals[|intervals| - 1])
  }

  method LifecycleTiming(c: Crypto, b: Bundle, o: Options) returns (r: Option<Timing>)
    ensures r.Some? <==> VerifyBundle(c, b, o.keys, o.connectorKeys, true).Ok?
    ensures r.Some? ==> b.events != [] && TimingOf(b.events, r.value)
  {
    hide VerifyBundle, Intervals, EnteredAt, LastState, Totals, Sum, SemanticsOk, ChainValid, SignatureChecks;
    if VerifyBundle(c, b, o.keys, o.connectorKeys, true).Err? {
      return None;
    }
    AcceptedExactly(c, b, o.keys, o.connectorKeys, true);
    var es := b.events;
    var recordedFrom := es[0].RecordedAt();
    var intervals, finalState, enteredAt := WalkEvents(es, recordedFrom);
    var totals, totalRecorded := AddUp(intervals);
    return Some(Timing(recordedFrom, es[|es| - 1].RecordedAt(), totals, finalState, enteredAt, totalRecorded,
      intervals));
  }

  method WalkEvents(es: seq<Event>, recordedFrom: Time)
    returns (intervals: seq<Interval>, finalState: State, enteredAt: Time)
    ensures intervals == Intervals(es, recordedFrom) && finalState == LastState(es)
            && enteredAt == EnteredAt(es, recordedFrom)
  {
    enteredAt := recordedFrom;
    finalState := PROPOSED;
    intervals := [];
    for i := 0 to |es|
      invariant enteredAt == EnteredAt(es[..i], recordedFrom) && finalState == LastState(es[..i])
      invariant intervals == Intervals(es[..i], recordedFrom)
    {
      assert es[..i + 1][..i] == es[..i] && es[..i + 1][i] == es[i];
      var payload := es[i].Payload();
      if payload.StateTransition? {
        intervals := intervals + [Interval(payload.from, enteredAt, es[i].RecordedAt())];
        enteredAt := es[i].RecordedAt();
        finalState := payload.to;
      }
    }
    assert es[..|es|] == es;
  }

  method AddUp(intervals: seq<Interval>) returns (totals: map<State, Row>, sum: int)
    ensures totals == Totals(intervals) && sum == Sum(intervals)
  {
    totals, sum := map[], 0;
    for i := 0 to |intervals|
      invariant totals == Totals(intervals[..i]) && sum == Sum(intervals[..i])
    {
      assert intervals[..i + 1][..i] == intervals[..i] && intervals[..i + 1][i] == intervals[i];
      totals := Tally(totals, intervals[i]);
      sum := sum + intervals[i].Duration();
    }
    assert intervals[..|intervals|] == intervals;
  }

  predicate TimingOf(es: seq<Event>, t: Timing)
    requires es != []
  {
    && t.recordedFrom == es[0].RecordedAt()
    && t.recordedUntil == es[|es| - 1].RecordedAt()
    && t.intervals == Intervals(es, t.recordedFrom)
    && t.totals == Totals(t.intervals)
    && t.totalRecorded == Sum(t.intervals)
    && t.finalState == LastState(es)
    && t.finalEnteredAt == EnteredAt(es, t.recordedFrom)
  }

  // ----- What the timing says -----

  /** The intervals run through the states of a path, one behind the other in time. */
  ghost predicate Follows(path: seq<State>, intervals: seq<Interval>, start: Time, entered: Time) {
    && |path| == |intervals| + 1
    && (forall i :: 0 <= i < |intervals| ==> intervals[i].state == path[i] && intervals[i].Duration() >= 0)
    && Sum(intervals) == entered - start
  }

  lemma NextFollows(path: seq<State>, intervals: seq<Interval>, start: Time, entered: Time, to: State, at: Time)
    requires Follows(path, intervals, start, entered) && entered <= at
    ensures Follows(path + [to], intervals + [Interval(path[|path| - 1], entered, at)], start, at)
  {
    var all := intervals + [Interval(path[|path| - 1], entered, at)];
    assert all[..|all| - 1] == intervals;
  }

  lemma {:induction false} IntervalsFollowReplay(id: Id, es: seq<Event>)
    requires es != [] && Replay(id, es).Some?
    ensures var start := es[0].RecordedAt();
            var entered := EnteredAt(es, start);
            && Follows(Replay(id, es).value, Intervals(es, start), start, entered)
            && start <= entered <= es[|es| - 1].RecordedAt()
    decreases |es|
  {
    hide Follows, Allowed, Sum;
    var n, start := |es| - 1, es[0].RecordedAt();
    var last, before := es[n], es[..n];
    if n == 0 {
      FirstFollows(start);
      assert es == [last] && before == [];
    } else {
      IntervalsFollowReplay(id, before);
      assert before[n - 1] == es[n - 1] && before[0] == es[0];
    }
    if last.Payload().StateTransition? {
      NextFollows(Replay(id, before).value, Intervals(before, start), start, EnteredAt(before, start),
        last.Payload().to, last.RecordedAt());
    }
  }

  lemma FirstFollows(start: Time)
    ensures Follows([PROPOSED], [], start, start)
  {
  }

  /** Per-state totals of states that are all different: one visit each, and its duration. */
  lemma {:induction false} TotalsOfDistinct(intervals: seq<Interval>, n: nat)
    requires n <= |intervals| && forall i, j :: 0 <= i < j < |intervals| ==> intervals[i].state != intervals[j].state
    ensures var totals := Totals(intervals[..n]);
            && (forall s :: s in totals <==> exists i :: 0 <= i < n && intervals[i].state == s)
            && forall i :: 0 <= i < n ==> intervals[i].state in totals
                                          && totals[intervals[i].state] == Row(1, intervals[i].Duration())
    decreases n
  {
    if n > 0 {
      TotalsOfDistinct(intervals, n - 1);
      assert intervals[..n][..n - 1] == intervals[..n - 1];
    }
  }

  /** The durations of the rows, added up in any order of the states. */
  function SumOfRows(totals: map<State, Row>, states: seq<State>): int
    requires forall s <- states :: s in totals
  {
    if states == [] then 0
    else
      assert states[|states| - 1] in states && forall s <- states[..|states| - 1] :: s in states;
      SumOfRows(totals, states[..|states| - 1]) + totals[states[|states| - 1]].duration
  }

  lemma {:induction false} RowsAddUp(intervals: seq<Interval>, n: nat, totals: map<State, Row>)
    requires n <= |intervals|
    requires forall i :: 0 <= i < |intervals| ==>
             intervals[i].state in totals && totals[intervals[i].state].duration == intervals[i].Duration()
    ensures forall s <- seq(n, i requires 0 <= i < n => intervals[i].state) :: s in totals
    ensures SumOfRows(totals, seq(n, i requires 0 <= i < n => intervals[i].state)) == Sum(intervals[..n])
    decreases n
  {
    if n > 0 {
      RowsAddUp(intervals, n - 1, totals);
      var states := seq(n, i requires 0 <= i < n => intervals[i].state);
      assert states[..n - 1] == seq(n - 1, i requires 0 <= i < n - 1 => intervals[i].state);
      assert intervals[..n][..n - 1] == intervals[..n - 1];
    }
  }

  function StatesOf(intervals: seq<Interval>): (states: seq<State>)
    ensures |states| == |intervals| && forall i :: 0 <= i < |states| ==> states[i] == intervals[i].state
  {
    seq(|intervals|, i requires 0 <= i < |intervals| => intervals[i].state)
  }

  /** The per-state totals list each state once, with one visit, and add up to the intervals. */
  ghost predicate TotalsAddUp(t: Timing) {
    && VisitsOnce(StatesOf(t.intervals))
    && (forall s :: s in t.totals <==> s in StatesOf(t.intervals))
    && (forall s <- t.totals :: t.totals[s].visits == 1)
    && SumOfRows(t.totals, StatesOf(t.intervals)) == t.totalRecorded
  }

  /** Timing telescopes: in every accepted bundle no interval is negative, the intervals add up
      to the time between the first and the last event, so do the per-state totals, and every
      state has exactly one visit. */
  lemma TimingTelescopes(c: Crypto, b: Bundle, o: Options, t: Timing)
    requires VerifyBundle(c, b, o.keys, o.connectorKeys, true).Ok? && b.events != [] && TimingOf(b.events, t)
    ensures forall i :: 0 <= i < |t.intervals| ==> t.intervals[i].Duration() >= 0
    ensures t.totalRecorded == t.recordedUntil - t.recordedFrom
    ensures TotalsAddUp(t)
    ensures t.finalState == CLOSED && t.finalEnteredAt == t.recordedUntil
  {
    AcceptedReplays(c, b, o);
    IntervalsOfReplay(b.action.actionId, b.events, t);
    LastIntervalEnds(b.events, t);
    RowsOfDistinct(t);
  }

  lemma RowsOfDistinct(t: Timing)
    requires forall i, j :: 0 <= i < j < |t.intervals| ==> t.intervals[i].state != t.intervals[j].state
    requires t.totals == Totals(t.intervals) && t.totalRecorded == Sum(t.intervals)
    ensures TotalsAddUp(t)
  {
    var n, states := |t.intervals|, StatesOf(t.intervals);
    assert t.intervals[..n] == t.intervals;
    TotalsOfDistinct(t.intervals, n);
    RowsAddUp(t.intervals, n, t.totals);
    assert states == seq(n, i requires 0 <= i < n => t.intervals[i].state);
    forall s <- t.totals
      ensures t.totals[s].visits == 1 && s in states
    {
      var i :| 0 <= i < n && t.intervals[i].state == s;
      assert states[i] == s;
    }
  }

  /** What acceptance says of the events: they replay, and end in the CLOSED transition. */
  lemma AcceptedReplays(c: Crypto, b: Bundle, o: Options)
    requires VerifyBundle(c, b, o.keys, o.connectorKeys, true).Ok?
    ensures b.events != [] && Replay(b.action.actionId, b.events).Some?
    ensures var last := b.events[|b.events| - 1].Payload(); last.StateTransition? && last.to == CLOSED
  {
    AcceptedExactly(c, b, o.keys, o.connectorKeys, true);
  }

  lemma LastIntervalEnds(es: seq<Event>, t: Timing)
    requires es != [] && TimingOf(es, t)
    requires var last := es[|es| - 1].Payload(); last.StateTransition? && last.to == CLOSED
    ensures t.finalState == CLOSED && t.finalEnteredAt == t.recordedUntil
  {
  }

  lemma IntervalsOfReplay(id: Id, es: seq<Event>, t: Timing)
    requires es != [] && Replay(id, es).Some? && TimingOf(es, t)
    ensures forall i :: 0 <= i < |t.intervals| ==> t.intervals[i].Duration() >= 0
    ensures forall i, j :: 0 <= i < j < |t.intervals| ==> t.intervals[i].state != t.intervals[j].state
    ensures t.totalRecorded == t.finalEnteredAt - t.recordedFrom
  {
    IntervalsFollowReplay(id, es);
    var path := Replay(id, es).value;
    LegalPathIsSimple(path);
    forall i, j | 0 <= i < j < |t.intervals|
      ensures t.intervals[i].state != t.intervals[j].state
    {
      assert path[i] != path[j];
    }
  }
}
