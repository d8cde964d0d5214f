/** A resumed analytics scan answers from its saved accumulators; an uninterrupted one from others. */
module AnalyticsCheckpoint {
  import opened Wrappers
  import opened LedgerSeries
  import opened LedgerBreakdowns
  import B = BreakdownRows

  // ---------- The accumulator that is saved ----------

  /** A day's bucket as it is saved; the count of unpriced rows is absent until there is one. */
  datatype SavedBucket = SavedBucket(completedRuns: nat, tokensTotal: real, cacheRead: real, inputTokens: real,
                                     cacheCreation: real, costUsd: real, unpricedCostRows: Option<nat>,
                                     durationsMs: seq<int>)

  const FRESH: SavedBucket := SavedBucket(0, 0.0, 0.0, 0.0, 0.0, 0.0, None, [])

  function UnpricedRows(b: SavedBucket): nat { if b.unpricedCostRows.Some? then b.unpricedCostRows.value else 0 }

  function View(b: SavedBucket): Bucket {
    Bucket(b.completedRuns, b.tokensTotal, b.cacheRead, b.inputTokens, b.cacheCreation, b.costUsd, UnpricedRows(b),
           b.durationsMs)
  }

  function Views(days: map<int, SavedBucket>): (views: map<int, Bucket>)
    ensures views.Keys == days.Keys && forall d :: d in days ==> views[d] == View(days[d])
  {
    map d | d in days :: View(days[d])
  }

  class CheckpointHistory {
    var days: map<int, SavedBucket>
    var starts: map<string, int>

    constructor (days: map<int, SavedBucket>, starts: map<string, int>)
      ensures this.days == days && this.starts == starts
    {
      this.days, this.starts := days, starts;
    }

    function BucketAt(day: int): SavedBucket
      reads this
    {
      if day in days then days[day] else FRESH
    }

    /** Each part of the line finds its day's bucket again, or makes it. */
    method Capture(line: Line, ghost before: seq<Line>)
      requires Reflects(Views(days), starts, before)
      modifies this
      ensures Reflects(Views(days), starts, before + [line])
    {
      hide *;
      ghost var days0, starts0 := days, starts;
      if line.ts.None? {
        Grows(Views(days), starts, Views(days), starts, before, line);
        return;
      }
      DurationIs(Views(days), starts, before, line);
      var day := DayAt(line.ts.value);
      days := days[day := if day in days then days[day] else FRESH];
      ghost var b0 := days[day];
      CaptureStart(line);
      CaptureVerdict(line, day);
      CaptureTokens(line, day);
      CaptureCost(line, day);
      Captured(days0, days, starts0, line, before, day, b0);
      Grows(Views(days0), starts0, Views(days), starts, before, line);
    }

    method CaptureStart(line: Line)
      requires line.ts.Some?
      modifies `starts
      ensures starts == NextStarts(old(starts), line)
    {
      if line.step == "run.start" && line.runId.Some? {
        if line.runId.value !in starts || line.ts.value < starts[line.runId.value] {
          starts := starts[line.runId.value := line.ts.value];
        }
      }
    }

    method CaptureVerdict(line: Line, day: int)
      requires line.ts.Some? && day in days
      modifies `days
      ensures days == old(days)[day := WithVerdict(old(days)[day], line, starts)]
    {
      if line.step == "verdict" && line.runId.Some? && line.runId.value in starts {
        var b := BucketAt(day);
        days := days[day := b.(completedRuns := b.completedRuns + 1,
                               durationsMs := b.durationsMs + [Max(0, line.ts.value - starts[line.runId.value])])];
      }
    }

    method CaptureTokens(line: Line, day: int)
      requires day in days
      modifies `days
      ensures days == old(days)[day := WithTokens(old(days)[day], line)]
    {
      if line.model.Some? {
        var b, tokens := BucketAt(day), TokenCounts(line);
        days := days[day := b.(tokensTotal := b.tokensTotal + tokens.total, inputTokens := b.inputTokens + tokens.input,
                               cacheRead := b.cacheRead + tokens.cacheRead,
                               cacheCreation := b.cacheCreation + tokens.cacheCreation)];
      }
    }

    method CaptureCost(line: Line, day: int)
      requires day in days
      modifies `days
      ensures days == old(days)[day := WithCost(old(days)[day], line)]
    {
      if line.produced {
        var b := BucketAt(day);
        if line.cost.None? || line.cost.value < 0.0 {
          days := days[day := b.(unpricedCostRows := Some(UnpricedRows(b) + 1))];
        } else {
          days := days[day := b.(costUsd := b.costUsd + line.cost.value)];
        }
      }
    }
  }

  ghost function WithVerdict(b: SavedBucket, line: Line, starts: map<string, int>): SavedBucket
    requires line.ts.Some?
  {
    if line.step == "verdict" && line.runId.Some? && line.runId.value in starts
    then b.(completedRuns := b.completedRuns + 1,
            durationsMs := b.durationsMs + [Max(0, line.ts.value - starts[line.runId.value])])
    else b
  }

  ghost function WithTokens(b: SavedBucket, line: Line): SavedBucket {
    if line.model.Some?
    then b.(tokensTotal := b.tokensTotal + AllTokens(line), inputTokens := b.inputTokens + InputTokens(line),
            cacheRead := b.cacheRead + ReadTokens(line), cacheCreation := b.cacheCreation + CreatedTokens(line))
    else b
  }

  ghost function WithCost(b: SavedBucket, line: Line): SavedBucket {
    if IsUnpriced(line) then b.(unpricedCostRows := Some(UnpricedRows(b) + 1))
    else if line.produced then b.(costUsd := b.costUsd + Spent(line))
    else b
  }

  /** Captured part by part, the bucket has all that the line adds. */
  lemma PartsAdd(b: SavedBucket, line: Line, starts: map<string, int>)
    requires line.ts.Some?
    ensures View(WithCost(WithTokens(WithVerdict(b, line, NextStarts(starts, line)), line), line)) ==
              Added(View(b), line,
                    if line.step == "verdict" && line.runId.Some? && line.runId.value in starts
                    then Some(Max(0, line.ts.value - starts[line.runId.value])) else None)
  {
    hide TokenCounts, Max;
  }

  lemma Captured(days: map<int, SavedBucket>, days': map<int, SavedBucket>, starts: map<string, int>, line: Line,
                 before: seq<Line>, day: int, b0: SavedBucket)
    requires line.ts.Some? && day == DayAt(line.ts.value) && Reflects(Views(days), starts, before)
    requires b0 == (if day in days then days[day] else FRESH)
    requires var b := WithCost(WithTokens(WithVerdict(b0, line, NextStarts(starts, line)), line), line);
             days' == days[day := b0][day := WithVerdict(b0, line, NextStarts(starts, line))]
                      [day := WithTokens(WithVerdict(b0, line, NextStarts(starts, line)), line)][day := b]
    ensures var was := if day in Views(days) then Views(days)[day] else EMPTY;
            Views(days') == Views(days)[day := Added(was, line, DurationOf(before, line))]
  {
    hide WithCost, WithTokens, WithVerdict, Added, Reflects, DurationOf;
    DurationIs(Views(days), starts, before, line);
    PartsAdd(b0, line, starts);
    assert days' == days[day := days'[day]];
    ViewsAfter(days, days', day);
  }

  lemma ViewsAfter(before: map<int, SavedBucket>, after: map<int, SavedBucket>, day: int)
    requires day in after && after == before[day := after[day]]
    ensures Views(after) == Views(before)[day := View(after[day])]
  {
  }

  // ---------- Building the series ----------

  datatype SeriesId = RunsCompleted | TokensTotal | CacheReuse | CostModeled | DurationP50

  datatype Point = Gap(day: int, note: string) | Value(day: int, value: real)
    | Cost(day: int, value: real, unpriced: nat)

  /** `window` is absent when the series is not measured at all. */
  datatype Series = Series(id: SeriesId, window: Option<(int, int)>, observed: bool, points: seq<Point>)

  function Place(x: int, sorted: seq<int>): (r: seq<int>)
    ensures |r| == |sorted| + 1
  {
    if sorted == [] || x <= sorted[0] then [x] + sorted else [sorted[0]] + Place(x, sorted[1..])
  }

  function SortInts(xs: seq<int>): (r: seq<int>)
    ensures |r| == |xs|
  {
    if xs == [] then [] else Place(xs[0], SortInts(xs[1..]))
  }

  /** The lower median. */
  function Median(xs: seq<int>): Option<int> {
    if xs == [] then None else Some(SortInts(xs)[(|xs| - 1) / 2])
  }

  function PointFor(days: map<int, Bucket>, day: int, id: SeriesId): Point {
    if day !in days then Gap(day, "missing")
    else
      var b := days[day];
      match id
      case RunsCompleted => Value(day, b.completedRuns as real)
      case TokensTotal => Value(day, b.tokensTotal)
      case CostModeled => Cost(day, b.costUsd, b.unpricedRows)
      case CacheReuse =>
        var denominator := b.cacheRead + b.inputTokens + b.cacheCreation;
        if denominator > 0.0 then Value(day, b.cacheRead / denominator) else Gap(day, "not-collected")
      case DurationP50 =>
        var duration := Median(b.durationsMs);
        if duration.None? then Gap(day, "not-collected") else Value(day, duration.value as real)
  }

  function SavedPointFor(days: map<int, SavedBucket>, day: int, id: SeriesId): Point {
    if day !in days then Gap(day, "missing")
    else
      var b := days[day];
      match id
      case RunsCompleted => Value(day, b.completedRuns as real)
      case TokensTotal => Value(day, b.tokensTotal)
      case CostModeled => Cost(day, b.costUsd, UnpricedRows(b))
      case CacheReuse =>
        var denominator := b.cacheRead + b.inputTokens + b.cacheCreation;
        if denominator > 0.0 then Value(day, b.cacheRead / denominator) else Gap(day, "not-collected")
      case DurationP50 =>
        var duration := Median(b.durationsMs);
        if duration.None? then Gap(day, "not-collected") else Value(day, duration.value as real)
  }

  function Over(last: int, point: int -> Point): seq<Point> {
    seq(HISTORICAL_BUCKETS, i => point(last - (HISTORICAL_BUCKETS - i - 1)))
  }

  predicate AnyValue(points: seq<Point>) { exists i :: 0 <= i < |points| && !points[i].Gap? }

  /** Thirty days up to now, or nothing when now is not a time. */
  function BuildSeries(days: map<int, Bucket>, now: Option<int>, id: SeriesId): Series {
    if now.None? then Series(id, None, false, [])
    else
      var last := DayAt(now.value);
      var points := Over(last, day => PointFor(days, day, id));
      Series(id, Some((last - HISTORICAL_BUCKETS + 1, last)), AnyValue(points), points)
  }

  /** Thirty days up to now, or up to the first of January 1970 when now is not a time. */
  function BuildSavedSeries(days: map<int, SavedBucket>, now: Option<int>, id: SeriesId): Series {
    var last := if now.Some? then DayAt(now.value) else 0;
    var points := Over(last, day => SavedPointFor(days, day, id));
    Series(id, Some((last - HISTORICAL_BUCKETS + 1, last)), AnyValue(points), points)
  }

  /** The two builders agree exactly when now is a time. */
  lemma SeriesAgree(days: map<int, SavedBucket>, now: Option<int>, id: SeriesId)
    ensures BuildSavedSeries(days, now, id) == BuildSeries(Views(days), now, id) <==> now.Some?
  {
    hide Median, AnyValue;
    forall day ensures SavedPointFor(days, day, id) == PointFor(Views(days), day, id) {}
    if now.Some? {
      var last := DayAt(now.value);
      assert Over(last, day => SavedPointFor(days, day, id)) == Over(last, day => PointFor(Views(days), day, id));
    }
  }

  lemma ReflectsUnique(days: map<int, Bucket>, starts: map<string, int>, days': map<int, Bucket>,
                       starts': map<string, int>, lines: seq<Line>)
    requires Reflects(days, starts, lines) && Reflects(days', starts', lines)
    ensures days == days' && starts == starts'
  {
    hide BucketOf, StartOf, Observed;
    forall d ensures d in days <==> d in days' { assert d in days <==> Observed(lines, d); }
    forall d | d in days ensures days[d] == days'[d] {}
    assert days == days';
    forall r ensures r in starts <==> r in starts' { assert r in starts <==> StartOf(lines, r).Some?; }
    forall r | r in starts ensures starts[r] == starts'[r] {}
    assert starts == starts';
  }

  // ---------- Saving and loading ----------

  datatype Pair<K, V> = Pair(key: K, value: V)

  /** What a checkpoint holds: maps as lists of entries, sets as lists. */
  datatype Saved = Saved(days: seq<Pair<int, SavedBucket>>, starts: seq<Pair<string, int>>, runs: seq<string>,
                         terminals: seq<Pair<string, Terminal>>, startsWithoutRunId: nat, terminalsWithoutRunId: nat,
                         categories: seq<Pair<string, nat>>)

  /** The list gives every entry of the map, and later entries do not contradict earlier ones. */
  ghost predicate ListsMap<K, V>(list: seq<Pair<K, V>>, m: map<K, V>) {
    && (forall p :: p in list ==> p.key in m && m[p.key] == p.value)
    && (forall k :: k in m ==> Pair(k, m[k]) in list)
  }

  method ListMap<K(==), V(==)>(m: map<K, V>) returns (list: seq<Pair<K, V>>)
    ensures ListsMap(list, m)
  {
    list := [];
    var todo := m.Keys;
    while todo != {}
      invariant todo <= m.Keys
      invariant forall p :: p in list ==> p.key in m && m[p.key] == p.value
      invariant forall k :: k in m && k !in todo ==> Pair(k, m[k]) in list
      decreases |todo|
    {
      var k :| k in todo;
      todo := todo - {k};
      list := list + [Pair(k, m[k])];
    }
  }

  method MapOf<K(==), V>(list: seq<Pair<K, V>>, ghost m: map<K, V>) returns (built: map<K, V>)
    requires ListsMap(list, m)
    ensures built == m
  {
    built := map[];
    for i := 0 to |list|
      invariant forall k :: k in built ==> k in m && built[k] == m[k]
      invariant forall j :: 0 <= j < i ==> list[j].key in built
    {
      assert list[i] in list;
      built := built[list[i].key := list[i].value];
    }
    forall k | k in m ensures k in built {
      var j :| 0 <= j < |list| && list[j] == Pair(k, m[k]);
    }
    assert built == m;
  }

  method ListSet(s: set<string>) returns (list: seq<string>)
    ensures forall x :: x in list <==> x in s
  {
    list := [];
    var todo := s;
    while todo != {}
      invariant todo <= s && forall x :: x in list <==> x in s && x !in todo
      decreases |todo|
    {
      var x :| x in todo;
      todo := todo - {x};
      list := list + [x];
    }
  }

  /** A saved state stands for the ledger it was folded from. */
  ghost predicate Holds(saved: Saved, lines: seq<Line>) {
    exists days: map<int, SavedBucket>, starts: map<string, int>, tally: Tally ::
      && Reflects(Views(days), starts, lines) && Tallies(tally, lines)
      && ListsState(saved, days, starts, tally)
  }

  ghost predicate ListsState(saved: Saved, days: map<int, SavedBucket>, starts: map<string, int>, tally: Tally) {
    && ListsMap(saved.days, days) && ListsMap(saved.starts, starts)
    && (forall r :: r in saved.runs <==> r in tally.starts) && ListsMap(saved.terminals, tally.terminals)
    && saved.startsWithoutRunId == tally.startsWithoutRunId
    && saved.terminalsWithoutRunId == tally.terminalsWithoutRunId
    && ListsMap(saved.categories, tally.categories)
  }

  // ---------- The scan ----------

  class Analytics {
    const historical: HistoricalSeries
    const breakdowns: Breakdowns
    const history: CheckpointHistory
    const captured: CheckpointBreakdowns
    const hydrated: bool

    /** The saved accumulators stand for all `lines`; the others only for those scanned since `hydrated`. */
    ghost predicate Valid(lines: seq<Line>, scanned: seq<Line>)
      reads historical, breakdowns, history, captured
    {
      && Reflects(Views(history.days), history.starts, lines) && Tallies(captured.tally, lines)
      && Reflects(historical.days, historical.starts, scanned) && Tallies(breakdowns.tally, scanned)
      && (!hydrated ==> scanned == lines)
    }

    constructor ()
      ensures Valid([], []) && !hydrated
      ensures fresh(historical) && fresh(breakdowns) && fresh(history) && fresh(captured)
    {
      historical := new HistoricalSeries();
      breakdowns := new Breakdowns();
      history := new CheckpointHistory(map[], map[]);
      captured := new CheckpointBreakdowns(Tally({}, map[], 0, 0, map[]));
      hydrated := false;
    }

    constructor Hydrate(saved: Saved, ghost lines: seq<Line>)
      requires Holds(saved, lines)
      ensures Valid(lines, []) && hydrated
      ensures fresh(historical) && fresh(breakdowns) && fresh(history) && fresh(captured)
    {
      hide Reflects, Tallies, ListsMap;
      ghost var d: map<int, SavedBucket>, s: map<string, int>, t: Tally :|
        Reflects(Views(d), s, lines) && Tallies(t, lines) && ListsState(saved, d, s, t);
      historical := new HistoricalSeries();
      breakdowns := new Breakdowns();
      var days := MapOf(saved.days, d);
      var starts := MapOf(saved.starts, s);
      history := new CheckpointHistory(days, starts);
      var terminals := MapOf(saved.terminals, t.terminals);
      var categories := MapOf(saved.categories, t.categories);
      var runs := set r | r in saved.runs;
      assert runs == t.starts;
      captured := new CheckpointBreakdowns(Tally(runs, terminals, saved.startsWithoutRunId, saved.terminalsWithoutRunId,
                                                 categories));
      hydrated := true;
    }

    method Serialize(ghost lines: seq<Line>, ghost scanned: seq<Line>) returns (saved: Saved)
      requires Valid(lines, scanned)
      ensures Holds(saved, lines)
    {
      hide Reflects, Tallies, ListsMap;
      var t := captured.tally;
      var days := ListMap(history.days);
      var starts := ListMap(history.starts);
      var runs := ListSet(t.starts);
      var terminals := ListMap(t.terminals);
      var categories := ListMap(t.categories);
      saved := Saved(days, starts, runs, terminals, t.startsWithoutRunId, t.terminalsWithoutRunId, categories);
      assert ListsState(saved, history.days, history.starts, t);
    }

    method Accumulate(line: Line, ghost lines: seq<Line>, ghost scanned: seq<Line>)
      requires Valid(lines, scanned)
      modifies historical, breakdowns, history, captured
      ensures Valid(lines + [line], scanned + [line])
    {
      hide Reflects, Tallies;
      history.Capture(line, lines);
      captured.Capture(line, lines);
      historical.Add(line, scanned);
      breakdowns.Add(line, scanned);
    }

    method AccumulateAll(ledger: seq<Line>, ghost lines: seq<Line>, ghost scanned: seq<Line>)
      requires Valid(lines, scanned)
      modifies historical, breakdowns, history, captured
      ensures Valid(lines + ledger, scanned + ledger)
    {
      hide Valid;
      assert lines + ledger[..0] == lines && scanned + ledger[..0] == scanned;
      for i := 0 to |ledger|
        invariant Valid(lines + ledger[..i], scanned + ledger[..i])
      {
        Accumulate(ledger[i], lines + ledger[..i], scanned + ledger[..i]);
        assert lines + ledger[..i + 1] == (lines + ledger[..i]) + [ledger[i]];
        assert scanned + ledger[..i + 1] == (scanned + ledger[..i]) + [ledger[i]];
      }
      assert ledger[..|ledger|] == ledger;
    }
 
    /** What is shown: from the saved accumulators after a resume, from the others before any. */
    method Snapshot(now: Option<int>, le: B.Collation, attribution: Option<B.Attribution>)
      returns (series: seq<Series>, shown: B.Shown)
      requires B.TotalOrder(le)
      ensures series == if hydrated then AllSaved(history.days, now) else AllSeries(historical.days, now)
      ensures hydrated ==> B.Shows(shown, captured.tally, le, attribution, B.CheckpointRows)
      ensures !hydrated ==> B.Shows(shown, breakdowns.tally, le, attribution, B.PrimaryRows)
    {
      hide *;
      series := if hydrated then AllSaved(history.days, now) else AllSeries(historical.days, now);
      shown := B.BuildBreakdowns(if hydrated then captured.tally else breakdowns.tally, le, attribution, hydrated);
    }
  }

  const IDS: seq<SeriesId> := [RunsCompleted, TokensTotal, CacheReuse, CostModeled, DurationP50]

  function AllSeries(days: map<int, Bucket>, now: Option<int>): (all: seq<Series>)
    ensures |all| == |IDS| && forall i :: 0 <= i < |IDS| ==> all[i] == BuildSeries(days, now, IDS[i])
  {
    seq(|IDS|, i requires 0 <= i < |IDS| => BuildSeries(days, now, IDS[i]))
  }

  function AllSaved(days: map<int, SavedBucket>, now: Option<int>): (all: seq<Series>)
    ensures |all| == |IDS| && forall i :: 0 <= i < |IDS| ==> all[i] == BuildSavedSeries(days, now, IDS[i])
  {
    seq(|IDS|, i requires 0 <= i < |IDS| => BuildSavedSeries(days, now, IDS[i]))
  }

  lemma AllSeriesAgree(days: map<int, SavedBucket>, now: Option<int>)
    ensures AllSaved(days, now) == AllSeries(Views(days), now) <==> now.Some?
  {
    hide BuildSeries, BuildSavedSeries;
    forall id ensures BuildSavedSeries(days, now, id) == BuildSeries(Views(days), now, id) <==> now.Some? {
      SeriesAgree(days, now, id);
    }
    var a, b := AllSaved(days, now), AllSeries(Views(days), now);
    if now.Some? {
      assert a == b;
    } else {
      assert a[0] != b[0];
    }
  }

  // ---------- Resuming ----------

  function Concat(chunks: seq<seq<Line>>): seq<Line> {
    if chunks == [] then [] else Concat(chunks[..|chunks| - 1]) + chunks[|chunks| - 1]
  }

  method Scan(ledger: seq<Line>) returns (a: Analytics)
    ensures a.Valid(ledger, ledger) && !a.hydrated
  {
    a := new Analytics();
    a.AccumulateAll(ledger, [], []);
    assert [] + ledger == ledger;
  }

  /** Scans the ledger in parts; each part starts from the checkpoint the one before it saved. */
  method ScanInParts(first: seq<Line>, parts: seq<seq<Line>>) returns (a: Analytics, ghost scanned: seq<Line>)
    ensures a.Valid(first + Concat(parts), scanned)
    ensures a.hydrated <==> parts != []
  {
    hide *;
    a := Scan(first);
    scanned := first;
    ConcatNothing(first, parts);
    for i := 0 to |parts|
      invariant a.Valid(first + Concat(parts[..i]), scanned)
      invariant a.hydrated <==> i > 0
    {
      ConcatNext(first, parts, i);
      a := ResumeWith(a, parts[i], first + Concat(parts[..i]), scanned);
      scanned := parts[i];
    }
    assert parts[..|parts|] == parts;
  }

  method ResumeWith(a: Analytics, part: seq<Line>, ghost lines: seq<Line>, ghost scanned: seq<Line>)
    returns (b: Analytics)
    requires a.Valid(lines, scanned)
    ensures b.Valid(lines + part, part) && b.hydrated
  {
    hide *;
    var saved := a.Serialize(lines, scanned);
    b := new Analytics.Hydrate(saved, lines);
    b.AccumulateAll(part, lines, []);
    assert [] + part == part;
  }

  lemma ConcatNothing(first: seq<Line>, parts: seq<seq<Line>>)
    ensures first + Concat(parts[..0]) == first
  {
  }

  lemma ConcatNext(first: seq<Line>, parts: seq<seq<Line>>, i: nat)
    requires i < |parts|
    ensures first + Concat(parts[..i + 1]) == (first + Concat(parts[..i])) + parts[i]
  {
    assert parts[..i + 1][..i] == parts[..i];
  }

  /** A resumed scan against an uninterrupted one over the same ledger: the series are the same exactly when now is a
      time, and the breakdowns exactly when the literal category `other` does not collide with the overflow. */
  method CompareScans(first: seq<Line>, parts: seq<seq<Line>>, now: Option<int>, le: B.Collation,
                      attribution: Option<B.Attribution>)
    returns (whole: seq<Series>, wholeShown: B.Shown, resumed: seq<Series>, resumedShown: B.Shown, ghost tally: Tally,
             ghost ranked: seq<B.Entry>)
    requires parts != [] && B.TotalOrder(le)
    ensures resumed == whole <==> now.Some?
    ensures Tallies(tally, first + Concat(parts)) && B.Ranks(le, ranked, tally.categories)
    ensures resumedShown == wholeShown <==> !B.OtherCollides(ranked)
  {
    hide *;
    var lines := first + Concat(parts);
    var a := Scan(lines);
    whole, wholeShown := a.Snapshot(now, le, attribution);
    var b, scanned := ScanInParts(first, parts);
    resumed, resumedShown := b.Snapshot(now, le, attribution);
    tally := a.breakdowns.tally;
    ranked := ShownRanks(wholeShown, tally, le, attribution);
    ScansAgree(a, b, lines, scanned, now);
    CountsPositive(tally, lines);
    B.ShownAgree(wholeShown, resumedShown, tally, le, attribution, ranked);
  }

  lemma ShownRanks(shown: B.Shown, tally: Tally, le: B.Collation, attribution: Option<B.Attribution>)
    returns (ranked: seq<B.Entry>)
    requires B.Shows(shown, tally, le, attribution, B.PrimaryRows)
    ensures B.Ranks(le, ranked, tally.categories)
  {
    hide B.Ranks, B.OutcomeCount;
    var counts: map<string, nat>, r: seq<B.Entry> :|
      (forall key :: B.Get(counts, key) == B.OutcomeCount(tally, key)) && B.Ranks(le, r, tally.categories)
      && shown == B.Show(counts, attribution, B.PrimaryRows(r));
    ranked := r;
  }

  lemma CountsPositive(tally: Tally, lines: seq<Line>)
    requires Tallies(tally, lines)
    ensures forall k :: k in tally.categories ==> tally.categories[k] > 0
  {
  }

  lemma ScansAgree(a: Analytics, b: Analytics, lines: seq<Line>, scanned: seq<Line>, now: Option<int>)
    requires a.Valid(lines, lines) && b.Valid(lines, scanned)
    ensures AllSaved(b.history.days, now) == AllSeries(a.historical.days, now) <==> now.Some?
    ensures b.captured.tally == a.breakdowns.tally && Tallies(a.breakdowns.tally, lines)
  {
    hide Reflects, Tallies, Views, AllSaved, AllSeries;
    ReflectsUnique(Views(b.history.days), b.history.starts, a.historical.days, a.historical.starts, lines);
    TallyUnique(b.captured.tally, a.breakdowns.tally, lines);
    AllSeriesAgree(b.history.days, now);
  }
}
