/** The daily series of a ledger: what each day's bucket means, and the two accumulators that must agree on it. */
module LedgerSeries {
  import opened Wrappers

  datatype Tokens = Tokens(input: Option<real>, output: Option<real>, cacheRead: Option<real>,
                           cacheCreation: Option<real>)

  /** One ledger line as the folds read it; `ts` is the parsed timestamp in milliseconds, and `produced` marks the one
      row that carries a cost. */
  datatype Line = Line(ts: Option<int>, step: string, runId: Option<string>, model: Option<string>,
                       tokens: Option<Tokens>, produced: bool, cost: Option<real>, category: Option<string>,
                       verdict: Option<string>, success: Option<bool>)

  const DAY_MS := 24 * 60 * 60 * 1000
  const HISTORICAL_BUCKETS := 30

  function DayAt(ts: int): int { ts / DAY_MS }

  function OrZero(x: Option<real>): real { if x.Some? then x.value else 0.0 }

  datatype Counts = Counts(total: real, input: real, cacheRead: real, cacheCreation: real)

  function TokenCounts(line: Line): Counts {
    if line.tokens.None? then Counts(0.0, 0.0, 0.0, 0.0)
    else
      var t := line.tokens.value;
      var input, output, read, creation := OrZero(t.input), OrZero(t.output), OrZero(t.cacheRead),
        OrZero(t.cacheCreation);
      Counts(input + output + read + creation, input, read, creation)
  }

  function Max(a: int, b: int): int { if a < b then b else a }

  // ---------- What a day's bucket means ----------

  predicate OnDay(line: Line, day: int) { line.ts.Some? && DayAt(line.ts.value) == day }

  predicate StartsRun(line: Line, run: string) { line.step == "run.start" && line.runId == Some(run) && line.ts.Some? }

  /** The earliest start of a run. */
  ghost function StartOf(lines: seq<Line>, run: string): (start: Option<int>)
    ensures start.Some? ==> (forall l :: l in lines && StartsRun(l, run) ==> start.value <= l.ts.value)
                            && exists l :: l in lines && StartsRun(l, run) && l.ts.value == start.value
    ensures start.None? ==> forall l :: l in lines ==> !StartsRun(l, run)
  {
    if lines == [] then None
    else
      var last, before := lines[|lines| - 1], StartOf(lines[..|lines| - 1], run);
      assert forall l :: l in lines ==> l in lines[..|lines| - 1] || l == last;
      assert last in lines;
      if !StartsRun(last, run) then before
      else if before.None? || last.ts.value < before.value then last.ts else before
  }

  /** The line completes a run whose start came before it in the ledger. */
  ghost predicate Completes(before: seq<Line>, line: Line) {
    line.ts.Some? && line.step == "verdict" && line.runId.Some? && StartOf(before, line.runId.value).Some?
  }

  /** Durations of the runs completed on a day, in ledger order. */
  ghost function Durations(lines: seq<Line>, day: int): seq<int> {
    if lines == [] then []
    else
      var last, before := lines[|lines| - 1], lines[..|lines| - 1];
      if OnDay(last, day) && Completes(before, last) then
        Durations(before, day) + [Max(0, last.ts.value - StartOf(before, last.runId.value).value)]
      else Durations(before, day)
  }

  /** One quantity summed over the lines of a day. */
  ghost function Total(lines: seq<Line>, day: int, amount: Line -> real): real {
    if lines == [] then 0.0
    else
      var last := lines[|lines| - 1];
      Total(lines[..|lines| - 1], day, amount) + if OnDay(last, day) then amount(last) else 0.0
  }

  ghost function Unpriced(lines: seq<Line>, day: int): nat {
    if lines == [] then 0
    else
      var last := lines[|lines| - 1];
      Unpriced(lines[..|lines| - 1], day) + if OnDay(last, day) && IsUnpriced(last) then 1 else 0
  }

  predicate IsUnpriced(line: Line) { line.produced && (line.cost.None? || line.cost.value < 0.0) }

  function Spent(line: Line): real { if line.produced && !IsUnpriced(line) then line.cost.value else 0.0 }
  function AllTokens(line: Line): real { if line.model.Some? then TokenCounts(line).total else 0.0 }
  function InputTokens(line: Line): real { if line.model.Some? then TokenCounts(line).input else 0.0 }
  function ReadTokens(line: Line): real { if line.model.Some? then TokenCounts(line).cacheRead else 0.0 }
  function CreatedTokens(line: Line): real { if line.model.Some? then TokenCounts(line).cacheCreation else 0.0 }

  datatype Bucket = Bucket(completedRuns: nat, tokensTotal: real, cacheRead: real, inputTokens: real,
                           cacheCreation: real, costUsd: real, unpricedRows: nat, durationsMs: seq<int>)

  /** The bucket of a day, by definition. */
  ghost function BucketOf(lines: seq<Line>, day: int): Bucket {
    var durations := Durations(lines, day);
    Bucket(|durations|, Total(lines, day, AllTokens), Total(lines, day, ReadTokens), Total(lines, day, InputTokens),
           Total(lines, day, CreatedTokens), Total(lines, day, Spent), Unpriced(lines, day), durations)
  }

  ghost predicate Observed(lines: seq<Line>, day: int) { exists l :: l in lines && OnDay(l, day) }

  /** The state of an accumulator is that of the lines it was given. */
  ghost predicate Reflects(days: map<int, Bucket>, starts: map<string, int>, lines: seq<Line>) {
    && (forall d :: d in days <==> Observed(lines, d))
    && (forall d :: d in days ==> days[d] == BucketOf(lines, d))
    && (forall r :: r in starts <==> StartOf(lines, r).Some?)
    && (forall r :: r in starts ==> Some(starts[r]) == StartOf(lines, r))
  }

  // ---------- Adding one line ----------

  const EMPTY: Bucket := Bucket(0, 0.0, 0.0, 0.0, 0.0, 0.0, 0, [])

  lemma {:induction false} UnobservedIsEmpty(lines: seq<Line>, day: int)
    requires !Observed(lines, day)
    ensures BucketOf(lines, day) == EMPTY
  {
    if lines != [] {
      var last, before := lines[|lines| - 1], lines[..|lines| - 1];
      assert last in lines;
      forall l | l in before ensures l in lines {}
      UnobservedIsEmpty(before, day);
    }
  }

  /** What a line adds to the bucket of its day. */
  ghost function Added(b: Bucket, line: Line, duration: Option<int>): Bucket {
    Bucket(b.completedRuns + (if duration.Some? then 1 else 0), b.tokensTotal + AllTokens(line),
           b.cacheRead + ReadTokens(line), b.inputTokens + InputTokens(line), b.cacheCreation + CreatedTokens(line),
           b.costUsd + Spent(line), b.unpricedRows + (if IsUnpriced(line) then 1 else 0),
           if duration.Some? then b.durationsMs + [duration.value] else b.durationsMs)
  }

  ghost function DurationOf(before: seq<Line>, line: Line): Option<int> {
    if Completes(before, line) then Some(Max(0, line.ts.value - StartOf(before, line.runId.value).value)) else None
  }

  lemma BucketGrows(before: seq<Line>, line: Line, day: int)
    ensures BucketOf(before + [line], day) ==
              if OnDay(line, day) then Added(BucketOf(before, day), line, DurationOf(before, line))
                else BucketOf(before, day)
  {
    var lines := before + [line];
    assert lines[..|lines| - 1] == before && lines[|lines| - 1] == line;
  }

  lemma StartGrows(before: seq<Line>, line: Line, run: string)
    ensures StartOf(before + [line], run) ==
              if !StartsRun(line, run) then StartOf(before, run)
              else if StartOf(before, run).None? || line.ts.value < StartOf(before, run).value then line.ts
              else StartOf(before, run)
  {
    var lines := before + [line];
    assert lines[..|lines| - 1] == before && lines[|lines| - 1] == line;
  }

  lemma ObservedGrows(before: seq<Line>, line: Line, day: int)
    ensures Observed(before + [line], day) <==> Observed(before, day) || OnDay(line, day)
  {
    if Observed(before, day) {
      var l :| l in before && OnDay(l, day);
      assert l in before + [line];
    }
    assert line in before + [line];
  }

  /** An accumulator that changes only the start of the line's run and the bucket of its day, and these as defined,
      reflects the longer ledger. */
  lemma Grows(days: map<int, Bucket>, starts: map<string, int>, days': map<int, Bucket>, starts': map<string, int>,
              before: seq<Line>, line: Line)
    requires Reflects(days, starts, before)
    requires line.ts.None? ==> days' == days && starts' == starts
    requires line.ts.Some? ==>
               var day := DayAt(line.ts.value);
               var was := if day in days then days[day] else EMPTY;
               days' == days[day := Added(was, line, DurationOf(before, line))]
    requires line.ts.Some? ==> starts' == NextStarts(starts, line)
    ensures Reflects(days', starts', before + [line])
  {
    hide BucketOf, StartOf, Observed, Added, DurationOf;
    forall d
      ensures (d in days' <==> Observed(before + [line], d))
              && (d in days' ==> days'[d] == BucketOf(before + [line], d))
    {
      ObservedGrows(before, line, d);
      BucketGrows(before, line, d);
      if d !in days { UnobservedIsEmpty(before, d); }
    }
    forall r ensures (r in starts' <==> StartOf(before + [line], r).Some?)
      && (r in starts' ==> Some(starts'[r]) == StartOf(before + [line], r))
    {
      StartGrows(before, line, r);
    }
  }

  function NextStarts(starts: map<string, int>, line: Line): map<string, int>
    requires line.ts.Some?
  {
    if line.step == "run.start" && line.runId.Some?
       && (line.runId.value !in starts || line.ts.value < starts[line.runId.value])
    then starts[line.runId.value := line.ts.value] else starts
  }

  lemma DurationIs(days: map<int, Bucket>, starts: map<string, int>, before: seq<Line>, line: Line)
    requires Reflects(days, starts, before) && line.ts.Some?
    ensures DurationOf(before, line) ==
              if line.step == "verdict" && line.runId.Some? && line.runId.value in starts
              then Some(Max(0, line.ts.value - starts[line.runId.value])) else None
  {
    hide BucketOf, StartOf, Observed;
  }

  // ---------- The accumulator of an uninterrupted scan ----------

  class HistoricalSeries {
    var days: map<int, Bucket>
    var starts: map<string, int>

    constructor ()
      ensures Reflects(days, starts, [])
    {
      days, starts := map[], map[];
    }

    method Add(line: Line, ghost before: seq<Line>)
      requires Reflects(days, starts, before)
      modifies this
      ensures Reflects(days, starts, before + [line])
    {
      hide Reflects, DurationOf, Max, TokenCounts;
      ghost var days0, starts0 := days, starts;
      if line.ts.None? {
        Grows(days, starts, days, starts, before, line);
        return;
      }
      DurationIs(days, starts, before, line);
      var day, timestamp := DayAt(line.ts.value), line.ts.value;
      var bucket := if day in days then days[day] else EMPTY;
      if line.step == "run.start" && line.runId.Some? {
        if line.runId.value !in starts || timestamp < starts[line.runId.value] {
          starts := starts[line.runId.value := timestamp];
        }
      }
      if line.step == "verdict" && line.runId.Some? && line.runId.value in starts {
        bucket := bucket.(completedRuns := bucket.completedRuns + 1,
                          durationsMs := bucket.durationsMs + [Max(0, timestamp - starts[line.runId.value])]);
      }
      if line.model.Some? {
        var tokens := TokenCounts(line);
        bucket := bucket.(tokensTotal := bucket.tokensTotal + tokens.total,
                          inputTokens := bucket.inputTokens + tokens.input,
                          cacheRead := bucket.cacheRead + tokens.cacheRead,
                          cacheCreation := bucket.cacheCreation + tokens.cacheCreation);
      }
      if line.produced {
        if line.cost.None? || line.cost.value < 0.0 {
          bucket := bucket.(unpricedRows := bucket.unpricedRows + 1);
        } else {
          bucket := bucket.(costUsd := bucket.costUsd + line.cost.value);
        }
      }
      days := days[day := bucket];
      Grows(days0, starts0, days, starts, before, line);
    }
  }
}
