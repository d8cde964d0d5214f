/** From tallies to the rows that are shown: outcomes, ranked work categories and drilldowns. */
module BreakdownRows {
  import opened Wrappers
  import opened LedgerSeries
  import opened LedgerBreakdowns

  // ---------- Outcomes ----------

  function Outcome(t: Tally, run: string): string {
    if run !in t.terminals then "missing-terminal-receipt"
    else
      var terminal := t.terminals[run];
      if terminal.verdict.Some? && terminal.verdict.value in SUCCESS_VERDICTS && terminal.success != Some(false)
        then "success"
      else if terminal.verdict.None? then "unknown"
      else "failure"
  }

  ghost function Runs(t: Tally): set<string> { t.starts + t.terminals.Keys }

  ghost function WithOutcome(t: Tally, runs: set<string>, key: string): set<string> {
    set r | r in runs && Outcome(t, r) == key
  }

  /** How many runs and unidentified lines have an outcome. */
  ghost function OutcomeCount(t: Tally, key: string): nat {
    |WithOutcome(t, Runs(t), key)| + (if key == "missing-terminal-receipt" then t.startsWithoutRunId else 0)
    + (if key == "unknown" then t.terminalsWithoutRunId else 0)
  }

  function Get(counts: map<string, nat>, key: string): nat { if key in counts then counts[key] else 0 }

  ghost predicate CountsRuns(counts: map<string, nat>, t: Tally, runs: set<string>, missing: nat, unknown: nat) {
    forall key :: Get(counts, key) ==
      |WithOutcome(t, runs, key)| + (if key == "missing-terminal-receipt" then missing else 0)
                                      + (if key == "unknown" then unknown else 0)
  }

  lemma OneMoreRun(t: Tally, runs: set<string>, run: string, key: string)
    requires run !in runs
    ensures |WithOutcome(t, runs + {run}, key)| == |WithOutcome(t, runs, key)| + if Outcome(t, run) == key then 1 else 0
  {
    hide Outcome;
    if Outcome(t, run) == key {
      assert WithOutcome(t, runs + {run}, key) == WithOutcome(t, runs, key) + {run};
    } else {
      assert WithOutcome(t, runs + {run}, key) == WithOutcome(t, runs, key);
    }
  }

  lemma CountsOneMore(counts: map<string, nat>, t: Tally, runs: set<string>, run: string, missing: nat, unknown: nat)
    requires run !in runs && CountsRuns(counts, t, runs, missing, unknown)
    ensures CountsRuns(AddCount(counts, Outcome(t, run)), t, runs + {run}, missing, unknown)
  {
    hide Outcome, WithOutcome;
    var more := AddCount(counts, Outcome(t, run));
    forall key
      ensures Get(more, key) == |WithOutcome(t, runs + {run}, key)|
        + (if key == "missing-terminal-receipt" then missing else 0) + (if key == "unknown" then unknown else 0)
    {
      OneMoreRun(t, runs, run, key);
    }
  }

  lemma CountsUnidentified(counts: map<string, nat>, t: Tally, runs: set<string>, missing: nat, unknown: nat)
    requires CountsRuns(counts, t, runs, missing, unknown)
    ensures CountsRuns(AddCount(counts, "missing-terminal-receipt"), t, runs, missing + 1, unknown)
    ensures CountsRuns(AddCount(counts, "unknown"), t, runs, missing, unknown + 1)
  {
    hide WithOutcome;
  }

  lemma CountsNothing(t: Tally)
    ensures CountsRuns(map[], t, {}, 0, 0)
  {
    hide Outcome;
    forall key ensures WithOutcome(t, {}, key) == {} {}
  }

  lemma CountsAll(counts: map<string, nat>, t: Tally, runs: set<string>)
    requires CountsRuns(counts, t, runs, t.startsWithoutRunId, t.terminalsWithoutRunId)
             && runs == t.starts + t.terminals.Keys
    ensures forall key :: Get(counts, key) == OutcomeCount(t, key)
  {
    hide WithOutcome;
  }

  method CountOutcomes(t: Tally) returns (counts: map<string, nat>)
    ensures forall key :: Get(counts, key) == OutcomeCount(t, key)
  {
    hide *;
    counts := CountStarted(t);
    for i := 0 to t.startsWithoutRunId
      invariant CountsRuns(counts, t, t.starts, i, 0)
    {
      CountsUnidentified(counts, t, t.starts, i, 0);
      counts := AddCount(counts, "missing-terminal-receipt");
    }
    for i := 0 to t.terminalsWithoutRunId
      invariant CountsRuns(counts, t, t.starts, t.startsWithoutRunId, i)
    {
      CountsUnidentified(counts, t, t.starts, t.startsWithoutRunId, i);
      counts := AddCount(counts, "unknown");
    }
    counts := CountOrphans(t, counts);
    CountsAll(counts, t, t.starts + t.terminals.Keys);
  }

  method CountStarted(t: Tally) returns (counts: map<string, nat>)
    ensures CountsRuns(counts, t, t.starts, 0, 0)
  {
    hide *;
    counts := map[];
    CountsNothing(t);
    var todo := t.starts;
    assert t.starts - todo == {};
    while todo != {}
      invariant todo <= t.starts && CountsRuns(counts, t, t.starts - todo, 0, 0)
      decreases |todo|
    {
      var run :| run in todo;
      CountsOneMore(counts, t, t.starts - todo, run, 0, 0);
      counts := AddCount(counts, Outcome(t, run));
      assert t.starts - (todo - {run}) == (t.starts - todo) + {run};
      todo := todo - {run};
    }
    assert t.starts - todo == t.starts;
  }

  /** Verdicts of runs whose start is not in the ledger. */
  method CountOrphans(t: Tally, before: map<string, nat>) returns (counts: map<string, nat>)
    requires CountsRuns(before, t, t.starts, t.startsWithoutRunId, t.terminalsWithoutRunId)
    ensures CountsRuns(counts, t, t.starts + t.terminals.Keys, t.startsWithoutRunId, t.terminalsWithoutRunId)
  {
    hide *;
    counts := before;
    ghost var seen := t.starts;
    var todo := t.terminals.Keys;
    while todo != {}
      invariant todo <= t.terminals.Keys && seen == t.starts + (t.terminals.Keys - todo)
      invariant CountsRuns(counts, t, seen, t.startsWithoutRunId, t.terminalsWithoutRunId)
      decreases |todo|
    {
      var run :| run in todo;
      if run !in t.starts {
        CountsOneMore(counts, t, seen, run, t.startsWithoutRunId, t.terminalsWithoutRunId);
        counts := AddCount(counts, Outcome(t, run));
      }
      seen := seen + {run};
      assert run in t.starts ==> seen == t.starts + (t.terminals.Keys - todo);
      todo := todo - {run};
    }
    assert seen == t.starts + t.terminals.Keys;
  }

  /** Every run has exactly one of the four outcomes. */
  lemma OutcomesPartition(t: Tally)
    ensures OutcomeCount(t, "success") + OutcomeCount(t, "failure") + OutcomeCount(t, "missing-terminal-receipt")
            + OutcomeCount(t, "unknown") == |Runs(t)| + t.startsWithoutRunId + t.terminalsWithoutRunId
  {
    hide Outcome;
    var runs := Runs(t);
    var a, b := WithOutcome(t, runs, "success"), WithOutcome(t, runs, "failure");
    var c, d := WithOutcome(t, runs, "missing-terminal-receipt"), WithOutcome(t, runs, "unknown");
    forall r | r in runs ensures r in a + b + c + d { FourOutcomes(t, r); }
    assert runs == a + b + c + d;
    assert |a + b + c + d| == |a| + |b| + |c| + |d|;
  }

  lemma FourOutcomes(t: Tally, run: string)
    ensures Outcome(t, run) in {"success", "failure", "missing-terminal-receipt", "unknown"}
  {
  }

  // ---------- Ranked categories ----------

  datatype Entry = Entry(key: string, count: nat)

  /** A collation of keys. */
  type Collation = (string, string) -> bool

  ghost predicate TotalOrder(le: Collation) {
    && (forall a, b :: le(a, b) || le(b, a))
    && (forall a, b :: le(a, b) && le(b, a) ==> a == b)
    && (forall a, b, c :: le(a, b) && le(b, c) ==> le(a, c))
  }

  /** Larger counts first, then by key. */
  predicate NotAfter(le: Collation, a: Entry, b: Entry) {
    a.count > b.count || (a.count == b.count && le(a.key, b.key))
  }

  ghost predicate Lists(entries: seq<Entry>, m: map<string, nat>) {
    && (forall e :: e in entries <==> e.key in m && m[e.key] == e.count)
    && DistinctKeys(entries)
  }

  ghost predicate DistinctKeys(entries: seq<Entry>) {
    entries == [] || ((forall e :: e in entries[1..] ==> e.key != entries[0].key) && DistinctKeys(entries[1..]))
  }

  ghost predicate Ordered(le: Collation, entries: seq<Entry>) {
    entries == []
    || ((forall e :: e in entries[1..] ==> NotAfter(le, entries[0], e)) && Ordered(le, entries[1..]))
  }

  /** The categories in the order they are shown. */
  ghost predicate Ranks(le: Collation, entries: seq<Entry>, m: map<string, nat>) {
    Lists(entries, m) && Ordered(le, entries)
  }

  lemma {:induction false} RankUnique(le: Collation, a: seq<Entry>, b: seq<Entry>)
    requires TotalOrder(le) && Ordered(le, a) && Ordered(le, b) && DistinctKeys(a) && DistinctKeys(b)
    requires forall e :: e in a <==> e in b
    ensures a == b
  {
    hide TotalOrder, NotAfter;
    assert a != [] ==> a[0] in a;
    assert b != [] ==> b[0] in b;
    if a != [] {
      HeadsEqual(le, a, b);
      forall e ensures e in a[1..] <==> e in b[1..] {
        if e in a[1..] { assert e in b && e.key != a[0].key; }
        if e in b[1..] { assert e in a && e.key != b[0].key; }
      }
      RankUnique(le, a[1..], b[1..]);
      assert a == [a[0]] + a[1..] && b == [b[0]] + b[1..];
    }
  }

  lemma HeadsEqual(le: Collation, a: seq<Entry>, b: seq<Entry>)
    requires TotalOrder(le) && Ordered(le, a) && Ordered(le, b) && a != [] && b != [] && a[0] in b && b[0] in a
    ensures a[0] == b[0]
  {
    assert a[0] != b[0] ==> a[0] in b[1..] && b[0] in a[1..];
  }

  function Insert(le: Collation, e: Entry, entries: seq<Entry>): seq<Entry> {
    if entries == [] || NotAfter(le, e, entries[0]) then [e] + entries else [entries[0]] + Insert(le, e, entries[1..])
  }

  function Rank(le: Collation, entries: seq<Entry>): seq<Entry> {
    if entries == [] then [] else Insert(le, entries[0], Rank(le, entries[1..]))
  }

  lemma {:induction false} InsertRanks(le: Collation, e: Entry, entries: seq<Entry>)
    requires TotalOrder(le) && Ordered(le, entries) && DistinctKeys(entries)
             && forall d :: d in entries ==> d.key != e.key
    ensures var r := Insert(le, e, entries);
            && Ordered(le, r) && DistinctKeys(r) && (forall d :: d in r <==> d == e || d in entries)
            && Sum(r) == Sum(entries) + e.count
  {
    hide NotAfter, TotalOrder;
    if entries == [] {
    } else if NotAfter(le, e, entries[0]) {
      assert ([e] + entries)[1..] == entries;
      forall d | d in entries ensures NotAfter(le, e, d) {
        if d != entries[0] { NotAfterTransitive(le, e, entries[0], d); }
      }
    } else {
      InsertRanks(le, e, entries[1..]);
      assert Insert(le, e, entries)[1..] == Insert(le, e, entries[1..]);
      NotAfterTotal(le, e, entries[0]);
    }
  }

  lemma NotAfterTransitive(le: Collation, a: Entry, b: Entry, c: Entry)
    requires TotalOrder(le) && NotAfter(le, a, b) && NotAfter(le, b, c)
    ensures NotAfter(le, a, c)
  {
  }

  lemma NotAfterTotal(le: Collation, a: Entry, b: Entry)
    requires TotalOrder(le)
    ensures NotAfter(le, a, b) || NotAfter(le, b, a)
  {
  }

  function Sum(entries: seq<Entry>): nat { if entries == [] then 0 else entries[0].count + Sum(entries[1..]) }

  lemma {:induction false} RankRanks(le: Collation, entries: seq<Entry>)
    requires TotalOrder(le) && DistinctKeys(entries)
    ensures var r := Rank(le, entries);
            Ordered(le, r) && DistinctKeys(r) && (forall d :: d in r <==> d in entries) && Sum(r) == Sum(entries)
  {
    if entries != [] {
      RankRanks(le, entries[1..]);
      InsertRanks(le, entries[0], Rank(le, entries[1..]));
    }
  }

  /** The entries of a map, in some order. */
  method Entries(m: map<string, nat>) returns (entries: seq<Entry>)
    ensures Lists(entries, m)
  {
    entries := [];
    var todo := m.Keys;
    while todo != {}
      invariant todo <= m.Keys && DistinctKeys(entries)
      invariant forall e :: e in entries <==> e.key in m && e.key !in todo && m[e.key] == e.count
      decreases |todo|
    {
      var key :| key in todo;
      todo := todo - {key};
      assert ([Entry(key, m[key])] + entries)[1..] == entries;
      entries := [Entry(key, m[key])] + entries;
    }
  }

  // ---------- The rows of the work categories ----------

  datatype Row = Row(key: string, count: nat, denominator: nat)

  /** The first twenty, and the rest together. */
  function Bounded(ranked: seq<Entry>): seq<Entry> {
    if |ranked| <= MAX_WORK_CATEGORY_BUCKETS then ranked
    else
      var overflow := Sum(ranked[MAX_WORK_CATEGORY_BUCKETS..]);
      ranked[..MAX_WORK_CATEGORY_BUCKETS] + if overflow > 0 then [Entry("other", overflow)] else []
  }

  /** An insertion-ordered map built from a list: a repeated key keeps its place and takes the last value. */
  function Put(entries: seq<Entry>, e: Entry): seq<Entry> {
    if entries == [] then [e]
    else if entries[0].key == e.key then [e] + entries[1..]
    else [entries[0]] + Put(entries[1..], e)
  }

  function Mapped(entries: seq<Entry>): seq<Entry> {
    if entries == [] then [] else Put(Mapped(entries[..|entries| - 1]), entries[|entries| - 1])
  }

  function RowsOf(entries: seq<Entry>, denominator: nat): seq<Row> {
    if entries == [] then []
    else (if entries[0].count > 0 then [Row(entries[0].key, entries[0].count, denominator)] else [])
         + RowsOf(entries[1..], denominator)
  }

  /** The uninterrupted builder goes through a map; the checkpointed one does not. */
  function PrimaryRows(ranked: seq<Entry>): seq<Row> { RowsOf(Mapped(Bounded(ranked)), Sum(ranked)) }
  function CheckpointRows(ranked: seq<Entry>): seq<Row> { RowsOf(Bounded(ranked), Sum(ranked)) }

  ghost predicate HasKey(entries: seq<Entry>, key: string) { exists e :: e in entries && e.key == key }

  lemma {:induction false} PutNew(entries: seq<Entry>, e: Entry)
    requires !HasKey(entries, e.key)
    ensures Put(entries, e) == entries + [e]
  {
    if entries != [] {
      assert entries[0] in entries;
      forall d | d in entries[1..] ensures d.key != e.key { assert d in entries; }
      PutNew(entries[1..], e);
    }
  }

  lemma {:induction false} PutLength(entries: seq<Entry>, e: Entry)
    ensures |Put(entries, e)| == |entries| + if HasKey(entries, e.key) then 0 else 1
  {
    if entries != [] {
      PutLength(entries[1..], e);
      if HasKey(entries, e.key) && entries[0].key != e.key {
        var d :| d in entries && d.key == e.key;
        assert d in entries[1..];
      }
      if HasKey(entries[1..], e.key) {
        var d :| d in entries[1..] && d.key == e.key;
        assert d in entries;
      }
      if entries[0].key == e.key { assert entries[0] in entries; }
    }
  }

  lemma {:induction false} MappedDistinct(entries: seq<Entry>)
    requires DistinctKeys(entries)
    ensures Mapped(entries) == entries
  {
    if entries != [] {
      var init, last := entries[..|entries| - 1], entries[|entries| - 1];
      assert entries == init + [last];
      DistinctInit(init, last);
      MappedDistinct(init);
      PutNew(init, last);
    }
  }

  lemma {:induction false} DistinctInit(init: seq<Entry>, last: Entry)
    requires DistinctKeys(init + [last])
    ensures DistinctKeys(init) && !HasKey(init, last.key)
  {
    if init != [] {
      assert (init + [last])[1..] == init[1..] + [last];
      DistinctInit(init[1..], last);
      assert last in init[1..] + [last];
      forall d | d in init[1..] ensures d in (init + [last])[1..] {}
      forall d | d in init ensures d.key != last.key { if d in init[1..] {} }
    }
  }

  lemma {:induction false} DistinctTake(entries: seq<Entry>, n: nat)
    requires DistinctKeys(entries) && n <= |entries|
    ensures DistinctKeys(entries[..n])
  {
    if n > 0 {
      DistinctTake(entries[1..], n - 1);
      assert entries[..n][1..] == entries[1..][..n - 1];
      forall e | e in entries[..n][1..] ensures e in entries[1..] {}
    }
  }

  lemma {:induction false} RowsLength(entries: seq<Entry>, denominator: nat)
    requires forall e :: e in entries ==> e.count > 0
    ensures |RowsOf(entries, denominator)| == |entries|
  {
    if entries != [] { RowsLength(entries[1..], denominator); }
  }

  lemma {:induction false} PositiveSum(entries: seq<Entry>)
    requires entries != [] && forall e :: e in entries ==> e.count > 0
    ensures Sum(entries) > 0
  {
    if |entries| > 1 { PositiveSum(entries[1..]); }
  }

  /** Literal `other` ranks among the twenty shown while the rest overflow into a second `other`. */
  ghost predicate OtherCollides(ranked: seq<Entry>) {
    |ranked| > MAX_WORK_CATEGORY_BUCKETS && HasKey(ranked[..MAX_WORK_CATEGORY_BUCKETS], "other")
  }

  /** The two builders show the same work categories exactly when the literal category `other` does not collide. */
  lemma CategoryRowsAgree(ranked: seq<Entry>)
    requires DistinctKeys(ranked) && forall e :: e in ranked ==> e.count > 0
    ensures PrimaryRows(ranked) == CheckpointRows(ranked) <==> !OtherCollides(ranked)
  {
    hide RowsOf, Mapped, Put, HasKey;
    if |ranked| <= MAX_WORK_CATEGORY_BUCKETS {
      MappedDistinct(ranked);
    } else {
      var top, rest := ranked[..MAX_WORK_CATEGORY_BUCKETS], ranked[MAX_WORK_CATEGORY_BUCKETS..];
      forall e | e in rest ensures e.count > 0 {}
      PositiveSum(rest);
      DistinctTake(ranked, MAX_WORK_CATEGORY_BUCKETS);
      MappedDistinct(top);
      var other := Entry("other", Sum(rest));
      MappedAppend(top, other);
      if HasKey(top, "other") {
        CollisionShows(top, other, Sum(ranked));
      } else {
        PutNew(top, other);
      }
    }
  }

  lemma MappedAppend(entries: seq<Entry>, e: Entry)
    ensures Mapped(entries + [e]) == Put(Mapped(entries), e)
  {
    var all := entries + [e];
    assert all[..|all| - 1] == entries && all[|all| - 1] == e;
  }

  lemma {:induction false} PutMembers(entries: seq<Entry>, e: Entry)
    ensures forall d :: d in Put(entries, e) ==> d in entries || d == e
  {
    if entries != [] { PutMembers(entries[1..], e); }
  }

  lemma CollisionShows(top: seq<Entry>, other: Entry, denominator: nat)
    requires HasKey(top, other.key) && other.count > 0 && forall e :: e in top ==> e.count > 0
    ensures RowsOf(Put(top, other), denominator) != RowsOf(top + [other], denominator)
  {
    hide RowsOf, Put, HasKey;
    PutLength(top, other);
    PutMembers(top, other);
    RowsLength(Put(top, other), denominator);
    RowsLength(top + [other], denominator);
  }

  // ---------- A ledger that collides ----------

  /** `n` letters. */
  function Name(n: nat): string { seq(n, i => 'a') }

  function StartOfKind(category: string): Line {
    Line(None, "run.start", None, None, None, false, None, Some(category), None, None)
  }

  /** Two runs of the literal category `other`, and one each of `n` categories more. */
  function Colliding(n: nat): seq<Line> {
    if n == 0 then [StartOfKind("other"), StartOfKind("other")] else Colliding(n - 1) + [StartOfKind(Name(n))]
  }

  predicate IsName(key: string, n: nat) { 1 <= |key| <= n && key == Name(|key|) }

  lemma KindOf(category: string)
    requires category == "other" || IsName(category, 20)
    ensures CategoryOf(StartOfKind(category)) == category
  {
    assert GoodCategory(category);
  }

  lemma OtherIsNoName(n: nat)
    ensures Name(n) != "other"
  {
    assert "other"[0] == 'o';
    assert n > 0 ==> Name(n)[0] == 'a';
  }

  lemma {:induction false} CollidingCounts(n: nat, key: string)
    requires n <= 20
    ensures InCategory(Colliding(n), key) == if key == "other" then 2 else if IsName(key, n) then 1 else 0
  {
    hide CategoryOf, StartOfKind, Name;
    if n == 0 {
      TwoOthers(key);
    } else {
      CollidingCounts(n - 1, key);
      OneMoreStart(Colliding(n - 1), Name(n), key);
      NameLength(n);
      KindOf(Name(n));
      OtherIsNoName(n);
    }
  }

  lemma NameLength(n: nat)
    ensures |Name(n)| == n
  {
  }

  lemma OneMoreStart(lines: seq<Line>, category: string, key: string)
    ensures InCategory(lines + [StartOfKind(category)], key) ==
              InCategory(lines, key) + if CategoryOf(StartOfKind(category)) == key then 1 else 0
  {
    hide CategoryOf;
    CountGrows(lines, StartOfKind(category), l => IsStart(l) && CategoryOf(l) == key);
  }

  lemma TwoOthers(key: string)
    ensures InCategory([StartOfKind("other"), StartOfKind("other")], key) == if key == "other" then 2 else 0
  {
    hide CategoryOf, StartOfKind, InCategory;
    var o := StartOfKind("other");
    KindOf("other");
    assert [o, o] == ([] + [o]) + [o];
    OneMoreStart([] + [o], "other", key);
    OneMoreStart([], "other", key);
    NoLines(key);
  }

  lemma NoLines(key: string)
    ensures InCategory([], key) == 0
  {
  }

  ghost function Names(n: nat): (names: set<string>)
    ensures |names| == n && forall k :: k in names <==> IsName(k, n)
  {
    if n == 0 then {}
    else
      assert !IsName(Name(n), n - 1);
      assert forall k :: IsName(k, n) <==> IsName(k, n - 1) || k == Name(n);
      Names(n - 1) + {Name(n)}
  }

  lemma {:induction false} ListedLength(entries: seq<Entry>, keys: set<string>)
    requires DistinctKeys(entries) && forall k :: k in keys ==> HasKey(entries, k)
    ensures |entries| >= |keys|
    decreases |entries|
  {
    if entries == [] {
      assert keys == {};
    } else {
      var rest := keys - {entries[0].key};
      forall k | k in rest ensures HasKey(entries[1..], k) {
        var e :| e in entries && e.key == k;
        assert e in entries[1..];
      }
      ListedLength(entries[1..], rest);
      assert keys <= rest + {entries[0].key};
      Smaller(keys, rest, entries[0].key);
    }
  }

  lemma Smaller(keys: set<string>, rest: set<string>, k: string)
    requires rest == keys - {k}
    ensures |keys| <= |rest| + 1
  {
    assert k in keys ==> keys == rest + {k};
    assert k !in keys ==> keys == rest;
  }

  /** This ledger collides, whatever the collation: its 21 categories overflow, and `other` ranks first. */
  lemma LedgerCollides(t: Tally, le: Collation, ranked: seq<Entry>)
    requires Tallies(t, Colliding(20)) && Ranks(le, ranked, t.categories)
    ensures OtherCollides(ranked)
  {
    hide *;
    var keys := Names(20) + {"other"};
    OtherIsNoNameOf(20);
    assert |keys| == 21;
    forall k | k in keys ensures HasKey(ranked, k) { Listed(t, le, ranked, k); }
    RanksDistinct(le, ranked, t.categories);
    ListedLength(ranked, keys);
    CollidesIf(t, le, ranked);
  }

  lemma OtherIsNoNameOf(n: nat)
    ensures !IsName("other", n)
  {
    OtherIsNoName(|"other"|);
  }

  lemma Listed(t: Tally, le: Collation, ranked: seq<Entry>, k: string)
    requires Tallies(t, Colliding(20)) && Ranks(le, ranked, t.categories) && (k == "other" || IsName(k, 20))
    ensures HasKey(ranked, k)
  {
    hide Colliding, InCategory, IsName, LastVerdict, Count;
    CollidingCounts(20, k);
    assert Entry(k, t.categories[k]) in ranked;
  }

  lemma RanksDistinct(le: Collation, ranked: seq<Entry>, m: map<string, nat>)
    requires Ranks(le, ranked, m)
    ensures DistinctKeys(ranked)
  {
  }

  lemma CollidesIf(t: Tally, le: Collation, ranked: seq<Entry>)
    requires Tallies(t, Colliding(20)) && Ranks(le, ranked, t.categories) && |ranked| >= 21
    ensures OtherCollides(ranked)
  {
    hide Colliding, InCategory, LastVerdict, Count, Ordered;
    OtherRanksFirst(t, le, ranked);
    assert ranked[..MAX_WORK_CATEGORY_BUCKETS][0] == ranked[0];
  }

  lemma OtherRanksFirst(t: Tally, le: Collation, ranked: seq<Entry>)
    requires Tallies(t, Colliding(20)) && Ranks(le, ranked, t.categories) && ranked != []
    ensures ranked[0].key == "other"
  {
    hide Colliding, InCategory, IsName, LastVerdict, Count;
    CollidingCounts(20, "other");
    CollidingCounts(20, ranked[0].key);
    var other := Entry("other", t.categories["other"]);
    assert other in ranked && ranked[0] in ranked;
    assert ranked[0] != other ==> other in ranked[1..] && NotAfter(le, ranked[0], other);
  }

  // ---------- What is shown ----------

  /** Outcomes of merged work found later, when they have been measured. */
  datatype Attribution = Attribution(classified: nat, reverted: nat, followedUp: nat)

  function AttributedRows(a: Option<Attribution>): seq<Row> {
    if a.None? then []
    else
      (if a.value.reverted > 0 then [Row("reverted", a.value.reverted, a.value.classified)] else [])
      + (if a.value.followedUp > 0 then [Row("follow-up-fix", a.value.followedUp, a.value.classified)] else [])
  }

  const OUTCOME_ORDER: seq<string> := ["success", "failure", "missing-terminal-receipt", "unknown"]

  function OutcomeRows(counts: map<string, nat>): seq<Row> {
    var entries := seq(|OUTCOME_ORDER|,
                       i requires 0 <= i < |OUTCOME_ORDER| => Entry(OUTCOME_ORDER[i], Get(counts, OUTCOME_ORDER[i])));
    RowsOf(entries, Sum(entries))
  }

  datatype Shown = Shown(outcomes: seq<Row>, categories: seq<Row>, drilldowns: seq<Row>)

  function Take(rows: seq<Row>): seq<Row> {
    if |rows| <= MAX_DRILLDOWN_ROWS then rows else rows[..MAX_DRILLDOWN_ROWS]
  }

  function Show(counts: map<string, nat>, attribution: Option<Attribution>, categories: seq<Row>): Shown {
    var outcomes := OutcomeRows(counts) + AttributedRows(attribution);
    Shown(outcomes, categories, Take(outcomes) + Take(categories))
  }

  /** What a tally shows, by definition: four outcome counts and the ranked categories given by `rows`. */
  ghost predicate Shows(shown: Shown, t: Tally, le: Collation, attribution: Option<Attribution>,
                        rows: seq<Entry> -> seq<Row>)
  {
    exists counts: map<string, nat>, ranked: seq<Entry> ::
      && (forall key :: Get(counts, key) == OutcomeCount(t, key)) && Ranks(le, ranked, t.categories)
      && shown == Show(counts, attribution, rows(ranked))
  }

  method BuildBreakdowns(t: Tally, le: Collation, attribution: Option<Attribution>, checkpointed: bool)
    returns (shown: Shown)
    requires TotalOrder(le)
    ensures Shows(shown, t, le, attribution, if checkpointed then CheckpointRows else PrimaryRows)
  {
    hide *;
    var counts := CountOutcomes(t);
    var entries := Entries(t.categories);
    var ranked := Rank(le, entries);
    RankListed(le, entries, ranked, t.categories);
    shown := Show(counts, attribution, if checkpointed then CheckpointRows(ranked) else PrimaryRows(ranked));
    AsShown(shown, t, le, attribution, counts, ranked, checkpointed);
  }

  lemma RankListed(le: Collation, entries: seq<Entry>, ranked: seq<Entry>, m: map<string, nat>)
    requires TotalOrder(le) && Lists(entries, m) && ranked == Rank(le, entries)
    ensures Ranks(le, ranked, m)
  {
    hide TotalOrder, DistinctKeys, Ordered, Rank;
    RankRanks(le, entries);
  }

  lemma AsShown(shown: Shown, t: Tally, le: Collation, attribution: Option<Attribution>, counts: map<string, nat>,
                ranked: seq<Entry>, checkpointed: bool)
    requires (forall key :: Get(counts, key) == OutcomeCount(t, key)) && Ranks(le, ranked, t.categories)
    requires shown == Show(counts, attribution, if checkpointed then CheckpointRows(ranked) else PrimaryRows(ranked))
    ensures Shows(shown, t, le, attribution, if checkpointed then CheckpointRows else PrimaryRows)
  {
    hide Ranks, Show, OutcomeCount;
  }

  lemma SameCounts(a: map<string, nat>, b: map<string, nat>)
    requires forall key :: Get(a, key) == Get(b, key)
    ensures OutcomeRows(a) == OutcomeRows(b)
  {
    hide Get, RowsOf, Sum;
    assert seq(|OUTCOME_ORDER|,
               i requires 0 <= i < |OUTCOME_ORDER| => Entry(OUTCOME_ORDER[i], Get(a, OUTCOME_ORDER[i])))
        == seq(|OUTCOME_ORDER|,
               i requires 0 <= i < |OUTCOME_ORDER| => Entry(OUTCOME_ORDER[i], Get(b, OUTCOME_ORDER[i])));
  }

  /** The two builders show the same of one tally exactly when the category `other` does not collide. */
  lemma ShownAgree(p: Shown, q: Shown, t: Tally, le: Collation, attribution: Option<Attribution>, ranked: seq<Entry>)
    requires TotalOrder(le) && Ranks(le, ranked, t.categories) && forall k :: k in t.categories ==> t.categories[k] > 0
    requires Shows(p, t, le, attribution, PrimaryRows) && Shows(q, t, le, attribution, CheckpointRows)
    ensures p == q <==> !OtherCollides(ranked)
  {
    hide OutcomeCount, TotalOrder, Ordered, DistinctKeys, PrimaryRows, CheckpointRows, OtherCollides, OutcomeRows, Get,
         Take, AttributedRows;
    var c, r :| (forall key :: Get(c, key) == OutcomeCount(t, key)) && Ranks(le, r, t.categories)
      && p == Show(c, attribution, PrimaryRows(r));
    var d, s :| (forall key :: Get(d, key) == OutcomeCount(t, key)) && Ranks(le, s, t.categories)
      && q == Show(d, attribution, CheckpointRows(s));
    RankUnique(le, r, ranked);
    RankUnique(le, s, ranked);
    SameCounts(c, d);
    CategoryRowsAgree(ranked);
  }
}
