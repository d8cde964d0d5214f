/** The streaming join of worker assignments with their terminal verdicts. */
module RoutingJoin {
  import opened Wrappers
  import opened SortedStrings

  datatype Assignment = Assignment(id: string, provider: string, model: string, taskType: string, rule: string,
                                   preferenceBypassed: bool, taskClass: Option<string>, risk: Option<string>,
                                   requestedModel: Option<string>, effort: Option<string>)

  datatype Billing = Api | Subscription | Unstated

  /** A terminal result; costs and durations are recorded only when they are not negative. */
  datatype Receipt = Receipt(success: Option<bool>, tokens: real, tokensMeasured: bool, durationMs: Option<real>,
                             costUsd: Option<real>, billing: Billing, servedModel: Option<string>,
                             capabilityFallback: bool, day: Option<string>)

  /** Buckets are found by four names joined with NUL, and show the names of the assignment that opened them. */
  type Key = string

  datatype Names = Names(provider: string, model: string, taskType: string, rule: string)

  function NamesOf(a: Assignment): Names { Names(a.provider, a.model, a.taskType, a.rule) }
  function Joined(n: Names): Key { n.provider + "\0" + (n.model + "\0" + (n.taskType + "\0" + n.rule)) }
  function KeyOf(a: Assignment): Key { Joined(NamesOf(a)) }

  datatype Bucket = Bucket(assignments: nat, results: nat, successes: nat, failures: nat, tokens: real,
                           durationMs: real, costUsd: real, unpriced: nat, fallbacks: map<string, nat>)

  datatype Day = Day(results: nat, tokens: real, costUsd: real, unpriced: nat)

  // ---------- Sums over maps ----------

  ghost function Total<K(!new), V>(m: map<K, V>, f: V -> real): real
    decreases |m|
  {
    if m == map[] then 0.0
    else
      var k :| k in m;
      f(m[k]) + Total(m - {k}, f)
  }

  lemma {:induction false} TotalWithout<K(!new), V>(m: map<K, V>, f: V -> real, k: K)
    requires k in m
    ensures Total(m, f) == f(m[k]) + Total(m - {k}, f)
    decreases |m|
  {
    var first :| first in m && Total(m, f) == f(m[first]) + Total(m - {first}, f);
    if first != k {
      TotalWithout(m - {first}, f, k);
      TotalWithout(m - {k}, f, first);
      assert (m - {first}) - {k} == (m - {k}) - {first};
    }
  }

  /** Putting a value under a key replaces what the key contributed. */
  lemma TotalPut<K(!new), V>(m: map<K, V>, f: V -> real, k: K, v: V)
    ensures Total(m[k := v], f) == Total(m, f) + f(v) - if k in m then f(m[k]) else 0.0
  {
    hide Total;
    TotalWithout(m[k := v], f, k);
    assert m[k := v] - {k} == m - {k};
    if k in m {
      TotalWithout(m, f, k);
    } else {
      assert m - {k} == m;
    }
  }

  // ---------- What the join means ----------

  /** An assignment with its receipt. */
  datatype Match = Match(assignment: Assignment, receipt: Receipt)

  type Matches = map<string, Match>

  ghost function Matched(assignments: map<string, Assignment>, verdicts: map<string, Receipt>): Matches {
    map id | id in assignments && id in verdicts :: Match(assignments[id], verdicts[id])
  }

  predicate HasKey(m: Match, key: Key) { KeyOf(m.assignment) == key }

  function FallbackReasons(a: Assignment, r: Receipt): seq<string> {
    (if a.preferenceBypassed then ["provider-preference-bypass"] else [])
    + (if r.capabilityFallback then ["capability-table-unavailable"] else [])
    + (if r.servedModel.Some? && r.servedModel.value != a.model then ["provider-served-different-model"] else [])
  }

  function One(b: bool): real { if b then 1.0 else 0.0 }
  function OrZero(x: Option<real>): real { if x.Some? then x.value else 0.0 }

  // What each match contributes to the bucket of a key, and to a day.
  type Measure = Match -> real

  ghost function AssignedTo(key: Key): Assignment -> real { a => One(KeyOf(a) == key) }
  ghost function Part(f: Measure, key: Key): Measure { m => if HasKey(m, key) then f(m) else 0.0 }
  ghost function Each(): Measure { m => 1.0 }
  ghost function TokensIn(): Measure { (m: Match) => m.receipt.tokens }
  ghost function CostIn(): Measure { (m: Match) => OrZero(m.receipt.costUsd) }
  ghost function Result(key: Key): Measure { Part(Each(), key) }
  ghost function OutcomeIn(success: bool): Measure { (m: Match) => One(m.receipt.success == Some(success)) }
  ghost function DurationIn(): Measure { (m: Match) => OrZero(m.receipt.durationMs) }
  ghost function UnpricedIn(): Measure { (m: Match) => One(m.receipt.costUsd.None?) }
  ghost function Outcome(key: Key, success: bool): Measure { Part(OutcomeIn(success), key) }
  ghost function TokensOf(key: Key): Measure { Part(TokensIn(), key) }
  ghost function DurationOf(key: Key): Measure { Part(DurationIn(), key) }
  ghost function CostOf(key: Key): Measure { Part(CostIn(), key) }
  ghost function UnpricedOf(key: Key): Measure { Part(UnpricedIn(), key) }
  ghost function FallbackOf(key: Key, reason: string): Measure {
    m => One(HasKey(m, key) && reason in FallbackReasons(m.assignment, m.receipt))
  }

  ghost function DayResult(day: string): Measure { (m: Match) => One(m.receipt.day == Some(day)) }
  ghost function DayTokens(day: string): Measure {
    (m: Match) => if m.receipt.day == Some(day) then m.receipt.tokens else 0.0
  }
  ghost function DayCost(day: string): Measure {
    (m: Match) => if m.receipt.day == Some(day) then OrZero(m.receipt.costUsd) else 0.0
  }
  ghost function DayUnpriced(day: string): Measure {
    (m: Match) => One(m.receipt.day == Some(day) && m.receipt.costUsd.None?)
  }

  /** A bucket holds, of the assignments and matches with its key, their numbers, outcomes, totals and fallback
      reasons. */
  ghost predicate BucketHolds(b: Bucket, key: Key, assignments: map<string, Assignment>, matches: Matches) {
    && b.assignments as real == Total(assignments, AssignedTo(key))
    && b.results as real == Total(matches, Result(key))
    && b.successes as real == Total(matches, Outcome(key, true))
    && b.failures as real == Total(matches, Outcome(key, false))
    && b.tokens == Total(matches, TokensOf(key))
    && b.durationMs == Total(matches, DurationOf(key))
    && b.costUsd == Total(matches, CostOf(key))
    && b.unpriced as real == Total(matches, UnpricedOf(key))
    && (forall reason :: GetCount(b.fallbacks, reason) as real == Total(matches, FallbackOf(key, reason)))
    && forall reason :: reason in b.fallbacks ==> b.fallbacks[reason] > 0
  }

  ghost predicate DayHolds(d: Day, day: string, matches: Matches) {
    && d.results as real == Total(matches, DayResult(day))
    && d.tokens == Total(matches, DayTokens(day))
    && d.costUsd == Total(matches, DayCost(day))
    && d.unpriced as real == Total(matches, DayUnpriced(day))
  }

  function GetCount(m: map<string, nat>, key: string): nat { if key in m then m[key] else 0 }

  const NO_BUCKET: Bucket := Bucket(0, 0, 0, 0, 0.0, 0.0, 0.0, 0, map[])
  const NO_DAY: Day := Day(0, 0.0, 0.0, 0)

  function BucketAt(buckets: map<Key, Bucket>, key: Key): Bucket { if key in buckets then buckets[key] else NO_BUCKET }
  function DayAt(days: map<string, Day>, day: string): Day { if day in days then days[day] else NO_DAY }

  datatype State = State(assignments: map<string, Assignment>, joined: map<string, Receipt>,
                         pending: map<string, Receipt>, buckets: map<Key, Bucket>, days: map<string, Day>)

  ghost function JoinedOf(first: map<string, Assignment>, verdicts: map<string, Receipt>): map<string, Receipt> {
    map id | id in verdicts && id in first :: verdicts[id]
  }

  ghost function PendingOf(first: map<string, Assignment>, verdicts: map<string, Receipt>): map<string, Receipt> {
    map id | id in verdicts && id !in first :: verdicts[id]
  }

  ghost predicate BucketsHold(buckets: map<Key, Bucket>, first: map<string, Assignment>, matches: Matches) {
    forall key :: BucketHolds(BucketAt(buckets, key), key, first, matches)
  }

  ghost predicate HasAssignment(first: map<string, Assignment>, key: Key) {
    exists id :: id in first && KeyOf(first[id]) == key
  }

  ghost predicate BucketKeys(buckets: map<Key, Bucket>, first: map<string, Assignment>) {
    forall key :: key in buckets <==> HasAssignment(first, key)
  }

  ghost predicate DaysHold(days: map<string, Day>, matches: Matches) {
    forall day :: DayHolds(DayAt(days, day), day, matches)
  }

  ghost predicate HasResult(joined: map<string, Receipt>, day: string) {
    exists id :: id in joined && joined[id].day == Some(day)
  }

  ghost predicate DayKeys(days: map<string, Day>, joined: map<string, Receipt>) {
    forall day :: day in days <==> HasResult(joined, day)
  }

  /** The state of the join, by definition, from the first assignment and the first verdict of each id. */
  ghost predicate IsJoin(s: State, first: map<string, Assignment>, verdicts: map<string, Receipt>) {
    && s.assignments == first && s.joined == JoinedOf(first, verdicts) && s.pending == PendingOf(first, verdicts)
    && BucketsHold(s.buckets, first, Matched(first, verdicts)) && BucketKeys(s.buckets, first)
    && DaysHold(s.days, Matched(first, verdicts)) && DayKeys(s.days, s.joined)
  }

  // ---------- Counting one more ----------

  lemma AssignmentCounted(b: Bucket, key: Key, assignments: map<string, Assignment>, matches: Matches, a: Assignment)
    requires BucketHolds(b, key, assignments, matches) && a.id !in assignments
    ensures BucketHolds(if KeyOf(a) == key then b.(assignments := b.assignments + 1) else b, key,
                        assignments[a.id := a], matches)
  {
    hide Total;
    TotalPut(assignments, AssignedTo(key), a.id, a);
  }

  /** The bucket after a receipt is applied to it. */
  function Applied(b: Bucket, a: Assignment, r: Receipt): Bucket {
    Bucket(b.assignments, b.results + 1, b.successes + (if r.success == Some(true) then 1 else 0),
           b.failures + (if r.success == Some(false) then 1 else 0), b.tokens + r.tokens,
           b.durationMs + OrZero(r.durationMs), b.costUsd + OrZero(r.costUsd),
           b.unpriced + (if r.costUsd.None? then 1 else 0), CountAll(b.fallbacks, FallbackReasons(a, r)))
  }

  function CountAll(counts: map<string, nat>, reasons: seq<string>): map<string, nat> {
    if reasons == [] then counts
    else
      var before := CountAll(counts, reasons[..|reasons| - 1]);
      var reason := reasons[|reasons| - 1];
      before[reason := GetCount(before, reason) + 1]
  }

  lemma {:induction false} CountsStayPositive(counts: map<string, nat>, reasons: seq<string>)
    requires forall k :: k in counts ==> counts[k] > 0
    ensures forall k :: k in CountAll(counts, reasons) ==> CountAll(counts, reasons)[k] > 0
  {
    if reasons != [] { CountsStayPositive(counts, reasons[..|reasons| - 1]); }
  }

  lemma ReasonsCounted(counts: map<string, nat>, a: Assignment, r: Receipt, reason: string)
    ensures GetCount(CountAll(counts, FallbackReasons(a, r)), reason) ==
              GetCount(counts, reason) + if reason in FallbackReasons(a, r) then 1 else 0
  {
    var reasons := FallbackReasons(a, r);
    DistinctCounted(counts, reasons, reason);
  }

  lemma {:induction false} DistinctCounted(counts: map<string, nat>, reasons: seq<string>, reason: string)
    requires forall i, j :: 0 <= i < j < |reasons| ==> reasons[i] != reasons[j]
    ensures GetCount(CountAll(counts, reasons), reason) == GetCount(counts, reason) + if reason in reasons then 1 else 0
  {
    if reasons != [] {
      var init, last := reasons[..|reasons| - 1], reasons[|reasons| - 1];
      DistinctCounted(counts, init, reason);
      assert reasons == init + [last];
    }
  }

  lemma ReceiptCounted(b: Bucket, key: Key, assignments: map<string, Assignment>, matches: Matches, id: string,
                       m: Match)
    requires BucketHolds(b, key, assignments, matches) && id !in matches
    ensures BucketHolds(if HasKey(m, key) then Applied(b, m.assignment, m.receipt) else b, key, assignments,
                        matches[id := m])
  {
    hide Total, FallbackReasons, CountAll, GetCount;
    TotalPut(matches, Result(key), id, m);
    TotalPut(matches, Outcome(key, true), id, m);
    TotalPut(matches, Outcome(key, false), id, m);
    TotalPut(matches, TokensOf(key), id, m);
    TotalPut(matches, DurationOf(key), id, m);
    TotalPut(matches, CostOf(key), id, m);
    TotalPut(matches, UnpricedOf(key), id, m);
    var b' := if HasKey(m, key) then Applied(b, m.assignment, m.receipt) else b;
    CountsStayPositive(b.fallbacks, FallbackReasons(m.assignment, m.receipt));
    forall reason ensures GetCount(b'.fallbacks, reason) as real == Total(matches[id := m], FallbackOf(key, reason)) {
      TotalPut(matches, FallbackOf(key, reason), id, m);
      ReasonsCounted(b.fallbacks, m.assignment, m.receipt, reason);
    }
  }

  function DayApplied(d: Day, r: Receipt): Day {
    Day(d.results + 1, d.tokens + r.tokens, d.costUsd + OrZero(r.costUsd),
        d.unpriced + if r.costUsd.None? then 1 else 0)
  }

  lemma DayCounted(d: Day, day: string, matches: Matches, id: string, m: Match)
    requires DayHolds(d, day, matches) && id !in matches
    ensures DayHolds(if m.receipt.day == Some(day) then DayApplied(d, m.receipt) else d, day, matches[id := m])
  {
    hide Total;
    TotalPut(matches, DayResult(day), id, m);
    TotalPut(matches, DayTokens(day), id, m);
    TotalPut(matches, DayCost(day), id, m);
    TotalPut(matches, DayUnpriced(day), id, m);
  }

  // ---------- The steps ----------

  /** The state with a receipt applied to its assignment. */
  function ApplyTo(s: State, a: Assignment, r: Receipt): State {
    s.(joined := s.joined[a.id := r],
       buckets := s.buckets[KeyOf(a) := Applied(BucketAt(s.buckets, KeyOf(a)), a, r)],
       days := if r.day.Some? then s.days[r.day.value := DayApplied(DayAt(s.days, r.day.value), r)] else s.days)
  }

  function CountAssigned(s: State, a: Assignment): State {
    var b := BucketAt(s.buckets, KeyOf(a));
    s.(assignments := s.assignments[a.id := a], buckets := s.buckets[KeyOf(a) := b.(assignments := b.assignments + 1)])
  }

  lemma MatchedMore(first: map<string, Assignment>, verdicts: map<string, Receipt>, id: string, r: Receipt)
    requires id !in verdicts
    ensures id in first ==> Matched(first, verdicts[id := r]) == Matched(first, verdicts)[id := Match(first[id], r)]
    ensures id in first ==> JoinedOf(first, verdicts[id := r]) == JoinedOf(first, verdicts)[id := r]
    ensures id in first ==> PendingOf(first, verdicts[id := r]) == PendingOf(first, verdicts)
    ensures id !in first ==> Matched(first, verdicts[id := r]) == Matched(first, verdicts)
    ensures id !in first ==> JoinedOf(first, verdicts[id := r]) == JoinedOf(first, verdicts)
    ensures id !in first ==> PendingOf(first, verdicts[id := r]) == PendingOf(first, verdicts)[id := r]
  {
    if id in first {
      assert Matched(first, verdicts[id := r]) == Matched(first, verdicts)[id := Match(first[id], r)];
    }
  }

  lemma BucketsAfterReceipt(buckets: map<Key, Bucket>, first: map<string, Assignment>, matches: Matches, id: string,
                            m: Match)
    requires BucketsHold(buckets, first, matches) && id !in matches
    ensures var key := KeyOf(m.assignment);
            BucketsHold(buckets[key := Applied(BucketAt(buckets, key), m.assignment, m.receipt)], first,
                        matches[id := m])
  {
    hide BucketHolds, Applied;
    var own := KeyOf(m.assignment);
    var buckets' := buckets[own := Applied(BucketAt(buckets, own), m.assignment, m.receipt)];
    forall key ensures BucketHolds(BucketAt(buckets', key), key, first, matches[id := m]) {
      ReceiptCounted(BucketAt(buckets, key), key, first, matches, id, m);
    }
  }

  lemma DaysAfterReceipt(days: map<string, Day>, days': map<string, Day>, matches: Matches, id: string, m: Match)
    requires DaysHold(days, matches) && id !in matches
    requires days' == if m.receipt.day.Some?
                      then days[m.receipt.day.value := DayApplied(DayAt(days, m.receipt.day.value), m.receipt)]
                        else days
    ensures DaysHold(days', matches[id := m])
  {
    hide DayHolds, DayApplied;
    forall day ensures DayHolds(DayAt(days', day), day, matches[id := m]) {
      DayCounted(DayAt(days, day), day, matches, id, m);
    }
  }

  lemma DayKeysAfterReceipt(days: map<string, Day>, days': map<string, Day>, joined: map<string, Receipt>, id: string,
                            r: Receipt)
    requires DayKeys(days, joined) && id !in joined
    requires days'.Keys == days.Keys + if r.day.Some? then {r.day.value} else {}
    ensures DayKeys(days', joined[id := r])
  {
    var joined' := joined[id := r];
    forall day ensures HasResult(joined', day) <==> HasResult(joined, day) || r.day == Some(day) {
      if HasResult(joined, day) {
        var i :| i in joined && joined[i].day == Some(day);
        assert i in joined' && joined'[i].day == Some(day);
      }
      if r.day == Some(day) { assert id in joined' && joined'[id].day == Some(day); }
    }
  }

  lemma SameKey(buckets: map<Key, Bucket>, first: map<string, Assignment>, id: string, b: Bucket)
    requires BucketKeys(buckets, first) && id in first
    ensures BucketKeys(buckets[KeyOf(first[id]) := b], first)
  {
    assert HasAssignment(first, KeyOf(first[id]));
  }

  lemma VerdictAfterAssignment(s: State, first: map<string, Assignment>, verdicts: map<string, Receipt>, id: string,
                               r: Receipt)
    requires IsJoin(s, first, verdicts) && id in first && id !in verdicts && first[id].id == id
    ensures IsJoin(ApplyTo(s, first[id], r), first, verdicts[id := r])
  {
    hide BucketsHold, DaysHold, BucketKeys, DayKeys, Applied, DayApplied, JoinedOf, PendingOf, Matched;
    var a := first[id];
    var matches, m := Matched(first, verdicts), Match(a, r);
    MatchedMore(first, verdicts, id, r);
    NotMatched(first, verdicts, id);
    BucketsAfterReceipt(s.buckets, first, matches, id, m);
    DaysAfterReceipt(s.days, ApplyTo(s, a, r).days, matches, id, m);
    DayKeysAfterReceipt(s.days, ApplyTo(s, a, r).days, s.joined, id, r);
    SameKey(s.buckets, first, id, Applied(BucketAt(s.buckets, KeyOf(a)), a, r));
  }

  lemma NotMatched(first: map<string, Assignment>, verdicts: map<string, Receipt>, id: string)
    requires id !in verdicts
    ensures id !in Matched(first, verdicts) && id !in JoinedOf(first, verdicts)
  {
  }

  lemma VerdictBeforeAssignment(s: State, first: map<string, Assignment>, verdicts: map<string, Receipt>, id: string,
                                r: Receipt)
    requires IsJoin(s, first, verdicts) && id !in first && id !in verdicts
    ensures IsJoin(s.(pending := s.pending[id := r]), first, verdicts[id := r])
  {
    hide BucketsHold, DaysHold, BucketKeys, DayKeys, JoinedOf, PendingOf, Matched;
    MatchedMore(first, verdicts, id, r);
  }

  lemma MatchedUnassigned(first: map<string, Assignment>, verdicts: map<string, Receipt>, a: Assignment)
    requires a.id !in verdicts
    ensures Matched(first[a.id := a], verdicts) == Matched(first, verdicts)
    ensures JoinedOf(first[a.id := a], verdicts) == JoinedOf(first, verdicts)
    ensures PendingOf(first[a.id := a], verdicts) == PendingOf(first, verdicts)
  {
  }

  lemma BucketsAfterAssignment(buckets: map<Key, Bucket>, first: map<string, Assignment>, matches: Matches,
                               a: Assignment)
    requires BucketsHold(buckets, first, matches) && a.id !in first
    ensures var b := BucketAt(buckets, KeyOf(a));
            BucketsHold(buckets[KeyOf(a) := b.(assignments := b.assignments + 1)], first[a.id := a], matches)
  {
    hide BucketHolds;
    var b := BucketAt(buckets, KeyOf(a));
    var buckets' := buckets[KeyOf(a) := b.(assignments := b.assignments + 1)];
    forall key ensures BucketHolds(BucketAt(buckets', key), key, first[a.id := a], matches) {
      AssignmentCounted(BucketAt(buckets, key), key, first, matches, a);
    }
  }

  lemma KeysAfterAssignment(buckets: map<Key, Bucket>, first: map<string, Assignment>, a: Assignment, b: Bucket)
    requires BucketKeys(buckets, first) && a.id !in first
    ensures BucketKeys(buckets[KeyOf(a) := b], first[a.id := a])
  {
    var more := first[a.id := a];
    forall key ensures HasAssignment(more, key) <==> HasAssignment(first, key) || key == KeyOf(a) {
      if HasAssignment(first, key) {
        var id :| id in first && KeyOf(first[id]) == key;
        assert id in more && KeyOf(more[id]) == key;
      }
      assert a.id in more && KeyOf(more[a.id]) == KeyOf(a);
    }
  }

  /** A new assignment without a verdict waiting for it. */
  lemma AssignmentCountsOnly(s: State, first: map<string, Assignment>, verdicts: map<string, Receipt>, a: Assignment)
    requires IsJoin(s, first, verdicts) && a.id !in first && a.id !in verdicts
    ensures IsJoin(CountAssigned(s, a), first[a.id := a], verdicts)
  {
    hide BucketsHold, DaysHold, BucketKeys, DayKeys, JoinedOf, PendingOf, Matched;
    MatchedUnassigned(first, verdicts, a);
    BucketsAfterAssignment(s.buckets, first, Matched(first, verdicts), a);
    var b := BucketAt(s.buckets, KeyOf(a));
    KeysAfterAssignment(s.buckets, first, a, b.(assignments := b.assignments + 1));
  }

  /** A waiting verdict may be taken as not there yet. */
  lemma SetPendingAside(s: State, first: map<string, Assignment>, verdicts: map<string, Receipt>, id: string)
    requires IsJoin(s, first, verdicts) && id !in first && id in verdicts
    ensures id in s.pending && s.pending[id] == verdicts[id]
    ensures IsJoin(s.(pending := s.pending - {id}), first, verdicts - {id})
  {
    hide BucketsHold, DaysHold, BucketKeys, DayKeys;
    var earlier := verdicts - {id};
    assert Matched(first, earlier) == Matched(first, verdicts);
    assert JoinedOf(first, earlier) == JoinedOf(first, verdicts);
    assert PendingOf(first, earlier) == PendingOf(first, verdicts) - {id};
  }

  /** A new assignment whose verdict has been waiting: as if the verdict came after it. */
  lemma AssignmentMeetsPending(s: State, first: map<string, Assignment>, verdicts: map<string, Receipt>, a: Assignment)
    requires IsJoin(s, first, verdicts) && a.id !in first && a.id in verdicts
    ensures a.id in s.pending && s.pending[a.id] == verdicts[a.id]
    ensures IsJoin(ApplyTo(CountAssigned(s.(pending := s.pending - {a.id}), a), a, verdicts[a.id]), first[a.id := a],
                   verdicts)
  {
    hide IsJoin, ApplyTo, CountAssigned;
    var earlier := verdicts - {a.id};
    var without := s.(pending := s.pending - {a.id});
    SetPendingAside(s, first, verdicts, a.id);
    AssignmentCountsOnly(without, first, earlier, a);
    VerdictAfterAssignment(CountAssigned(without, a), first[a.id := a], earlier, a.id, verdicts[a.id]);
    assert earlier[a.id := verdicts[a.id]] == verdicts;
  }

  // ---------- The accumulator ----------

  class RoutingTelemetry {
    var state: State
    var names: map<Key, Names>
    var attempts: map<string, Receipt>
    var duplicateAssignments: nat
    var duplicateTerminals: nat
    /** Assignment rows that are none, terminal rows without an assignment id, and all rows of either kind. */
    var invalidAssignments: nat
    var anonymousTerminals: nat
    var assignmentRows: nat
    var terminalRows: nat

    constructor ()
      ensures FoldOf([])
    {
      state := State(map[], map[], map[], map[], map[]);
      names, attempts, duplicateAssignments, duplicateTerminals := map[], map[], 0, 0;
      invalidAssignments, anonymousTerminals, assignmentRows, terminalRows := 0, 0, 0, 0;
      new;
      NothingJoined(state);
      NoCounters();
    }

    /** Adds a terminal result to the bucket of its assignment and to its day. */
    method ApplyTerminal(a: Assignment, r: Receipt)
      modifies `state
      ensures state == ApplyTo(old(state), a, r).(joined := old(state).joined)
    {
      hide Applied, DayApplied;
      var key := KeyOf(a);
      var b := AppliedToBucket(BucketAt(state.buckets, key), a, r);
      state := state.(buckets := state.buckets[key := b]);
      if r.day.Some? {
        var d := AppliedToDay(DayAt(state.days, r.day.value), r);
        state := state.(days := state.days[r.day.value := d]);
      }
    }

    /** An assignment line: the first for its id counts, and takes the verdict that may be waiting for it. */
    method Assign(a: Assignment, ghost first: map<string, Assignment>, ghost verdicts: map<string, Receipt>)
      requires IsJoin(state, first, verdicts)
      modifies `state, `names, `duplicateAssignments, `assignmentRows
      ensures names == WithNames(old(names), a, first)
      ensures IsJoin(state, if a.id in first then first else first[a.id := a], verdicts)
      ensures duplicateAssignments == old(duplicateAssignments) + if a.id in first then 1 else 0
      ensures assignmentRows == old(assignmentRows) + 1
    {
      hide IsJoin, Applied, DayApplied;
      assignmentRows := assignmentRows + 1;
      JoinParts(state, first, verdicts, a.id);
      if a.id in state.assignments {
        duplicateAssignments := duplicateAssignments + 1;
        return;
      }
      ghost var before := state;
      state := state.(assignments := state.assignments[a.id := a]);
      if KeyOf(a) !in names { names := names[KeyOf(a) := NamesOf(a)]; }
      var b := BucketAt(state.buckets, KeyOf(a));
      state := state.(buckets := state.buckets[KeyOf(a) := b.(assignments := b.assignments + 1)]);
      if a.id in state.pending {
        var waiting := state.pending[a.id];
        AssignmentMeetsPending(before, first, verdicts, a);
        state := state.(pending := state.pending - {a.id}, joined := state.joined[a.id := waiting]);
        ApplyTerminal(a, waiting);
      } else {
        AssignmentCountsOnly(before, first, verdicts, a);
      }
    }

    /** A verdict line: the first for its id is joined, or waits for its assignment. */
    method Verdict(id: string, r: Receipt, ghost first: map<string, Assignment>, ghost verdicts: map<string, Receipt>)
      requires IsJoin(state, first, verdicts) && forall i :: i in first ==> first[i].id == i
      modifies `state, `duplicateTerminals, `terminalRows
      ensures IsJoin(state, first, if id in verdicts then verdicts else verdicts[id := r])
      ensures duplicateTerminals == old(duplicateTerminals) + if id in verdicts then 1 else 0
      ensures terminalRows == old(terminalRows) + 1
    {
      hide IsJoin, Applied, DayApplied;
      terminalRows := terminalRows + 1;
      JoinParts(state, first, verdicts, id);
      if id in state.joined || id in state.pending {
        duplicateTerminals := duplicateTerminals + 1;
        return;
      }
      if id in state.assignments {
        VerdictAfterAssignment(state, first, verdicts, id, r);
        var selected := state.assignments[id];
        state := state.(joined := state.joined[id := r]);
        ApplyTerminal(selected, r);
      } else {
        VerdictBeforeAssignment(state, first, verdicts, id, r);
        state := state.(pending := state.pending[id := r]);
      }
    }

    /** The state and the counters are those of the lines read. */
    ghost predicate FoldOf(events: seq<Event>)
      reads this
    {
      && IsJoin(state, FirstAssignments(AssignmentsIn(events)), FirstVerdicts(VerdictsIn(events)))
      && attempts == FirstVerdicts(AttemptsIn(events)) && names == FirstNames(AssignmentsIn(events))
      && CountersOf(events, duplicateAssignments, duplicateTerminals, invalidAssignments, anonymousTerminals,
                    assignmentRows, terminalRows)
    }

    /** One line. */
    method Read(event: Event, ghost events: seq<Event>)
      requires FoldOf(events)
      modifies this
      ensures FoldOf(events + [event])
    {
      hide IsJoin, CountersOf, FirstAssignments, FirstVerdicts, FirstNames, AssignmentsIn, VerdictsIn, AttemptsIn;
      NamesMore(events, event);
      ghost var first, verdicts := FirstAssignments(AssignmentsIn(events)), FirstVerdicts(VerdictsIn(events));
      OneMoreEvent(events, event);
      OneMoreCounted(events, event, duplicateAssignments, duplicateTerminals, invalidAssignments, anonymousTerminals,
                     assignmentRows, terminalRows);
      match event {
        case Assigned(a) => Assign(a, first, verdicts);
        case Ended(id, r) =>
          OwnIds(AssignmentsIn(events));
          Verdict(id, r, first, verdicts);
        case Attempted(id, r) => Attempt(id, r);
        case Anonymous =>
          terminalRows := terminalRows + 1;
          anonymousTerminals := anonymousTerminals + 1;
        case Invalid =>
          assignmentRows := assignmentRows + 1;
          invalidAssignments := invalidAssignments + 1;
      }
    }

    /** An attempt line: the first for its id is kept beside the join, which it does not touch. */
    method Attempt(id: string, r: Receipt)
      modifies `attempts, `duplicateTerminals, `terminalRows
      ensures attempts == if id in old(attempts) then old(attempts) else old(attempts)[id := r]
      ensures duplicateTerminals == old(duplicateTerminals) + if id in old(attempts) then 1 else 0
      ensures terminalRows == old(terminalRows) + 1
    {
      terminalRows := terminalRows + 1;
      if id in attempts {
        duplicateTerminals := duplicateTerminals + 1;
      } else {
        attempts := attempts[id := r];
      }
    }
  }

  method AppliedToBucket(bucket: Bucket, a: Assignment, r: Receipt) returns (b: Bucket)
    ensures b == Applied(bucket, a, r)
  {
    b := bucket.(results := bucket.results + 1);
    if r.success == Some(true) {
      b := b.(successes := b.successes + 1);
    } else if r.success == Some(false) {
      b := b.(failures := b.failures + 1);
    }
    b := b.(tokens := b.tokens + r.tokens, durationMs := b.durationMs + OrZero(r.durationMs));
    if r.costUsd.None? {
      b := b.(unpriced := b.unpriced + 1);
    } else {
      b := b.(costUsd := b.costUsd + r.costUsd.value);
    }
    var counts := CountReasons(b.fallbacks, FallbackReasons(a, r));
    b := b.(fallbacks := counts);
  }

  method CountReasons(before: map<string, nat>, reasons: seq<string>) returns (counts: map<string, nat>)
    ensures counts == CountAll(before, reasons)
  {
    counts := before;
    for i := 0 to |reasons|
      invariant counts == CountAll(before, reasons[..i])
    {
      assert reasons[..i + 1][..i] == reasons[..i];
      counts := counts[reasons[i] := GetCount(counts, reasons[i]) + 1];
    }
    assert reasons[..|reasons|] == reasons;
  }

  method AppliedToDay(day: Day, r: Receipt) returns (d: Day)
    ensures d == DayApplied(day, r)
  {
    d := day.(results := day.results + 1, tokens := day.tokens + r.tokens);
    if r.costUsd.None? {
      d := d.(unpriced := d.unpriced + 1);
    } else {
      d := d.(costUsd := d.costUsd + r.costUsd.value);
    }
  }

  lemma NothingJoined(s: State)
    requires s == State(map[], map[], map[], map[], map[])
    ensures IsJoin(s, map[], map[])
  {
    assert Matched(map[], map[]) == map[];
  }

  lemma JoinParts(s: State, first: map<string, Assignment>, verdicts: map<string, Receipt>, id: string)
    requires IsJoin(s, first, verdicts)
    ensures s.assignments == first
    ensures id in s.joined <==> id in first && id in verdicts
    ensures id in s.pending <==> id !in first && id in verdicts
  {
    hide BucketsHold, DaysHold, BucketKeys, DayKeys;
  }

  // ---------- Any order of the lines ----------

  /** A line as the fold reads it: an assignment, a verdict or an attempt with an assignment id, a terminal row without
      one, or an assignment row that is none. */
  datatype Event =
    | Assigned(assignment: Assignment)
    | Ended(id: string, receipt: Receipt)
    | Attempted(id: string, receipt: Receipt)
    | Anonymous
    | Invalid

  function AssignmentsIn(events: seq<Event>): seq<Assignment> {
    if events == [] then []
    else
      var last, before := events[|events| - 1], AssignmentsIn(events[..|events| - 1]);
      if last.Assigned? then before + [last.assignment] else before
  }

  datatype Verdict = Verdict(id: string, receipt: Receipt)

  function VerdictsIn(events: seq<Event>): seq<Verdict> {
    if events == [] then []
    else
      var last, before := events[|events| - 1], VerdictsIn(events[..|events| - 1]);
      if last.Ended? then before + [Verdict(last.id, last.receipt)] else before
  }

  function AttemptsIn(events: seq<Event>): seq<Verdict> {
    if events == [] then []
    else
      var last, before := events[|events| - 1], AttemptsIn(events[..|events| - 1]);
      if last.Attempted? then before + [Verdict(last.id, last.receipt)] else before
  }

  function CountEvents(events: seq<Event>, e: Event): nat {
    if events == [] then 0
    else CountEvents(events[..|events| - 1], e) + if events[|events| - 1] == e then 1 else 0
  }

  ghost function FirstAssignments(list: seq<Assignment>): (first: map<string, Assignment>)
    ensures forall id :: id in first ==> first[id].id == id
  {
    if list == [] then map[]
    else
      var last, before := list[|list| - 1], FirstAssignments(list[..|list| - 1]);
      if last.id in before then before else before[last.id := last]
  }

  ghost function FirstVerdicts(list: seq<Verdict>): map<string, Receipt> {
    if list == [] then map[]
    else
      var last, before := list[|list| - 1], FirstVerdicts(list[..|list| - 1]);
      if last.id in before then before else before[last.id := last.receipt]
  }

  /** What the counters say of the lines read. */
  ghost predicate CountersOf(events: seq<Event>, duplicateAssignments: nat, duplicateTerminals: nat, invalid: nat,
                             anonymous: nat, assignmentRows: nat, terminalRows: nat)
  {
    var given, ended, attempted := AssignmentsIn(events), VerdictsIn(events), AttemptsIn(events);
    && duplicateAssignments + |FirstAssignments(given)| == |given|
    && duplicateTerminals + |FirstVerdicts(ended)| + |FirstVerdicts(attempted)| == |ended| + |attempted|
    && invalid == CountEvents(events, Invalid) && anonymous == CountEvents(events, Anonymous)
    && assignmentRows == |given| + invalid && terminalRows == |ended| + |attempted| + anonymous
  }

  /** The fold of a ledger is the join of its first assignments and first verdicts, beside its first attempts; every
      further row of an id is counted as a duplicate. */
  method Fold(events: seq<Event>) returns (telemetry: RoutingTelemetry)
    ensures telemetry.FoldOf(events)
  {
    hide *;
    telemetry := new RoutingTelemetry();
    for i := 0 to |events|
      invariant fresh(telemetry) && telemetry.FoldOf(events[..i])
    {
      assert events[..i + 1] == events[..i] + [events[i]];
      telemetry.Read(events[i], events[..i]);
    }
    assert events[..|events|] == events;
  }

  lemma NoCounters()
    ensures CountersOf([], 0, 0, 0, 0, 0, 0)
  {
  }

  lemma OwnIds(list: seq<Assignment>)
    ensures forall id :: id in FirstAssignments(list) ==> FirstAssignments(list)[id].id == id
  {
    hide FirstAssignments;
  }

  lemma ListsMore(events: seq<Event>, e: Event)
    ensures var more := events + [e];
            && AssignmentsIn(more) == AssignmentsIn(events) + (if e.Assigned? then [e.assignment] else [])
            && VerdictsIn(more) == VerdictsIn(events) + (if e.Ended? then [Verdict(e.id, e.receipt)] else [])
            && AttemptsIn(more) == AttemptsIn(events) + (if e.Attempted? then [Verdict(e.id, e.receipt)] else [])
  {
    assert (events + [e])[..|events|] == events;
  }

  lemma FirstAssignmentsMore(list: seq<Assignment>, a: Assignment)
    ensures FirstAssignments(list + [a]) ==
              (var first := FirstAssignments(list); if a.id in first then first else first[a.id := a])
    ensures FirstAssignments(list + []) == FirstAssignments(list)
  {
    assert (list + [a])[..|list|] == list && list + [] == list;
  }

  lemma FirstVerdictsMore(list: seq<Verdict>, v: Verdict)
    ensures FirstVerdicts(list + [v]) ==
              (var first := FirstVerdicts(list); if v.id in first then first else first[v.id := v.receipt])
    ensures FirstVerdicts(list + []) == FirstVerdicts(list)
  {
    assert (list + [v])[..|list|] == list && list + [] == list;
  }

  lemma OneMoreEvent(events: seq<Event>, e: Event)
    ensures FirstAssignments(AssignmentsIn(events + [e])) ==
              (var first := FirstAssignments(AssignmentsIn(events));
               if !e.Assigned? || e.assignment.id in first then first else first[e.assignment.id := e.assignment])
    ensures FirstVerdicts(VerdictsIn(events + [e])) ==
              (var first := FirstVerdicts(VerdictsIn(events));
               if !e.Ended? || e.id in first then first else first[e.id := e.receipt])
    ensures FirstVerdicts(AttemptsIn(events + [e])) ==
              (var first := FirstVerdicts(AttemptsIn(events));
               if !e.Attempted? || e.id in first then first else first[e.id := e.receipt])
    ensures |AssignmentsIn(events + [e])| == |AssignmentsIn(events)| + (if e.Assigned? then 1 else 0)
    ensures |VerdictsIn(events + [e])| == |VerdictsIn(events)| + (if e.Ended? then 1 else 0)
    ensures |AttemptsIn(events + [e])| == |AttemptsIn(events)| + (if e.Attempted? then 1 else 0)
  {
    hide *;
    ListsMore(events, e);
    var nobody := Verdict("", NO_RECEIPT);
    var nothing := Assignment("", "", "", "", "", false, None, None, None, None);
    FirstAssignmentsMore(AssignmentsIn(events), if e.Assigned? then e.assignment else nothing);
    FirstVerdictsMore(VerdictsIn(events), if e.Ended? then Verdict(e.id, e.receipt) else nobody);
    FirstVerdictsMore(AttemptsIn(events), if e.Attempted? then Verdict(e.id, e.receipt) else nobody);
  }

  lemma OneMoreCounted(events: seq<Event>, e: Event, duplicateAssignments: nat, duplicateTerminals: nat, invalid: nat,
                       anonymous: nat, assignmentRows: nat, terminalRows: nat)
    requires CountersOf(events, duplicateAssignments, duplicateTerminals, invalid, anonymous, assignmentRows,
                        terminalRows)
    ensures var after := events + [e];
            match e
            case Assigned(a) =>
              CountersOf(after,
                         duplicateAssignments + (if a.id in FirstAssignments(AssignmentsIn(events)) then 1 else 0),
                         duplicateTerminals, invalid, anonymous, assignmentRows + 1, terminalRows)
            case Ended(id, r) =>
              CountersOf(after, duplicateAssignments,
                         duplicateTerminals + (if id in FirstVerdicts(VerdictsIn(events)) then 1 else 0), invalid,
                         anonymous, assignmentRows, terminalRows + 1)
            case Attempted(id, r) =>
              CountersOf(after, duplicateAssignments,
                         duplicateTerminals + (if id in FirstVerdicts(AttemptsIn(events)) then 1 else 0), invalid,
                         anonymous, assignmentRows, terminalRows + 1)
            case Anonymous =>
              CountersOf(after, duplicateAssignments, duplicateTerminals, invalid, anonymous + 1, assignmentRows,
                         terminalRows + 1)
            case Invalid =>
              CountersOf(after, duplicateAssignments, duplicateTerminals, invalid + 1, anonymous, assignmentRows + 1,
                         terminalRows)
  {
    hide FirstAssignments, FirstVerdicts, AssignmentsIn, VerdictsIn, AttemptsIn;
    OneMoreEvent(events, e);
    assert (events + [e])[..|events|] == events;
  }

  /** No row goes uncounted: assignment rows are assignments, duplicates or invalid; terminal rows are joined, waiting,
      attempts, duplicates or without an id. */
  lemma RowsAddUp(events: seq<Event>, s: State, attempts: map<string, Receipt>, duplicateAssignments: nat,
                  duplicateTerminals: nat, invalid: nat, anonymous: nat, assignmentRows: nat, terminalRows: nat)
    requires IsJoin(s, FirstAssignments(AssignmentsIn(events)), FirstVerdicts(VerdictsIn(events)))
    requires attempts == FirstVerdicts(AttemptsIn(events))
    requires CountersOf(events, duplicateAssignments, duplicateTerminals, invalid, anonymous, assignmentRows,
                        terminalRows)
    ensures assignmentRows == |s.assignments| + duplicateAssignments + invalid
    ensures terminalRows == |s.joined| + |s.pending| + |attempts| + duplicateTerminals + anonymous
  {
    hide FirstAssignments, FirstVerdicts, AssignmentsIn, VerdictsIn, AttemptsIn, BucketsHold, DaysHold, BucketKeys,
         DayKeys;
    var verdicts := FirstVerdicts(VerdictsIn(events));
    assert s.joined.Keys + s.pending.Keys == verdicts.Keys && s.joined.Keys !! s.pending.Keys;
    assert |s.joined.Keys + s.pending.Keys| == |s.joined.Keys| + |s.pending.Keys|;
    assert |verdicts| == |verdicts.Keys| && |s.joined| == |s.joined.Keys| && |s.pending| == |s.pending.Keys|;
  }

  /** There is one join of given assignments and verdicts, so the order in which lines of the two kinds interleave
      makes no difference. */
  lemma JoinUnique(s: State, t: State, first: map<string, Assignment>, verdicts: map<string, Receipt>)
    requires IsJoin(s, first, verdicts) && IsJoin(t, first, verdicts)
    ensures s == t
  {
    hide BucketHolds, DayHolds, Matched, JoinedOf, PendingOf, HasAssignment, HasResult;
    var matches := Matched(first, verdicts);
    forall key | key in s.buckets ensures key in t.buckets && s.buckets[key] == t.buckets[key] {
      assert BucketHolds(BucketAt(s.buckets, key), key, first, matches);
      assert BucketHolds(BucketAt(t.buckets, key), key, first, matches);
      BucketUnique(s.buckets[key], t.buckets[key], key, first, matches);
    }
    assert s.buckets.Keys == t.buckets.Keys;
    assert s.buckets == t.buckets;
    forall day | day in s.days ensures day in t.days && s.days[day] == t.days[day] {
      assert DayHolds(DayAt(s.days, day), day, matches);
      assert DayHolds(DayAt(t.days, day), day, matches);
      DayUnique(s.days[day], t.days[day], day, matches);
    }
    assert s.days.Keys == t.days.Keys;
    assert s.days == t.days;
  }

  lemma BucketUnique(b: Bucket, c: Bucket, key: Key, first: map<string, Assignment>, matches: Matches)
    requires BucketHolds(b, key, first, matches) && BucketHolds(c, key, first, matches)
    ensures b == c
  {
    hide Total;
    forall reason ensures GetCount(b.fallbacks, reason) == GetCount(c.fallbacks, reason) {
      assert GetCount(b.fallbacks, reason) as real == Total(matches, FallbackOf(key, reason));
    }
    forall reason ensures reason in b.fallbacks <==> reason in c.fallbacks {
      assert GetCount(b.fallbacks, reason) == GetCount(c.fallbacks, reason);
    }
    forall reason | reason in b.fallbacks ensures b.fallbacks[reason] == c.fallbacks[reason] {
      assert GetCount(b.fallbacks, reason) == GetCount(c.fallbacks, reason);
    }
    assert b.fallbacks == c.fallbacks;
  }

  lemma DayUnique(d: Day, e: Day, day: string, matches: Matches)
    requires DayHolds(d, day, matches) && DayHolds(e, day, matches)
    ensures d == e
  {
    hide Total;
  }

  lemma InterleavingFree(s: State, t: State, events: seq<Event>, events': seq<Event>)
    requires AssignmentsIn(events) == AssignmentsIn(events') && VerdictsIn(events) == VerdictsIn(events')
    requires IsJoin(s, FirstAssignments(AssignmentsIn(events)), FirstVerdicts(VerdictsIn(events)))
    requires IsJoin(t, FirstAssignments(AssignmentsIn(events')), FirstVerdicts(VerdictsIn(events')))
    ensures s == t
  {
    hide IsJoin;
    JoinUnique(s, t, FirstAssignments(AssignmentsIn(events)), FirstVerdicts(VerdictsIn(events)));
  }

  // ---------- The names of the buckets ----------

  ghost function WithNames(names: map<Key, Names>, a: Assignment, first: map<string, Assignment>): map<Key, Names> {
    if a.id in first || KeyOf(a) in names then names else names[KeyOf(a) := NamesOf(a)]
  }

  /** The names of the first assignment under each key, further rows of an id left out. */
  ghost function FirstNames(list: seq<Assignment>): map<Key, Names> {
    if list == [] then map[]
    else
      var before := list[..|list| - 1];
      WithNames(FirstNames(before), list[|list| - 1], FirstAssignments(before))
  }

  lemma NamesMore(events: seq<Event>, e: Event)
    ensures FirstNames(AssignmentsIn(events + [e])) ==
              (var list := AssignmentsIn(events);
               if e.Assigned? then WithNames(FirstNames(list), e.assignment, FirstAssignments(list))
                 else FirstNames(list))
  {
    hide FirstAssignments, WithNames;
    ListsMore(events, e);
    var list := AssignmentsIn(events);
    assert list + [] == list && (e.Assigned? ==> (list + [e.assignment])[..|list|] == list);
  }

  ghost predicate Shows(names: map<Key, Names>, first: map<string, Assignment>, key: Key)
    requires key in names
  {
    exists id :: id in first && KeyOf(first[id]) == key && names[key] == NamesOf(first[id])
  }

  /** Every bucket shows the names of one of its assignments. */
  lemma {:induction false} NamesShown(list: seq<Assignment>)
    ensures forall key :: key in FirstNames(list) <==> HasAssignment(FirstAssignments(list), key)
    ensures forall key :: key in FirstNames(list) ==> Shows(FirstNames(list), FirstAssignments(list), key)
  {
    hide KeyOf, NamesOf;
    if list != [] {
      var before, a := list[..|list| - 1], list[|list| - 1];
      NamesShown(before);
      var first, first' := FirstAssignments(before), FirstAssignments(list);
      forall key
        ensures HasAssignment(first', key) <==> HasAssignment(first, key) || (a.id !in first && key == KeyOf(a))
      {
        forall id | id in first ensures id in first' && first'[id] == first[id] {}
        assert a.id in first';
      }
      forall key | key in FirstNames(list) ensures Shows(FirstNames(list), first', key) {
        if key in FirstNames(before) {
          var id :| id in first && KeyOf(first[id]) == key && FirstNames(before)[key] == NamesOf(first[id]);
          assert id in first' && first'[id] == first[id];
        } else {
          assert a.id in first' && first'[a.id] == a;
        }
      }
    }
  }

  /** No two assignments of different names share a key. */
  ghost predicate KeysTellApart(first: map<string, Assignment>) {
    forall i, j :: i in first && j in first && KeyOf(first[i]) == KeyOf(first[j]) ==>
      NamesOf(first[i]) == NamesOf(first[j])
  }

  /** Every assignment is counted under its own names exactly when keys tell the names apart. */
  lemma OwnNamesExactly(list: seq<Assignment>)
    ensures var first, names := FirstAssignments(list), FirstNames(list);
            (forall id :: id in first ==> KeyOf(first[id]) in names && names[KeyOf(first[id])] == NamesOf(first[id]))
            <==> KeysTellApart(first)
  {
    hide FirstAssignments, FirstNames, KeyOf, NamesOf;
    NamesShown(list);
    var first, names := FirstAssignments(list), FirstNames(list);
    if KeysTellApart(first) {
      forall id | id in first ensures KeyOf(first[id]) in names && names[KeyOf(first[id])] == NamesOf(first[id]) {
        var key := KeyOf(first[id]);
        assert HasAssignment(first, key) && Shows(names, first, key);
      }
    }
  }

  ghost function NamedAs(names: Names): Assignment -> real { a => One(NamesOf(a) == names) }

  /** And exactly then each bucket counts no assignments but those of its own names. */
  lemma OwnCountsExactly(s: State, first: map<string, Assignment>, verdicts: map<string, Receipt>)
    requires IsJoin(s, first, verdicts)
    ensures (forall id :: id in first ==>
               BucketAt(s.buckets, KeyOf(first[id])).assignments as real == Total(first, NamedAs(NamesOf(first[id]))))
            <==> KeysTellApart(first)
  {
    hide Total, KeyOf, NamesOf, Matched, JoinedOf, PendingOf, DaysHold, BucketKeys, DayKeys;
    forall id | id in first
      ensures BucketAt(s.buckets, KeyOf(first[id])).assignments as real == Total(first, AssignedTo(KeyOf(first[id])))
    {
      assert BucketHolds(BucketAt(s.buckets, KeyOf(first[id])), KeyOf(first[id]), first, Matched(first, verdicts));
    }
    if KeysTellApart(first) {
      forall id | id in first
        ensures Total(first, AssignedTo(KeyOf(first[id]))) == Total(first, NamedAs(NamesOf(first[id])))
      {
        NamesGiveKeys(first, id);
        TotalAtMost(first, AssignedTo(KeyOf(first[id])), NamedAs(NamesOf(first[id])));
        TotalAtMost(first, NamedAs(NamesOf(first[id])), AssignedTo(KeyOf(first[id])));
      }
    } else {
      var i, j :| i in first && j in first && KeyOf(first[i]) == KeyOf(first[j])
        && NamesOf(first[i]) != NamesOf(first[j]);
      NamesGiveKeys(first, i);
      TotalLess(first, NamedAs(NamesOf(first[i])), AssignedTo(KeyOf(first[i])), j);
    }
  }

  lemma NamesGiveKeys(first: map<string, Assignment>, id: string)
    requires id in first
    ensures forall i :: i in first && NamesOf(first[i]) == NamesOf(first[id]) ==> KeyOf(first[i]) == KeyOf(first[id])
  {
    hide Joined, NamesOf;
  }

  lemma {:induction false} TotalAtMost<K(!new), V>(m: map<K, V>, f: V -> real, g: V -> real)
    requires forall k :: k in m ==> f(m[k]) <= g(m[k])
    ensures Total(m, f) <= Total(m, g)
    decreases |m|
  {
    if m != map[] {
      var k :| k in m;
      TotalWithout(m, f, k);
      TotalWithout(m, g, k);
      TotalAtMost(m - {k}, f, g);
    }
  }

  lemma TotalLess<K(!new), V>(m: map<K, V>, f: V -> real, g: V -> real, k: K)
    requires k in m && f(m[k]) < g(m[k]) && forall i :: i in m ==> f(m[i]) <= g(m[i])
    ensures Total(m, f) < Total(m, g)
  {
    hide Total;
    TotalWithout(m, f, k);
    TotalWithout(m, g, k);
    TotalAtMost(m - {k}, f, g);
  }

  lemma PlainNamesTellApart(first: map<string, Assignment>)
    requires forall i :: i in first ==>
               '\0' !in first[i].provider && '\0' !in first[i].model && '\0' !in first[i].taskType
    ensures KeysTellApart(first)
  {
    forall i, j | i in first && j in first && KeyOf(first[i]) == KeyOf(first[j])
      ensures NamesOf(first[i]) == NamesOf(first[j])
    {
      var m, n := NamesOf(first[i]), NamesOf(first[j]);
      SplitOnce(m.provider, m.model + "\0" + (m.taskType + "\0" + m.rule), n.provider,
                n.model + "\0" + (n.taskType + "\0" + n.rule));
      SplitOnce(m.model, m.taskType + "\0" + m.rule, n.model, n.taskType + "\0" + n.rule);
      SplitOnce(m.taskType, m.rule, n.taskType, n.rule);
    }
  }

  /** With a NUL in a name two assignments may share a bucket. */
  lemma NulSharesBucket(a: Assignment, b: Assignment)
    requires NamesOf(a) == Names("p\0m", "n", "t", "r") && NamesOf(b) == Names("p", "m\0n", "t", "r") && a.id != b.id
    ensures !KeysTellApart(map[a.id := a, b.id := b])
  {
    var first := map[a.id := a, b.id := b];
    assert KeyOf(a) == "p\0m\0n\0t\0r" == KeyOf(b);
    assert a.id in first && b.id in first && |a.provider| == 3 && |b.provider| == 1;
  }

  // ---------- Conservation ----------

  /** No id both waits and is assigned; every joined id is assigned. */
  lemma JoinedAreAssigned(s: State, first: map<string, Assignment>, verdicts: map<string, Receipt>)
    requires IsJoin(s, first, verdicts)
    ensures s.pending.Keys !! s.assignments.Keys && s.joined.Keys <= s.assignments.Keys
    ensures s.joined.Keys + s.pending.Keys == verdicts.Keys
  {
    hide BucketsHold, DaysHold, BucketKeys, DayKeys;
  }

  ghost function Spread(keys: set<Key>, matches: Matches, f: Measure): map<Key, real> {
    map key | key in keys :: Total(matches, Part(f, key))
  }

  ghost function BucketResults(): Bucket -> real { (b: Bucket) => b.results as real }
  ghost function BucketTokens(): Bucket -> real { (b: Bucket) => b.tokens }
  ghost function BucketCost(): Bucket -> real { (b: Bucket) => b.costUsd }
  ghost function BucketAssignments(): Bucket -> real { (b: Bucket) => b.assignments as real }
  ghost function BucketOutcomes(success: bool): Bucket -> real {
    (b: Bucket) => (if success then b.successes else b.failures) as real
  }
  ghost function BucketDuration(): Bucket -> real { (b: Bucket) => b.durationMs }
  ghost function BucketUnpriced(): Bucket -> real { (b: Bucket) => b.unpriced as real }

  ghost function Itself(): real -> real { x => x }

  /** Summing by key and then over keys is summing once. */
  lemma {:induction false} SpreadTotal(keys: set<Key>, matches: Matches, f: Measure)
    requires forall id :: id in matches ==> KeyOf(matches[id].assignment) in keys
    ensures Total(Spread(keys, matches, f), Itself()) == Total(matches, f)
    decreases |matches|
  {
    hide Total, Spread;
    if matches == map[] {
      SpreadNothing(keys, matches, f);
    } else {
      var id :| id in matches;
      SpreadTotal(keys, matches - {id}, f);
      SpreadStep(keys, matches, matches - {id}, f, id, KeyOf(matches[id].assignment));
    }
  }

  lemma SpreadNothing(keys: set<Key>, matches: Matches, f: Measure)
    requires matches == map[]
    ensures Total(Spread(keys, matches, f), Itself()) == 0.0 == Total(matches, f)
  {
    AllZero(Spread(keys, matches, f));
  }

  lemma SpreadStep(keys: set<Key>, matches: Matches, rest: Matches, f: Measure, id: string, own: Key)
    requires id in matches && rest == matches - {id} && own == KeyOf(matches[id].assignment) && own in keys
    ensures Total(Spread(keys, matches, f), Itself()) - Total(Spread(keys, rest, f), Itself()) ==
              Total(matches, f) - Total(rest, f)
  {
    hide Total;
    TotalWithout(matches, f, id);
    forall key | key in keys
      ensures Total(matches, Part(f, key)) == Total(rest, Part(f, key)) + if key == own then f(matches[id]) else 0.0
    {
      TotalWithout(matches, Part(f, key), id);
    }
    var more := Total(rest, Part(f, own)) + f(matches[id]);
    assert Spread(keys, matches, f) == Spread(keys, rest, f)[own := more];
    TotalPut(Spread(keys, rest, f), Itself(), own, more);
  }

  lemma {:induction false} AllZero(m: map<Key, real>)
    requires forall k :: k in m ==> m[k] == 0.0
    ensures Total(m, Itself()) == 0.0
    decreases |m|
  {
    if m != map[] {
      var k :| k in m;
      AllZero(m - {k});
      TotalWithout(m, Itself(), k);
    }
  }

  lemma {:induction false} TotalThrough(buckets: map<Key, Bucket>, f: Bucket -> real, g: map<Key, real>)
    requires g.Keys == buckets.Keys && forall k :: k in buckets ==> g[k] == f(buckets[k])
    ensures Total(buckets, f) == Total(g, Itself())
    decreases |buckets|
  {
    if buckets != map[] {
      var k :| k in buckets;
      TotalWithout(buckets, f, k);
      TotalWithout(g, Itself(), k);
      TotalThrough(buckets - {k}, f, g - {k});
    } else {
      assert g == map[];
    }
  }

  lemma {:induction false} CountIsTotal(matches: Matches)
    ensures Total(matches, Each()) == |matches| as real
    decreases |matches|
  {
    if matches != map[] {
      var id :| id in matches;
      TotalWithout(matches, Each(), id);
      CountIsTotal(matches - {id});
      assert |matches - {id}| == |matches| - 1;
    }
  }

  /** The buckets together hold every assignment once and every joined result once, with its outcome, tokens, duration
      and cost. */
  lemma BucketsConserve(s: State, first: map<string, Assignment>, verdicts: map<string, Receipt>)
    requires IsJoin(s, first, verdicts)
    ensures var matches := Matched(first, verdicts);
            && Total(s.buckets, BucketAssignments()) == |s.assignments| as real
            && Total(s.buckets, BucketResults()) == |s.joined| as real
            && Total(s.buckets, BucketOutcomes(true)) == Total(matches, OutcomeIn(true))
            && Total(s.buckets, BucketOutcomes(false)) == Total(matches, OutcomeIn(false))
            && Total(s.buckets, BucketTokens()) == Total(matches, TokensIn())
            && Total(s.buckets, BucketDuration()) == Total(matches, DurationIn())
            && Total(s.buckets, BucketCost()) == Total(matches, CostIn())
            && Total(s.buckets, BucketUnpriced()) == Total(matches, UnpricedIn())
  {
    hide *;
    var matches := Matched(first, verdicts);
    BucketsOf(s, first, verdicts);
    KeysCovered(s, first, verdicts);
    HeldParts(s.buckets, first, matches);
    Conserve(s.buckets, matches, Each(), BucketResults());
    Conserve(s.buckets, matches, OutcomeIn(true), BucketOutcomes(true));
    Conserve(s.buckets, matches, OutcomeIn(false), BucketOutcomes(false));
    Conserve(s.buckets, matches, TokensIn(), BucketTokens());
    Conserve(s.buckets, matches, DurationIn(), BucketDuration());
    Conserve(s.buckets, matches, CostIn(), BucketCost());
    Conserve(s.buckets, matches, UnpricedIn(), BucketUnpriced());
    CountIsTotal(matches);
    MatchedSize(s, first, verdicts);
    AssignmentsConserve(s.buckets, first, matches);
  }

  lemma BucketsOf(s: State, first: map<string, Assignment>, verdicts: map<string, Receipt>)
    requires IsJoin(s, first, verdicts)
    ensures s.assignments == first && s.joined == JoinedOf(first, verdicts) && BucketKeys(s.buckets, first)
    ensures forall k :: k in s.buckets ==> BucketHolds(s.buckets[k], k, first, Matched(first, verdicts))
  {
    hide DaysHold, DayKeys, BucketHolds, BucketKeys, Matched, JoinedOf, PendingOf;
    forall k | k in s.buckets ensures BucketHolds(s.buckets[k], k, first, Matched(first, verdicts)) {
      assert BucketHolds(BucketAt(s.buckets, k), k, first, Matched(first, verdicts));
    }
  }

  const NO_RECEIPT: Receipt := Receipt(None, 0.0, false, None, None, Unstated, None, false, None)

  /** The assignments alone, each as a match. */
  ghost function Alone(first: map<string, Assignment>): Matches { map id | id in first :: Match(first[id], NO_RECEIPT) }

  lemma {:induction false} AssignedAlone(first: map<string, Assignment>, key: Key)
    ensures Total(first, AssignedTo(key)) == Total(Alone(first), Part(Each(), key))
    decreases |first|
  {
    hide Total, KeyOf;
    if first == map[] {
      NothingTotal(first, AssignedTo(key));
      NothingTotal(Alone(first), Part(Each(), key));
    } else {
      var id :| id in first;
      AssignedAlone(first - {id}, key);
      TotalWithout(first, AssignedTo(key), id);
      TotalWithout(Alone(first), Part(Each(), key), id);
      assert Alone(first) - {id} == Alone(first - {id});
    }
  }

  lemma NothingTotal<K(!new), V>(m: map<K, V>, f: V -> real)
    requires m == map[]
    ensures Total(m, f) == 0.0
  {
  }

  lemma AssignmentsConserve(buckets: map<Key, Bucket>, first: map<string, Assignment>, matches: Matches)
    requires BucketKeys(buckets, first) && forall k :: k in buckets ==> BucketHolds(buckets[k], k, first, matches)
    ensures Total(buckets, BucketAssignments()) == |first| as real
  {
    hide Total, KeyOf;
    var alone := Alone(first);
    forall k | k in buckets ensures BucketAssignments()(buckets[k]) == Total(alone, Part(Each(), k)) {
      AssignedAlone(first, k);
    }
    forall id | id in alone ensures KeyOf(alone[id].assignment) in buckets {
      assert HasAssignment(first, KeyOf(first[id]));
    }
    Conserve(buckets, alone, Each(), BucketAssignments());
    CountIsTotal(alone);
    assert alone.Keys == first.Keys;
    assert |alone| == |alone.Keys| && |first| == |first.Keys|;
  }

  lemma KeysCovered(s: State, first: map<string, Assignment>, verdicts: map<string, Receipt>)
    requires BucketKeys(s.buckets, first)
    ensures forall id :: id in Matched(first, verdicts) ==> KeyOf(Matched(first, verdicts)[id].assignment) in s.buckets
  {
    forall id | id in Matched(first, verdicts) ensures KeyOf(Matched(first, verdicts)[id].assignment) in s.buckets {
      assert HasAssignment(first, KeyOf(first[id]));
    }
  }

  lemma HeldParts(buckets: map<Key, Bucket>, first: map<string, Assignment>, matches: Matches)
    requires forall k :: k in buckets ==> BucketHolds(buckets[k], k, first, matches)
    ensures forall k :: k in buckets ==> BucketResults()(buckets[k]) == Total(matches, Part(Each(), k))
    ensures forall k :: k in buckets ==> BucketTokens()(buckets[k]) == Total(matches, Part(TokensIn(), k))
    ensures forall k :: k in buckets ==> BucketCost()(buckets[k]) == Total(matches, Part(CostIn(), k))
    ensures forall k :: k in buckets ==> BucketOutcomes(true)(buckets[k]) == Total(matches, Part(OutcomeIn(true), k))
    ensures forall k :: k in buckets ==> BucketOutcomes(false)(buckets[k]) == Total(matches, Part(OutcomeIn(false), k))
    ensures forall k :: k in buckets ==> BucketDuration()(buckets[k]) == Total(matches, Part(DurationIn(), k))
    ensures forall k :: k in buckets ==> BucketUnpriced()(buckets[k]) == Total(matches, Part(UnpricedIn(), k))
  {
    hide Total;
  }

  lemma Conserve(buckets: map<Key, Bucket>, matches: Matches, f: Measure, g: Bucket -> real)
    requires forall id :: id in matches ==> KeyOf(matches[id].assignment) in buckets
    requires forall k :: k in buckets ==> g(buckets[k]) == Total(matches, Part(f, k))
    ensures Total(buckets, g) == Total(matches, f)
  {
    hide Total;
    SpreadTotal(buckets.Keys, matches, f);
    TotalThrough(buckets, g, Spread(buckets.Keys, matches, f));
  }

  lemma MatchedSize(s: State, first: map<string, Assignment>, verdicts: map<string, Receipt>)
    requires s.joined == JoinedOf(first, verdicts)
    ensures |Matched(first, verdicts)| == |s.joined|
  {
    var matches := Matched(first, verdicts);
    assert matches.Keys == s.joined.Keys;
    assert |matches| == |matches.Keys| && |s.joined| == |s.joined.Keys|;
  }
}
