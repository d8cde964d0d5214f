/** Coverage counters derived from the join of assignments and terminal results. */
module BenchmarkEvidence {
  import opened Wrappers
  import opened RoutingJoin

  datatype Field =
    | TaskClass | Risk | RequestedModel | SelectedModel | Provider | Effort
    | OutcomeField | ServedModel | Tokens | Duration | BillingMode | Cost

  const ASSIGNMENT_FIELDS: seq<Field> := [TaskClass, Risk, RequestedModel, SelectedModel, Provider, Effort]
  const TERMINAL_FIELDS: seq<Field> := [OutcomeField, ServedModel, Tokens, Duration, BillingMode, Cost]

  datatype Coverage = Coverage(denominator: nat, observed: nat, noTerminal: nat, notRecorded: nat)

  datatype Evidence = Evidence(coverage: map<Field, Coverage>, joined: nat, withoutTerminal: nat, success: nat,
                               failure: nat, unavailable: nat, requestedDiffers: nat, servedDiffers: nat, api: nat,
                               subscription: nat, unclassified: nat, apiUsd: real, subscriptionUsd: real)

  /** What the evidence is derived from; `space` says which characters are blank. */
  datatype Input = Input(assignments: map<string, Assignment>, joined: map<string, Receipt>, invalidAssignmentRows: nat,
                         space: char -> bool)

  // ---------- What each counter counts ----------

  predicate Present(space: char -> bool, s: Option<string>) {
    s.Some? && exists i :: 0 <= i < |s.value| && !space(s.value[i])
  }

  predicate IsAssignmentField(f: Field) { f in ASSIGNMENT_FIELDS }

  predicate AssignmentHas(space: char -> bool, a: Assignment, f: Field) {
    match f
    case TaskClass => Present(space, a.taskClass)
    case Risk => Present(space, a.risk)
    case RequestedModel => Present(space, a.requestedModel)
    case SelectedModel => Present(space, Some(a.model))
    case Provider => Present(space, Some(a.provider))
    case Effort => Present(space, a.effort)
    case _ => false
  }

  predicate NonNegative(x: Option<real>) { x.Some? && x.value >= 0.0 }

  predicate ReceiptHas(space: char -> bool, r: Receipt, f: Field) {
    match f
    case OutcomeField => r.success.Some?
    case ServedModel => Present(space, r.servedModel)
    case Tokens => r.tokensMeasured
    case Duration => NonNegative(r.durationMs)
    case BillingMode => r.billing != Unstated
    case Cost => NonNegative(r.costUsd)
    case _ => false
  }

  /** A property of an assigned id. */
  type About = string -> bool

  ghost function Count(ids: set<string>, p: About): nat { |set id | id in ids && p(id)| }

  ghost function HasTerminal(input: Input): About { id => id in input.joined }

  ghost function Observes(input: Input, f: Field): About {
    if IsAssignmentField(f) then id => id in input.assignments && AssignmentHas(input.space, input.assignments[id], f)
    else id => id in input.joined && ReceiptHas(input.space, input.joined[id], f)
  }

  ghost function Misses(input: Input, f: Field): About {
    id => !Observes(input, f)(id) && (IsAssignmentField(f) || id in input.joined)
  }

  ghost function Lacks(input: Input, f: Field): About { id => !IsAssignmentField(f) && id !in input.joined }

  /** The coverage of a field over some of the assignments. */
  ghost function CoverageOf(input: Input, f: Field, ids: set<string>): Coverage {
    var invalid := if IsAssignmentField(f) then input.invalidAssignmentRows else 0;
    Coverage(|input.assignments| + invalid, Count(ids, Observes(input, f)), Count(ids, Lacks(input, f)),
             Count(ids, Misses(input, f)) + invalid)
  }

  ghost function Succeeds(input: Input, success: bool): About {
    id => id in input.joined && input.joined[id].success == Some(success)
  }

  ghost function NoOutcome(input: Input): About { id => id !in input.joined || input.joined[id].success.None? }
  ghost function NoTerminal(input: Input): About { id => id !in input.joined }

  ghost function Requests(input: Input): About {
    id => id in input.assignments && RequestDiffers(input.space, input.assignments[id])
  }

  ghost function Serves(input: Input): About {
    id => id in input.assignments && id in input.joined
      && ServedDiffers(input.space, input.assignments[id], input.joined[id])
  }

  predicate RequestDiffers(space: char -> bool, a: Assignment) {
    Present(space, a.requestedModel) && Present(space, Some(a.model)) && a.requestedModel.value != a.model
  }

  predicate ServedDiffers(space: char -> bool, a: Assignment, r: Receipt) {
    Present(space, r.servedModel) && Present(space, Some(a.model)) && r.servedModel.value != a.model
  }

  ghost function Priced(input: Input, billing: Billing): About {
    id => id in input.joined && NonNegative(input.joined[id].costUsd) && input.joined[id].billing == billing
  }

  /** The evidence over some of the assignments, by definition. */
  ghost predicate Counts(e: Evidence, input: Input, ids: set<string>) {
    Covers(e.coverage, input, ids) && Tallies(e, input, ids) && Accounts(e, input, ids)
  }

  ghost predicate Covers(coverage: map<Field, Coverage>, input: Input, ids: set<string>) {
    forall f :: f in coverage && coverage[f] == CoverageOf(input, f, ids)
  }

  ghost predicate Tallies(e: Evidence, input: Input, ids: set<string>) {
    && e.joined == Count(ids, HasTerminal(input)) && e.withoutTerminal == Count(ids, NoTerminal(input))
    && e.success == Count(ids, Succeeds(input, true)) && e.failure == Count(ids, Succeeds(input, false))
    && e.unavailable == Count(ids, NoOutcome(input))
    && e.requestedDiffers == Count(ids, Requests(input)) && e.servedDiffers == Count(ids, Serves(input))
    && e.api == Count(ids, Priced(input, Api)) && e.subscription == Count(ids, Priced(input, Subscription))
    && e.unclassified == Count(ids, Priced(input, Unstated))
  }

  // ---------- Dollars ----------

  /** Rounded to millionths, halves up. */
  function Usd(x: real): real { (x * 1000000.0 + 0.5).Floor as real / 1000000.0 }

  lemma UsdNear(x: real)
    ensures -0.0000005 <= Usd(x) - x <= 0.0000005
  {
    var n := (x * 1000000.0 + 0.5).Floor as real;
    assert n <= x * 1000000.0 + 0.5 < n + 1.0;
    assert n / 1000000.0 * 1000000.0 == n;
  }

  ghost function Costs(input: Input, ids: set<string>, billing: Billing): map<string, real> {
    map id | id in ids && Priced(input, billing)(id) :: input.joined[id].costUsd.value
  }

  /** What the priced rows of one kind cost together, exactly. */
  ghost function Spent(input: Input, ids: set<string>, billing: Billing): real {
    Total(Costs(input, ids, billing), RoutingJoin.Itself())
  }

  /** Off by at most half a millionth for each row. */
  predicate Near(total: real, exact: real, rows: nat) {
    -(0.0000005 * rows as real) <= total - exact <= 0.0000005 * rows as real
  }

  ghost predicate Accounts(e: Evidence, input: Input, ids: set<string>) {
    Near(e.apiUsd, Spent(input, ids, Api), e.api)
      && Near(e.subscriptionUsd, Spent(input, ids, Subscription), e.subscription)
  }

  lemma SpentMore(input: Input, ids: set<string>, id: string, billing: Billing)
    requires id !in ids
    ensures Spent(input, ids + {id}, billing) ==
              Spent(input, ids, billing) + if Priced(input, billing)(id) then input.joined[id].costUsd.value else 0.0
  {
    hide Total;
    var before, after := Costs(input, ids, billing), Costs(input, ids + {id}, billing);
    if Priced(input, billing)(id) {
      var cost := input.joined[id].costUsd.value;
      assert after == before[id := cost];
      TotalPut(before, RoutingJoin.Itself(), id, cost);
    } else {
      assert after == before;
    }
  }

  lemma NearMore(total: real, exact: real, rows: nat, cost: real)
    requires Near(total, exact, rows)
    ensures Near(Usd(total + cost), exact + cost, rows + 1)
  {
    hide Usd;
    UsdNear(total + cost);
  }

  lemma AccountsMore(e: Evidence, e': Evidence, input: Input, ids: set<string>, id: string)
    requires id !in ids && Accounts(e, input, ids)
    requires if Priced(input, Api)(id)
             then e'.api == e.api + 1 && e'.apiUsd == Usd(e.apiUsd + input.joined[id].costUsd.value)
             else e'.api == e.api && e'.apiUsd == e.apiUsd
    requires if Priced(input, Subscription)(id)
             then e'.subscription == e.subscription + 1
                  && e'.subscriptionUsd == Usd(e.subscriptionUsd + input.joined[id].costUsd.value)
             else e'.subscription == e.subscription && e'.subscriptionUsd == e.subscriptionUsd
    ensures Accounts(e', input, ids + {id})
  {
    hide Usd, Near, Spent;
    SpentMore(input, ids, id, Api);
    SpentMore(input, ids, id, Subscription);
    if Priced(input, Api)(id) {
      NearMore(e.apiUsd, Spent(input, ids, Api), e.api, input.joined[id].costUsd.value);
    }
    if Priced(input, Subscription)(id) {
      NearMore(e.subscriptionUsd, Spent(input, ids, Subscription), e.subscription, input.joined[id].costUsd.value);
    }
  }

  // ---------- Counting one more ----------

  lemma CountMore(ids: set<string>, id: string, p: About)
    requires id !in ids
    ensures Count(ids + {id}, p) == Count(ids, p) + if p(id) then 1 else 0
  {
    var before, after := set i | i in ids && p(i), set i | i in ids + {id} && p(i);
    assert after == if p(id) then before + {id} else before;
  }

  lemma CountNone(p: About)
    ensures Count({}, p) == 0
  {
    assert (set id | id in {} && p(id)) == {};
  }

  lemma CountSplit(ids: set<string>, p: About, q: About, both: About)
    requires forall id :: id in ids ==> !(p(id) && q(id)) && (both(id) <==> p(id) || q(id))
    ensures Count(ids, p) + Count(ids, q) == Count(ids, both)
  {
    var a, b := set id | id in ids && p(id), set id | id in ids && q(id);
    assert (set id | id in ids && both(id)) == a + b;
    assert a !! b;
  }

  lemma CountEvery(ids: set<string>, p: About)
    requires forall id :: id in ids ==> p(id)
    ensures Count(ids, p) == |ids|
  {
    assert (set id | id in ids && p(id)) == ids;
  }

  function Bump(c: Coverage, observed: bool, lacking: bool): Coverage {
    if observed then c.(observed := c.observed + 1)
    else if lacking then c.(noTerminal := c.noTerminal + 1)
    else c.(notRecorded := c.notRecorded + 1)
  }

  lemma CoverageMore(input: Input, f: Field, ids: set<string>, id: string)
    requires id !in ids
    ensures CoverageOf(input, f, ids + {id}) ==
              Bump(CoverageOf(input, f, ids), Observes(input, f)(id), Lacks(input, f)(id))
  {
    hide Count, AssignmentHas, ReceiptHas;
    CountMore(ids, id, Observes(input, f));
    CountMore(ids, id, Lacks(input, f));
    CountMore(ids, id, Misses(input, f));
  }

  // ---------- Deriving ----------

  /** One more assignment on the counters of the given fields. */
  method BumpAll(before: map<Field, Coverage>, fields: seq<Field>, observed: Field -> bool, lacking: bool)
    returns (coverage: map<Field, Coverage>)
    requires forall f :: f in before
    requires forall i, j :: 0 <= i < j < |fields| ==> fields[i] != fields[j]
    ensures forall f :: f in coverage
    ensures forall f :: coverage[f] == if f in fields then Bump(before[f], observed(f), lacking) else before[f]
  {
    hide Bump;
    coverage := before;
    for i := 0 to |fields|
      invariant forall f :: f in coverage
      invariant forall f :: coverage[f] == if f in fields[..i] then Bump(before[f], observed(f), lacking) else before[f]
    {
      var field := fields[i];
      coverage := coverage[field := Bump(coverage[field], observed(field), lacking)];
    }
    assert fields[..|fields|] == fields;
  }

  lemma FieldsPart(f: Field)
    ensures f in ASSIGNMENT_FIELDS <==> f !in TERMINAL_FIELDS
    ensures forall i, j :: 0 <= i < j < |ASSIGNMENT_FIELDS| ==> ASSIGNMENT_FIELDS[i] != ASSIGNMENT_FIELDS[j]
    ensures forall i, j :: 0 <= i < j < |TERMINAL_FIELDS| ==> TERMINAL_FIELDS[i] != TERMINAL_FIELDS[j]
  {
    match f
    case TaskClass => assert ASSIGNMENT_FIELDS[0] == f;
    case Risk => assert ASSIGNMENT_FIELDS[1] == f;
    case RequestedModel => assert ASSIGNMENT_FIELDS[2] == f;
    case SelectedModel => assert ASSIGNMENT_FIELDS[3] == f;
    case Provider => assert ASSIGNMENT_FIELDS[4] == f;
    case Effort => assert ASSIGNMENT_FIELDS[5] == f;
    case OutcomeField => assert TERMINAL_FIELDS[0] == f;
    case ServedModel => assert TERMINAL_FIELDS[1] == f;
    case Tokens => assert TERMINAL_FIELDS[2] == f;
    case Duration => assert TERMINAL_FIELDS[3] == f;
    case BillingMode => assert TERMINAL_FIELDS[4] == f;
    case Cost => assert TERMINAL_FIELDS[5] == f;
  }

  /** The coverage with one more assignment, its fields and those of its terminal result. */
  method CoverOne(before: map<Field, Coverage>, input: Input, id: string, ghost ids: set<string>)
    returns (coverage: map<Field, Coverage>)
    requires id in input.assignments && id !in ids && Covers(before, input, ids)
    ensures Covers(coverage, input, ids + {id})
  {
    hide Bump, CoverageOf, AssignmentHas, ReceiptHas;
    FieldsPart(TaskClass);
    var a, space := input.assignments[id], input.space;
    coverage := BumpAll(before, ASSIGNMENT_FIELDS, f => AssignmentHas(space, a, f), false);
    if id in input.joined {
      var r := input.joined[id];
      coverage := BumpAll(coverage, TERMINAL_FIELDS, f => ReceiptHas(space, r, f), false);
    } else {
      coverage := BumpAll(coverage, TERMINAL_FIELDS, f => false, true);
    }
    forall f ensures coverage[f] == CoverageOf(input, f, ids + {id}) {
      FieldsPart(f);
      CoverageMore(input, f, ids, id);
    }
  }

  function Plus(n: nat, more: bool): nat { if more then n + 1 else n }

  lemma TalliesMore(e: Evidence, e': Evidence, input: Input, ids: set<string>, id: string)
    requires id !in ids && Tallies(e, input, ids)
    requires && e'.joined == Plus(e.joined, HasTerminal(input)(id))
             && e'.withoutTerminal == Plus(e.withoutTerminal, NoTerminal(input)(id))
             && e'.success == Plus(e.success, Succeeds(input, true)(id))
             && e'.failure == Plus(e.failure, Succeeds(input, false)(id))
             && e'.unavailable == Plus(e.unavailable, NoOutcome(input)(id))
             && e'.requestedDiffers == Plus(e.requestedDiffers, Requests(input)(id))
             && e'.servedDiffers == Plus(e.servedDiffers, Serves(input)(id))
             && e'.api == Plus(e.api, Priced(input, Api)(id))
             && e'.subscription == Plus(e.subscription, Priced(input, Subscription)(id))
             && e'.unclassified == Plus(e.unclassified, Priced(input, Unstated)(id))
    ensures Tallies(e', input, ids + {id})
  {
    hide Count, HasTerminal, NoTerminal, Succeeds, NoOutcome, Requests, Serves, Priced;
    CountMore(ids, id, HasTerminal(input));
    CountMore(ids, id, NoTerminal(input));
    CountMore(ids, id, Succeeds(input, true));
    CountMore(ids, id, Succeeds(input, false));
    CountMore(ids, id, NoOutcome(input));
    CountMore(ids, id, Requests(input));
    CountMore(ids, id, Serves(input));
    CountMore(ids, id, Priced(input, Api));
    CountMore(ids, id, Priced(input, Subscription));
    CountMore(ids, id, Priced(input, Unstated));
  }

  lemma AboutOne(input: Input, id: string)
    requires id in input.assignments
    ensures Requests(input)(id) <==> RequestDiffers(input.space, input.assignments[id])
    ensures HasTerminal(input)(id) <==> id in input.joined
    ensures NoTerminal(input)(id) <==> id !in input.joined
    ensures id !in input.joined ==>
              && NoOutcome(input)(id) && !Succeeds(input, true)(id) && !Succeeds(input, false)(id) && !Serves(input)(id)
              && !Priced(input, Api)(id) && !Priced(input, Subscription)(id) && !Priced(input, Unstated)(id)
    ensures id in input.joined ==>
              var r := input.joined[id];
              && (NoOutcome(input)(id) <==> r.success == None)
              && (Succeeds(input, true)(id) <==> r.success == Some(true))
              && (Succeeds(input, false)(id) <==> r.success == Some(false))
              && (Serves(input)(id) <==> ServedDiffers(input.space, input.assignments[id], r))
              && (Priced(input, Api)(id) <==> NonNegative(r.costUsd) && r.billing == Api)
              && (Priced(input, Subscription)(id) <==> NonNegative(r.costUsd) && r.billing == Subscription)
              && (Priced(input, Unstated)(id) <==> NonNegative(r.costUsd) && r.billing == Unstated)
  {
    hide RequestDiffers, ServedDiffers, NonNegative;
  }

  method TallyOne(before: Evidence, input: Input, id: string, ghost ids: set<string>) returns (e: Evidence)
    requires id in input.assignments && id !in ids && Tallies(before, input, ids) && Accounts(before, input, ids)
    ensures Tallies(e, input, ids + {id}) && Accounts(e, input, ids + {id}) && e.coverage == before.coverage
  {
    hide Tallies, Accounts, Usd, HasTerminal, NoTerminal, Succeeds, NoOutcome, Requests, Serves, Priced, RequestDiffers,
         ServedDiffers, NonNegative;
    AboutOne(input, id);
    e := before;
    var a := input.assignments[id];
    if RequestDiffers(input.space, a) { e := e.(requestedDiffers := e.requestedDiffers + 1); }
    if id !in input.joined {
      e := e.(withoutTerminal := e.withoutTerminal + 1, unavailable := e.unavailable + 1);
      TalliesMore(before, e, input, ids, id);
      AccountsMore(before, e, input, ids, id);
      return;
    }
    var r := input.joined[id];
    e := e.(joined := e.joined + 1);
    match r.success {
      case Some(true) => e := e.(success := e.success + 1);
      case Some(false) => e := e.(failure := e.failure + 1);
      case None => e := e.(unavailable := e.unavailable + 1);
    }
    if ServedDiffers(input.space, a, r) { e := e.(servedDiffers := e.servedDiffers + 1); }
    if NonNegative(r.costUsd) {
      CostStated(r);
      match r.billing
      case Api => e := e.(api := e.api + 1, apiUsd := Usd(e.apiUsd + r.costUsd.value));
      case Subscription =>
        e := e.(subscription := e.subscription + 1, subscriptionUsd := Usd(e.subscriptionUsd + r.costUsd.value));
      case Unstated => e := e.(unclassified := e.unclassified + 1);
    }
    TalliesMore(before, e, input, ids, id);
    AccountsMore(before, e, input, ids, id);
  }

  lemma CostStated(r: Receipt)
    requires NonNegative(r.costUsd)
    ensures r.costUsd.Some?
  {
  }

  /** The evidence of all the assignments. */
  method Derive(input: Input) returns (e: Evidence)
    ensures Counts(e, input, input.assignments.Keys)
  {
    hide *;
    e := Blank(input);
    var todo := input.assignments.Keys;
    ghost var seen: set<string> := {};
    while todo != {}
      invariant todo <= input.assignments.Keys && seen == input.assignments.Keys - todo && seen !! todo
      invariant Covers(e.coverage, input, seen) && Tallies(e, input, seen) && Accounts(e, input, seen)
      decreases |todo|
    {
      var id :| id in todo;
      var coverage := CoverOne(e.coverage, input, id, seen);
      e := TallyOne(e, input, id, seen);
      SameTallies(e, coverage, input, seen + {id});
      e := e.(coverage := coverage);
      todo, seen := todo - {id}, seen + {id};
    }
    assert seen == input.assignments.Keys;
    AsCounts(e, input, seen);
  }

  lemma SameTallies(e: Evidence, coverage: map<Field, Coverage>, input: Input, ids: set<string>)
    requires Tallies(e, input, ids) && Accounts(e, input, ids)
    ensures Tallies(e.(coverage := coverage), input, ids) && Accounts(e.(coverage := coverage), input, ids)
  {
    hide Count, Near, Spent;
  }

  lemma AsCounts(e: Evidence, input: Input, ids: set<string>)
    requires Covers(e.coverage, input, ids) && Tallies(e, input, ids) && Accounts(e, input, ids)
    ensures Counts(e, input, ids)
  {
    hide Covers, Tallies, Accounts;
  }

  method Blank(input: Input) returns (e: Evidence)
    ensures Covers(e.coverage, input, {}) && Tallies(e, input, {}) && Accounts(e, input, {})
  {
    var n, invalid := |input.assignments|, input.invalidAssignmentRows;
    var forAssignment, forTerminal := Coverage(n + invalid, 0, 0, invalid), Coverage(n, 0, 0, 0);
    var coverage := map[
      TaskClass := forAssignment, Risk := forAssignment, RequestedModel := forAssignment,
      SelectedModel := forAssignment, Provider := forAssignment, Effort := forAssignment, OutcomeField := forTerminal,
      ServedModel := forTerminal, Tokens := forTerminal, Duration := forTerminal, BillingMode := forTerminal,
      Cost := forTerminal];
    e := Evidence(coverage, 0, 0, 0, 0, 0, 0, 0, 0, 0, 0, 0.0, 0.0);
    forall f ensures f in coverage && coverage[f] == if f in ASSIGNMENT_FIELDS then forAssignment else forTerminal {
      FieldsPart(f);
      match f {
        case TaskClass => case Risk => case RequestedModel => case SelectedModel => case Provider => case Effort =>
        case OutcomeField => case ServedModel => case Tokens => case Duration => case BillingMode => case Cost =>
      }
    }
    NothingCovered(coverage, input);
    NothingTallied(e, input);
    NothingSpent(e, input);
  }

  lemma NothingSpent(e: Evidence, input: Input)
    requires e.api == 0 && e.subscription == 0 && e.apiUsd == 0.0 && e.subscriptionUsd == 0.0
    ensures Accounts(e, input, {})
  {
    assert Costs(input, {}, Api) == map[] && Costs(input, {}, Subscription) == map[];
  }

  lemma NothingCovered(coverage: map<Field, Coverage>, input: Input)
    requires forall f :: f in coverage
    requires forall f :: coverage[f] == if f in ASSIGNMENT_FIELDS
               then Coverage(|input.assignments| + input.invalidAssignmentRows, 0, 0, input.invalidAssignmentRows)
               else Coverage(|input.assignments|, 0, 0, 0)
    ensures Covers(coverage, input, {})
  {
    hide Count, Observes, Lacks, Misses;
    forall f ensures coverage[f] == CoverageOf(input, f, {}) {
      CountNone(Observes(input, f));
      CountNone(Lacks(input, f));
      CountNone(Misses(input, f));
    }
  }

  lemma NothingTallied(e: Evidence, input: Input)
    requires e == Evidence(e.coverage, 0, 0, 0, 0, 0, 0, 0, 0, 0, 0, 0.0, 0.0)
    ensures Tallies(e, input, {})
  {
    hide Count, HasTerminal, NoTerminal, Succeeds, NoOutcome, Requests, Serves, Priced;
    forall p: About ensures Count({}, p) == 0 { CountNone(p); }
  }

  // ---------- What the counters promise together ----------

  /** Observed, without a terminal and not recorded make up each denominator. */
  lemma CoverageAddsUp(e: Evidence, input: Input, f: Field)
    requires Counts(e, input, input.assignments.Keys)
    ensures var c := e.coverage[f]; c.observed + c.noTerminal + c.notRecorded == c.denominator
    ensures e.coverage[f].denominator == |input.assignments|
            + if IsAssignmentField(f) then input.invalidAssignmentRows else 0
  {
    hide Count, Observes, Misses, Lacks;
    assert e.coverage[f] == CoverageOf(input, f, input.assignments.Keys);
    FieldSplit(input, f, input.assignments.Keys);
  }

  lemma FieldSplit(input: Input, f: Field, ids: set<string>)
    ensures Count(ids, Observes(input, f)) + Count(ids, Misses(input, f)) + Count(ids, Lacks(input, f)) == |ids|
  {
    hide Count, AssignmentHas, ReceiptHas;
    var recorded: About := id => Observes(input, f)(id) || Misses(input, f)(id);
    var all: About := id => true;
    CountSplit(ids, Observes(input, f), Misses(input, f), recorded);
    CountSplit(ids, recorded, Lacks(input, f), all);
    CountEvery(ids, all);
  }

  /** Priced rows split exactly by how they were billed. */
  lemma CostRowsSplit(e: Evidence, input: Input)
    requires Counts(e, input, input.assignments.Keys)
    ensures e.api + e.subscription + e.unclassified == e.coverage[Cost].observed
  {
    hide Count, Observes, Priced, HasTerminal, NoTerminal, Succeeds, NoOutcome, Requests, Serves;
    assert e.coverage[Cost] == CoverageOf(input, Cost, input.assignments.Keys);
    BillingSplit(input, input.assignments.Keys);
  }

  lemma BillingSplit(input: Input, ids: set<string>)
    ensures Count(ids, Priced(input, Api)) + Count(ids, Priced(input, Subscription))
            + Count(ids, Priced(input, Unstated)) ==
              Count(ids, Observes(input, Cost))
  {
    hide Count;
    var billed: About := id => Priced(input, Api)(id) || Priced(input, Subscription)(id);
    FieldsPart(Cost);
    CountSplit(ids, Priced(input, Api), Priced(input, Subscription), billed);
    CountSplit(ids, billed, Priced(input, Unstated), Observes(input, Cost));
  }

  /** Every assignment has one outcome, and is with or without a terminal result. */
  lemma OutcomesAddUp(e: Evidence, input: Input)
    requires Counts(e, input, input.assignments.Keys)
    ensures e.success + e.failure + e.unavailable == |input.assignments| == e.joined + e.withoutTerminal
  {
    hide Count, Covers, Succeeds, NoOutcome, HasTerminal, NoTerminal, Requests, Serves, Priced;
    OutcomeSplit(input, input.assignments.Keys);
    TerminalSplit(input, input.assignments.Keys);
  }

  lemma OutcomeSplit(input: Input, ids: set<string>)
    ensures Count(ids, Succeeds(input, true)) + Count(ids, Succeeds(input, false)) + Count(ids, NoOutcome(input)) ==
              |ids|
  {
    hide Count;
    var decided: About := id => Succeeds(input, true)(id) || Succeeds(input, false)(id);
    var all: About := id => true;
    CountSplit(ids, Succeeds(input, true), Succeeds(input, false), decided);
    forall id ensures !(decided(id) && NoOutcome(input)(id)) && (decided(id) || NoOutcome(input)(id)) {
      if id in input.joined {
        match input.joined[id].success
        case None =>
        case Some(b) =>
      }
    }
    CountSplit(ids, decided, NoOutcome(input), all);
    CountEvery(ids, all);
  }

  lemma TerminalSplit(input: Input, ids: set<string>)
    ensures Count(ids, HasTerminal(input)) + Count(ids, NoTerminal(input)) == |ids|
  {
    hide Count;
    var all: About := id => true;
    CountSplit(ids, HasTerminal(input), NoTerminal(input), all);
    CountEvery(ids, all);
  }

  // ---------- From the ledger ----------

  /** The terminal evidence of an id: its attempt if there is one, else its verdict. */
  ghost predicate IsTerminal(r: Receipt, id: string, verdicts: map<string, Receipt>, attempts: map<string, Receipt>) {
    if id in attempts then r == attempts[id] else id in verdicts && r == verdicts[id]
  }

  /** Terminal evidence split by whether its assignment is known. */
  ghost predicate Gathered(joined: map<string, Receipt>, unmatched: map<string, Receipt>,
                           first: map<string, Assignment>, verdicts: map<string, Receipt>,
                           attempts: map<string, Receipt>)
  {
    && (forall id :: id in joined <==> id in first && (id in verdicts || id in attempts))
    && (forall id :: id in unmatched <==> id !in first && (id in verdicts || id in attempts))
    && (forall id :: id in joined ==> IsTerminal(joined[id], id, verdicts, attempts))
    && (forall id :: id in unmatched ==> IsTerminal(unmatched[id], id, verdicts, attempts))
  }

  method Gather(s: State, attempts: map<string, Receipt>, ghost first: map<string, Assignment>,
                ghost verdicts: map<string, Receipt>)
    returns (joined: map<string, Receipt>, unmatched: map<string, Receipt>)
    requires IsJoin(s, first, verdicts)
    ensures Gathered(joined, unmatched, first, verdicts, attempts)
  {
    hide *;
    var all := s.joined + s.pending + attempts;
    AllTerminals(s, attempts, first, verdicts, all);
    joined, unmatched := Partition(all, s.assignments);
    AsGathered(joined, unmatched, all, first, verdicts, attempts);
  }

  lemma AllTerminals(s: State, attempts: map<string, Receipt>, first: map<string, Assignment>,
                     verdicts: map<string, Receipt>, all: map<string, Receipt>)
    requires IsJoin(s, first, verdicts) && all == s.joined + s.pending + attempts
    ensures s.assignments == first
    ensures forall id :: id in all <==> id in verdicts || id in attempts
    ensures forall id :: id in all ==> IsTerminal(all[id], id, verdicts, attempts)
  {
    hide BucketsHold, DaysHold, BucketKeys, DayKeys;
  }

  method Partition(all: map<string, Receipt>, assignments: map<string, Assignment>)
    returns (joined: map<string, Receipt>, unmatched: map<string, Receipt>)
    ensures forall id :: id in joined <==> id in all && id in assignments
    ensures forall id :: id in unmatched <==> id in all && id !in assignments
    ensures forall id :: id in joined ==> joined[id] == all[id]
    ensures forall id :: id in unmatched ==> unmatched[id] == all[id]
  {
    joined, unmatched := map[], map[];
    var todo := all.Keys;
    while todo != {}
      invariant todo <= all.Keys
      invariant forall id :: id in joined <==> id in all && id !in todo && id in assignments
      invariant forall id :: id in unmatched <==> id in all && id !in todo && id !in assignments
      invariant forall id :: id in joined ==> joined[id] == all[id]
      invariant forall id :: id in unmatched ==> unmatched[id] == all[id]
      decreases |todo|
    {
      var id :| id in todo;
      if id in assignments { joined := joined[id := all[id]]; } else { unmatched := unmatched[id := all[id]]; }
      todo := todo - {id};
    }
  }

  lemma AsGathered(joined: map<string, Receipt>, unmatched: map<string, Receipt>, all: map<string, Receipt>,
                   first: map<string, Assignment>, verdicts: map<string, Receipt>, attempts: map<string, Receipt>)
    requires forall id :: id in all <==> id in verdicts || id in attempts
    requires forall id :: id in all ==> IsTerminal(all[id], id, verdicts, attempts)
    requires forall id :: id in joined <==> id in all && id in first
    requires forall id :: id in unmatched <==> id in all && id !in first
    requires forall id :: id in joined ==> joined[id] == all[id]
    requires forall id :: id in unmatched ==> unmatched[id] == all[id]
    ensures Gathered(joined, unmatched, first, verdicts, attempts)
  {
    hide IsTerminal;
  }

  /** The evidence of a ledger: derived from the first assignments, verdicts and attempts of its ids, with every id that
      has terminal evidence counted once, as joined or as unmatched. */
  method EvidenceOf(events: seq<Event>, space: char -> bool) returns (e: Evidence, unmatched: nat, input: Input)
    ensures input.assignments == FirstAssignments(AssignmentsIn(events)) && input.space == space
    ensures input.invalidAssignmentRows == CountEvents(events, Invalid)
    ensures Counts(e, input, input.assignments.Keys)
    ensures forall id :: id in input.joined <==>
              id in input.assignments
              && (id in FirstVerdicts(VerdictsIn(events)) || id in FirstVerdicts(AttemptsIn(events)))
    ensures forall id :: id in input.joined ==>
              IsTerminal(input.joined[id], id, FirstVerdicts(VerdictsIn(events)), FirstVerdicts(AttemptsIn(events)))
    ensures e.joined + unmatched ==
              |FirstVerdicts(VerdictsIn(events)).Keys + FirstVerdicts(AttemptsIn(events)).Keys|
  {
    hide *;
    var telemetry := Fold(events);
    Folded(telemetry, events);
    ghost var first, verdicts := FirstAssignments(AssignmentsIn(events)), FirstVerdicts(VerdictsIn(events));
    JoinParts(telemetry.state, first, verdicts, "");
    var joined, others := Gather(telemetry.state, telemetry.attempts, first, verdicts);
    input := Input(telemetry.state.assignments, joined, telemetry.invalidAssignments, space);
    e := Derive(input);
    unmatched := |others|;
    GatheredIs(joined, others, first, verdicts, telemetry.attempts);
    JoinedOnce(e, input, joined, others, verdicts, telemetry.attempts);
  }

  lemma Folded(telemetry: RoutingTelemetry, events: seq<Event>)
    requires telemetry.FoldOf(events)
    ensures IsJoin(telemetry.state, FirstAssignments(AssignmentsIn(events)), FirstVerdicts(VerdictsIn(events)))
    ensures telemetry.attempts == FirstVerdicts(AttemptsIn(events))
    ensures telemetry.invalidAssignments == CountEvents(events, Invalid)
  {
    hide IsJoin;
  }

  lemma GatheredIs(joined: map<string, Receipt>, unmatched: map<string, Receipt>, first: map<string, Assignment>,
                   verdicts: map<string, Receipt>, attempts: map<string, Receipt>)
    requires Gathered(joined, unmatched, first, verdicts, attempts)
    ensures forall id :: id in joined <==> id in first && (id in verdicts || id in attempts)
    ensures forall id :: id in joined ==> IsTerminal(joined[id], id, verdicts, attempts)
    ensures joined.Keys !! unmatched.Keys && joined.Keys + unmatched.Keys == verdicts.Keys + attempts.Keys
  {
    hide IsTerminal;
  }

  lemma JoinedOnce(e: Evidence, input: Input, joined: map<string, Receipt>, unmatched: map<string, Receipt>,
                   verdicts: map<string, Receipt>, attempts: map<string, Receipt>)
    requires Counts(e, input, input.assignments.Keys) && input.joined == joined
    requires forall id :: id in joined ==> id in input.assignments
    requires joined.Keys !! unmatched.Keys && joined.Keys + unmatched.Keys == verdicts.Keys + attempts.Keys
    ensures e.joined + |unmatched| == |verdicts.Keys + attempts.Keys|
  {
    hide *;
    CountJoined(e, input);
    assert |joined.Keys + unmatched.Keys| == |joined.Keys| + |unmatched.Keys|;
  }

  lemma CountJoined(e: Evidence, input: Input)
    requires Counts(e, input, input.assignments.Keys) && forall id :: id in input.joined ==> id in input.assignments
    ensures e.joined == |input.joined.Keys|
  {
    hide Covers, Accounts, Count, HasTerminal, NoTerminal, Succeeds, NoOutcome, Requests, Serves, Priced;
    JoinedIds(input);
  }

  lemma JoinedIds(input: Input)
    requires forall id :: id in input.joined ==> id in input.assignments
    ensures Count(input.assignments.Keys, HasTerminal(input)) == |input.joined.Keys|
  {
    var ids := input.assignments.Keys;
    assert (set id | id in ids && HasTerminal(input)(id)) == input.joined.Keys;
  }
}
