/** Outcomes and work categories of a ledger: what they count, and the two builders that must agree on them. */
module LedgerBreakdowns {
  import opened Wrappers
  import opened LedgerSeries

  datatype Terminal = Terminal(verdict: Option<string>, success: Option<bool>)

  const SUCCESS_VERDICTS: set<string> := {"merged", "already_satisfied"}
  const MAX_WORK_CATEGORY_BUCKETS := 20
  const MAX_DRILLDOWN_ROWS := 40

  predicate Alphanumeric(c: char) { 'A' <= c <= 'Z' || 'a' <= c <= 'z' || '0' <= c <= '9' }

  predicate GoodCategory(s: string) {
    && 1 <= |s| <= 64 && Alphanumeric(s[0])
    && forall i :: 1 <= i < |s| ==> Alphanumeric(s[i]) || s[i] == '.' || s[i] == '_' || s[i] == '-'
  }

  function CategoryOf(line: Line): string {
    if line.category.Some? && GoodCategory(line.category.value) then line.category.value else "unknown"
  }

  // ---------- What is counted ----------

  datatype Tally = Tally(starts: set<string>, terminals: map<string, Terminal>, startsWithoutRunId: nat,
                         terminalsWithoutRunId: nat, categories: map<string, nat>)

  predicate IsStart(l: Line) { l.step == "run.start" }
  predicate IsVerdict(l: Line) { l.step == "verdict" }

  ghost function Count(lines: seq<Line>, p: Line -> bool): nat {
    if lines == [] then 0
    else Count(lines[..|lines| - 1], p) + if p(lines[|lines| - 1]) then 1 else 0
  }

  /** The last verdict of a run. */
  ghost function LastVerdict(lines: seq<Line>, run: string): Option<Terminal> {
    if lines == [] then None
    else
      var last := lines[|lines| - 1];
      if IsVerdict(last) && last.runId == Some(run) then Some(Terminal(last.verdict, last.success))
      else LastVerdict(lines[..|lines| - 1], run)
  }

  /** The tally is that of the lines. */
  ghost predicate Tallies(t: Tally, lines: seq<Line>) {
    && (forall r :: r in t.starts <==> exists l :: l in lines && IsStart(l) && l.runId == Some(r))
    && (forall r :: r in t.terminals <==> LastVerdict(lines, r).Some?)
    && (forall r :: r in t.terminals ==> Some(t.terminals[r]) == LastVerdict(lines, r))
    && t.startsWithoutRunId == Count(lines, l => IsStart(l) && l.runId.None?)
    && t.terminalsWithoutRunId == Count(lines, l => IsVerdict(l) && l.runId.None?)
    && (forall k :: k in t.categories ==> t.categories[k] > 0 && t.categories[k] == InCategory(lines, k))
    && (forall k :: k !in t.categories ==> InCategory(lines, k) == 0)
  }

  ghost function InCategory(lines: seq<Line>, key: string): nat {
    Count(lines, l => IsStart(l) && CategoryOf(l) == key)
  }

  /** So a ledger has one tally. */
  lemma TallyUnique(t: Tally, u: Tally, lines: seq<Line>)
    requires Tallies(t, lines) && Tallies(u, lines)
    ensures t == u
  {
    hide LastVerdict, InCategory, Count;
    assert t.starts == u.starts;
    forall r ensures r in t.terminals <==> r in u.terminals {}
    assert t.terminals == u.terminals;
    forall k ensures k in t.categories <==> k in u.categories {}
    assert t.categories == u.categories;
  }

  lemma CountGrows(before: seq<Line>, line: Line, p: Line -> bool)
    ensures Count(before + [line], p) == Count(before, p) + if p(line) then 1 else 0
  {
    var lines := before + [line];
    assert lines[..|lines| - 1] == before && lines[|lines| - 1] == line;
  }

  lemma VerdictGrows(before: seq<Line>, line: Line, run: string)
    ensures LastVerdict(before + [line], run) ==
              if IsVerdict(line) && line.runId == Some(run) then Some(Terminal(line.verdict, line.success))
              else LastVerdict(before, run)
  {
    var lines := before + [line];
    assert lines[..|lines| - 1] == before && lines[|lines| - 1] == line;
  }

  function AddCount(counts: map<string, nat>, key: string): map<string, nat> {
    counts[key := (if key in counts then counts[key] else 0) + 1]
  }

  /** What one line does to the tally. */
  function AddTo(t: Tally, line: Line): Tally {
    if IsStart(line) then
      var counted := t.(categories := AddCount(t.categories, CategoryOf(line)));
      if line.runId.None? then counted.(startsWithoutRunId := t.startsWithoutRunId + 1)
      else counted.(starts := t.starts + {line.runId.value})
    else if IsVerdict(line) then
      if line.runId.None? then t.(terminalsWithoutRunId := t.terminalsWithoutRunId + 1)
      else t.(terminals := t.terminals[line.runId.value := Terminal(line.verdict, line.success)])
    else t
  }

  lemma TallyGrows(t: Tally, before: seq<Line>, line: Line)
    requires Tallies(t, before)
    ensures Tallies(AddTo(t, line), before + [line])
  {
    hide LastVerdict, Count, CategoryOf, InCategory, AddCount;
    var lines, t' := before + [line], AddTo(t, line);
    CountGrows(before, line, l => IsStart(l) && l.runId.None?);
    CountGrows(before, line, l => IsVerdict(l) && l.runId.None?);
    forall r ensures r in t'.starts <==> exists l :: l in lines && IsStart(l) && l.runId == Some(r) {
      if r in t.starts {
        var l :| l in before && IsStart(l) && l.runId == Some(r);
        assert l in lines;
      }
      assert line in lines;
    }
    forall r ensures (r in t'.terminals <==> LastVerdict(lines, r).Some?)
      && (r in t'.terminals ==> Some(t'.terminals[r]) == LastVerdict(lines, r))
    {
      VerdictGrows(before, line, r);
    }
    CategoriesGrow(t, before, line);
  }

  lemma CategoriesGrow(t: Tally, before: seq<Line>, line: Line)
    requires forall k :: k in t.categories ==> t.categories[k] > 0 && t.categories[k] == InCategory(before, k)
    requires forall k :: k !in t.categories ==> InCategory(before, k) == 0
    ensures var c := AddTo(t, line).categories;
            && (forall k :: k in c ==> c[k] > 0 && c[k] == InCategory(before + [line], k))
            && (forall k :: k !in c ==> InCategory(before + [line], k) == 0)
  {
    hide CategoryOf, InCategory;
    forall k
      ensures InCategory(before + [line], k) == InCategory(before, k)
              + if IsStart(line) && CategoryOf(line) == k then 1 else 0
    {
      CategoryGrows(before, line, k);
    }
  }

  lemma CategoryGrows(before: seq<Line>, line: Line, k: string)
    ensures InCategory(before + [line], k) == InCategory(before, k)
            + if IsStart(line) && CategoryOf(line) == k then 1 else 0
  {
    hide CategoryOf, Count;
    CountGrows(before, line, l => IsStart(l) && CategoryOf(l) == k);
  }

  // ---------- The two accumulators ----------

  class Breakdowns {
    var tally: Tally

    constructor ()
      ensures Tallies(tally, [])
    {
      tally := Tally({}, map[], 0, 0, map[]);
    }

    /** The accumulator of an uninterrupted scan. */
    method Add(line: Line, ghost before: seq<Line>)
      requires Tallies(tally, before)
      modifies this
      ensures Tallies(tally, before + [line])
    {
      hide Tallies, CategoryOf;
      TallyGrows(tally, before, line);
      if line.step == "run.start" {
        tally := tally.(categories := AddCount(tally.categories, CategoryOf(line)));
        if line.runId.None? {
          tally := tally.(startsWithoutRunId := tally.startsWithoutRunId + 1);
          return;
        }
        if line.runId.value !in tally.starts {
          tally := tally.(starts := tally.starts + {line.runId.value});
        } else {
          assert tally.starts + {line.runId.value} == tally.starts;
        }
        return;
      }
      if line.step != "verdict" { return; }
      var terminal := Terminal(line.verdict, line.success);
      if line.runId.None? {
        tally := tally.(terminalsWithoutRunId := tally.terminalsWithoutRunId + 1);
        return;
      }
      tally := tally.(terminals := tally.terminals[line.runId.value := terminal]);
    }
  }

  class CheckpointBreakdowns {
    var tally: Tally

    constructor (tally: Tally)
      ensures this.tally == tally
    {
      this.tally := tally;
    }

    /** The accumulator that is saved with a checkpoint. */
    method Capture(line: Line, ghost before: seq<Line>)
      requires Tallies(tally, before)
      modifies this
      ensures Tallies(tally, before + [line])
    {
      hide Tallies, CategoryOf;
      TallyGrows(tally, before, line);
      if line.step == "run.start" {
        var key := CategoryOf(line);
        tally := tally.(categories := AddCount(tally.categories, key));
        if line.runId.Some? {
          tally := tally.(starts := tally.starts + {line.runId.value});
        } else {
          tally := tally.(startsWithoutRunId := tally.startsWithoutRunId + 1);
        }
      } else if line.step == "verdict" {
        var terminal := Terminal(line.verdict, line.success);
        if line.runId.Some? {
          tally := tally.(terminals := tally.terminals[line.runId.value := terminal]);
        } else {
          tally := tally.(terminalsWithoutRunId := tally.terminalsWithoutRunId + 1);
        }
      }
    }
  }
}
