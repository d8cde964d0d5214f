/** The whole selection: every arm of the selector, and what a larger change does to it. */
module SuiteSelection {
  import opened Wrappers
  import opened AffectedSuites

  /** A suite that reads files outside the graph: picked, if it is there, when some changed file passes the test. */
  datatype Rule = Rule(suite: string, fires: string -> bool)

  /** What stays fixed while a change grows: the tree, the rules, the suites always picked (path readers and recent
      failures), the suites the read map credits with a file, and the files outside what the selector models. */
  datatype Input = Input(files: Files, rules: seq<Rule>, always: set<string>, observers: string -> set<string>,
                         unmodelled: string -> bool, replaySuite: string)

  /** The file forces a full run. */
  predicate Forces(input: Input, f: string) { input.unmodelled(f) || (IsSuite(f) && f !in input.files) }

  ghost predicate FullRun(input: Input, changed: set<string>) { exists f :: f in changed && Forces(input, f) }

  predicate IsRoot(f: string) { IsCode(f) || IsContract(f) }

  ghost function Roots(changed: set<string>): set<string> { set f | f in changed && IsRoot(f) }

  ghost predicate ByGraph(input: Input, changed: set<string>, s: string) {
    ReachesAny(input.files, KnownWith(input.files, changed), s, Roots(changed))
  }

  predicate FiresOn(rule: Rule, changed: set<string>) { exists f :: f in changed && rule.fires(f) }

  ghost predicate ByRule(input: Input, changed: set<string>, s: string) {
    s in input.files
      && exists j :: 0 <= j < |input.rules| && input.rules[j].suite == s && FiresOn(input.rules[j], changed)
  }

  ghost predicate ByObserver(input: Input, changed: set<string>, s: string) {
    exists f :: f in changed && !IsSuite(f) && s in input.observers(f)
  }

  ghost predicate ByReplay(input: Input, changed: set<string>, s: string) {
    s == input.replaySuite && s in input.files && ReplayPicked(input.files, changed)
  }

  /** A suite of the selection short of a full run. */
  ghost predicate Selected(input: Input, changed: set<string>, s: string) {
    && IsSuite(s)
    && (ByGraph(input, changed, s) || ByRule(input, changed, s) || ByObserver(input, changed, s)
        || ByReplay(input, changed, s)
        || s in input.always)
  }

  // ---------- The selector ----------

  function Named(changed: seq<string>): (files: seq<string>)
    ensures forall f :: f in files <==> f in changed && f != ""
  {
    if changed == [] then [] else (if changed[0] == "" then [] else [changed[0]]) + Named(changed[1..])
  }

  function AsSet(files: seq<string>): (all: set<string>)
    ensures forall f :: f in all <==> f in files
  {
    set f | f in files
  }

  /** The suites selected, or none when the change needs a full run. */
  method Select(input: Input, changed: seq<string>) returns (suites: Option<set<string>>)
    ensures suites.None? <==> FullRun(input, AsSet(Named(changed)))
    ensures suites.Some? ==> forall s :: s in suites.value <==> Selected(input, AsSet(Named(changed)), s)
  {
    hide *;
    var files := Named(changed);
    var all := AsSet(files);
    var full := NeedsFullRun(input, files);
    if full { return None; }
    var g := BuildGraph(input.files, all);
    var known := KnownWith(input.files, all);
    var reviewPath := ReviewPath(g, input.files, known);
    var replay := Touches(files, reviewPath);
    ReplayIs(input, all, reviewPath);
    var picked := ImportArm(g, input.files, known, files);
    RootsAgree(files);
    var ruled := RuleArm(input, files);
    var observed := ObserverArm(input, files);
    var replayed := if replay && input.replaySuite in input.files then {input.replaySuite} else {};
    var found := picked + AsSet(files) + ruled + observed + replayed + input.always;
    suites := Some(set s | s in found && IsSuite(s));
    forall s ensures s in suites.value <==> Selected(input, all, s) {
      SelectedIs(input, all, s);
      ArmsAre(input, files, known, picked, ruled, observed, s);
    }
  }

  lemma SelectedIs(input: Input, changed: set<string>, s: string)
    ensures Selected(input, changed, s) <==>
              && IsSuite(s)
              && (ByGraph(input, changed, s) || ByRule(input, changed, s) || ByObserver(input, changed, s)
                  || ByReplay(input, changed, s) || s in input.always)
    ensures ByGraph(input, changed, s) == ReachesAny(input.files, KnownWith(input.files, changed), s, Roots(changed))
    ensures ByReplay(input, changed, s) ==
              (s == input.replaySuite && s in input.files && ReplayPicked(input.files, changed))
  {
    hide IsSuite, ReachesAny, ReplayPicked, KnownWith, Roots, ByRule, ByObserver;
  }

  lemma ArmsAre(input: Input, files: seq<string>, known: set<string>, picked: set<string>, ruled: set<string>,
                observed: set<string>, s: string)
    requires forall s :: s in picked || (s in files && IsSuite(s)) <==>
               IsSuite(s) && ReachesAny(input.files, known, s, Roots(AsSet(files)))
    requires forall s :: s in ruled <==> ByRule(input, AsSet(files), s)
    requires forall s :: s in observed <==> ByObserver(input, AsSet(files), s)
    ensures IsSuite(s) ==> ((s in picked || s in files) <==> ReachesAny(input.files, known, s, Roots(AsSet(files))))
    ensures s in ruled <==> ByRule(input, AsSet(files), s)
    ensures s in observed <==> ByObserver(input, AsSet(files), s)
  {
    hide *;
  }

  lemma RootsAgree(files: seq<string>)
    ensures RootsOf(files) == Roots(AsSet(files))
  {
    hide IsCode, IsContract;
  }

  lemma ReplayIs(input: Input, all: set<string>, reviewPath: set<string>)
    requires forall f :: f in reviewPath <==> OnReviewPath(input.files, KnownWith(input.files, all), f)
    ensures ReplayPicked(input.files, all) <==> exists f :: f in all && f in reviewPath
  {
    hide OnReviewPath, KnownWith;
  }

  method NeedsFullRun(input: Input, files: seq<string>) returns (full: bool)
    ensures full <==> FullRun(input, AsSet(files))
  {
    hide IsSuite;
    full := false;
    for i := 0 to |files|
      invariant full <==> exists j :: 0 <= j < i && Forces(input, files[j])
    {
      if Forces(input, files[i]) { full := true; }
    }
  }

  method Touches(files: seq<string>, reviewPath: set<string>) returns (touches: bool)
    ensures touches <==> exists f :: f in AsSet(files) && f in reviewPath
  {
    touches := false;
    for i := 0 to |files|
      invariant touches <==> exists j :: 0 <= j < i && files[j] in reviewPath
    {
      if files[i] in reviewPath { touches := true; }
    }
  }

  method RuleArm(input: Input, files: seq<string>) returns (picked: set<string>)
    ensures forall s :: s in picked <==> ByRule(input, AsSet(files), s)
  {
    hide FiresOn;
    picked := {};
    for i := 0 to |input.rules|
      invariant forall s :: s in picked <==>
        s in input.files && exists j :: 0 <= j < i && input.rules[j].suite == s && FiresOn(input.rules[j], AsSet(files))
    {
      var fires := Fires(input.rules[i], files);
      if input.rules[i].suite in input.files && fires { picked := picked + {input.rules[i].suite}; }
    }
  }

  method Fires(rule: Rule, files: seq<string>) returns (fires: bool)
    ensures fires <==> FiresOn(rule, AsSet(files))
  {
    fires := false;
    for n := 0 to |files|
      invariant fires <==> exists m :: 0 <= m < n && rule.fires(files[m])
    {
      if rule.fires(files[n]) { fires := true; }
    }
  }

  method ObserverArm(input: Input, files: seq<string>) returns (picked: set<string>)
    ensures forall s :: s in picked <==> ByObserver(input, AsSet(files), s)
  {
    hide IsSuite;
    picked := {};
    for i := 0 to |files|
      invariant forall s :: s in picked <==>
                  exists j :: 0 <= j < i && !IsSuite(files[j]) && s in input.observers(files[j])
    {
      if !IsSuite(files[i]) { picked := picked + input.observers(files[i]); }
    }
  }

  // ---------- A larger change ----------

  /** What needed a full run still does. */
  lemma FullRunStays(input: Input, changed: set<string>, larger: set<string>)
    requires changed <= larger && FullRun(input, changed)
    ensures FullRun(input, larger)
  {
    hide Forces;
  }

  /** Selected by an arm other than the replay of recorded reviews. */
  ghost predicate ByOther(input: Input, changed: set<string>, s: string) {
    ByGraph(input, changed, s) || ByRule(input, changed, s) || ByObserver(input, changed, s) || s in input.always
  }

  /** Every other arm only grows with a change of code and contract files, redirected imports included. */
  lemma OtherArmsGrow(input: Input, changed: set<string>, larger: set<string>, s: string)
    requires changed <= larger && (forall f :: f in larger ==> IsRoot(f)) && IsSuite(s) && ByOther(input, changed, s)
    ensures ByOther(input, larger, s)
  {
    hide IsSuite, IsRoot, ReachesAny, KnownWith;
    if ByGraph(input, changed, s) {
      assert Roots(changed) == changed && Roots(larger) == larger;
      ByGraphIs(input, changed, s);
      LargerChangeSelectsNoFewer(input.files, changed, larger, s);
      ByGraphIs(input, larger, s);
    }
  }

  /** With all else fixed, enlarging a change of code and contract files drops no suite short of a full run; the one
      suite that needs care is the replay suite, and it too stays unless the change draws the import of `src/lib`
      out. */
  lemma LargerChangeDropsNothing(input: Input, changed: set<string>, larger: set<string>, s: string)
    requires changed <= larger && (forall f :: f in larger ==> IsRoot(f)) && Selected(input, changed, s)
    requires s == input.replaySuite ==> forall c :: c in larger ==> !DrawnOut(input.files, c)
    ensures Selected(input, larger, s)
  {
    hide IsSuite, IsRoot, DrawnOut, ReplayPicked, ByGraph, ByRule, ByObserver;
    if ByOther(input, changed, s) {
      OtherArmsGrow(input, changed, larger, s);
    } else {
      LargerChangeReplaysNoLess(input.files, changed, larger);
    }
  }

  /** A changed file that has the replay picked keeps its suite beside any one other path. */
  ghost predicate ReplayCovered(input: Input, allowed: iset<string>) {
    IsSuite(input.replaySuite) && input.replaySuite in input.files ==>
      forall f, c :: f in allowed && c in allowed && LosesReplay(input, f, c) ==>
        ByOther(input, {f, c}, input.replaySuite)
  }

  ghost predicate LosesReplay(input: Input, f: string, c: string) {
    ReplayPicked(input.files, {f}) && !ReplayPicked(input.files, {f, c})
  }

  /** Among the changes of allowed code and contract files, growing one never drops a suite exactly when the replay
      suite is covered: two changed paths decide it. */
  lemma SelectionGrowsExactly(input: Input, allowed: iset<string>)
    requires forall f :: f in allowed ==> IsRoot(f)
    ensures (forall changed: set<string>, larger: set<string>, s ::
               changed <= larger && (forall f :: f in larger ==> f in allowed) && Selected(input, changed, s) ==>
                 Selected(input, larger, s))
            <==> ReplayCovered(input, allowed)
  {
    hide *;
    if ReplayCovered(input, allowed) {
      forall changed: set<string>, larger: set<string>, s |
        changed <= larger && (forall f :: f in larger ==> f in allowed) && Selected(input, changed, s)
        ensures Selected(input, larger, s)
      {
        CoveredGrows(input, allowed, changed, larger, s);
      }
    } else {
      var f, c := UncoveredDrops(input, allowed);
      assert {f} <= {f, c};
    }
  }

  lemma CoveredGrows(input: Input, allowed: iset<string>, changed: set<string>, larger: set<string>, s: string)
    requires (forall f :: f in allowed ==> IsRoot(f)) && ReplayCovered(input, allowed)
    requires changed <= larger && (forall f :: f in larger ==> f in allowed) && Selected(input, changed, s)
    ensures Selected(input, larger, s)
  {
    hide IsSuite, IsRoot, ReplayPicked, ByGraph, ByRule, ByObserver;
    if ByOther(input, changed, s) {
      OtherArmsGrow(input, changed, larger, s);
    } else if !ReplayPicked(input.files, larger) {
      var f, c := LostByTwo(input.files, changed, larger);
      assert LosesReplay(input, f, c);
      OtherArmsGrow(input, {f, c}, larger, s);
    }
  }

  lemma UncoveredDrops(input: Input, allowed: iset<string>) returns (f: string, c: string)
    requires !ReplayCovered(input, allowed)
    ensures f in allowed && c in allowed
    ensures Selected(input, {f}, input.replaySuite) && !Selected(input, {f, c}, input.replaySuite)
  {
    hide IsSuite, ReplayPicked, ByGraph, ByRule, ByObserver;
    f, c :| f in allowed && c in allowed && LosesReplay(input, f, c) && !ByOther(input, {f, c}, input.replaySuite);
  }

  /** A tree where the replay suite is dropped: the selector picks it for a change of the index, and no longer when a
      deleted `src/lib.ts` is part of the change. */
  lemma DirectoryImportDropsSuite(replay: string, input: Input, changed: set<string>, larger: set<string>)
    requires IsSuite(replay)
    requires input == Input(SmallTree(replay), [], {}, (f: string) => {}, (f: string) => false, replay)
    requires changed == {"src/lib/index.ts"} && larger == {"src/lib/index.ts", "src/lib.ts"}
    ensures !FullRun(input, larger)
    ensures Selected(input, changed, replay) && !Selected(input, larger, replay)
  {
    hide IsSuite, ReplayPicked, KnownWith, SmallTree, ReachesAny;
    DirectoryImportDropsReplay(replay, input.files, changed, larger);
    SuiteIsNoSource(replay);
    InSmallTree(replay);
    NoSuiteHere();
    NothingBelow(input.files, KnownWith(input.files, larger), replay, Roots(larger));
  }

  lemma InSmallTree(replay: string)
    ensures replay in SmallTree(replay) && SmallTree(replay)[replay] == Source([], [])
  {
  }

  lemma NoSuiteHere()
    ensures !IsSuite("src/lib/index.ts") && !IsSuite("src/lib.ts")
  {
    assert "src/lib/index.ts"[0] == 's' && "src/lib.ts"[0] == 's' && "test/"[0] == 't';
  }

  /** A file that imports and names nothing reaches only itself. */
  lemma NothingBelow(files: Files, known: set<string>, file: string, roots: set<string>)
    requires file in files && files[file] == Source([], []) && file !in roots
    ensures !ReachesAny(files, known, file, roots)
  {
    hide IsCode, ResolveBase;
    forall root, path | root in roots && LeadsTo(files, known, path, file, root) ensures false {
      if |path| > 1 { EdgeOf(files, known, path, 0); }
    }
  }

  lemma ByGraphIs(input: Input, changed: set<string>, s: string)
    requires IsSuite(s)
    ensures SelectedByGraph(input.files, changed, s) ==
              ReachesAny(input.files, KnownWith(input.files, changed), s, changed)
  {
    hide IsSuite, ReachesAny, KnownWith;
  }
}
