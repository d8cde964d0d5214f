/** When no change at all, of whatever paths, loses a suite by growing. */
module SuiteGrowth {
  import opened Wrappers
  import opened AffectedSuites
  import opened SuiteSelection

  // ---------- What one changed path contributes ----------

  /** A rule or the read map picks the suite for this one path. */
  ghost predicate PicksAlone(input: Input, p: string, s: string) {
    || (s in input.files && exists j :: 0 <= j < |input.rules| && input.rules[j].suite == s && input.rules[j].fires(p))
    || (!IsSuite(p) && s in input.observers(p))
  }

  ghost predicate ReachedBy(input: Input, changed: set<string>, p: string, s: string) {
    IsRoot(p) && Reaches(input.files, KnownWith(input.files, changed), s, p)
  }

  ghost predicate ReplayedFor(input: Input, changed: set<string>, p: string, s: string) {
    s == input.replaySuite && s in input.files && OnReviewPath(input.files, KnownWith(input.files, changed), p)
  }

  /** Path `p` of a change has the suite selected. */
  ghost predicate Contributes(input: Input, changed: set<string>, p: string, s: string) {
    PicksAlone(input, p, s) || ReachedBy(input, changed, p, s) || ReplayedFor(input, changed, p, s)
  }

  ghost predicate SomeContributes(input: Input, changed: set<string>, s: string) {
    exists p :: p in changed && Contributes(input, changed, p, s)
  }

  lemma SelectedBySome(input: Input, changed: set<string>, s: string)
    ensures Selected(input, changed, s) <==> IsSuite(s) && (s in input.always || SomeContributes(input, changed, s))
  {
    hide IsSuite, IsRoot, Reaches, OnReviewPath, KnownWith;
    if SomeContributes(input, changed, s) {
      var p :| p in changed && Contributes(input, changed, p, s);
      if PicksAlone(input, p, s) {
        PickedAlone(input, changed, p, s);
      } else if ReachedBy(input, changed, p, s) {
        assert p in Roots(changed);
      }
    }
    if ByRule(input, changed, s) || ByObserver(input, changed, s) { var p := SomePicksAlone(input, changed, s); }
    if ByGraph(input, changed, s) {
      var p :| p in Roots(changed) && Reaches(input.files, KnownWith(input.files, changed), s, p);
      assert Contributes(input, changed, p, s);
    }
    if ByReplay(input, changed, s) {
      var p :| p in changed && OnReviewPath(input.files, KnownWith(input.files, changed), p);
      assert Contributes(input, changed, p, s);
    }
  }

  lemma PickedAlone(input: Input, changed: set<string>, p: string, s: string)
    requires p in changed && PicksAlone(input, p, s)
    ensures ByRule(input, changed, s) || ByObserver(input, changed, s)
  {
    hide IsSuite;
    if !(!IsSuite(p) && s in input.observers(p)) {
      var j :| 0 <= j < |input.rules| && input.rules[j].suite == s && input.rules[j].fires(p);
      assert FiresOn(input.rules[j], changed);
    }
  }

  lemma SomePicksAlone(input: Input, changed: set<string>, s: string) returns (p: string)
    requires ByRule(input, changed, s) || ByObserver(input, changed, s)
    ensures p in changed && PicksAlone(input, p, s)
  {
    hide IsSuite;
    if ByRule(input, changed, s) {
      var j :| 0 <= j < |input.rules| && input.rules[j].suite == s && FiresOn(input.rules[j], changed);
      p :| p in changed && input.rules[j].fires(p);
    } else {
      p :| p in changed && !IsSuite(p) && s in input.observers(p);
    }
  }

  // ---------- A smaller change ----------

  lemma EdgeInSmaller(files: Files, known: set<string>, few: set<string>, file: string, dep: string)
    requires few <= known && dep in few && Depends(files, known, file, dep)
    ensures Depends(files, few, file, dep)
  {
    hide Candidates, IsCode;
    if Imports(files, known, file, dep) {
      var b :| b in files[file].bases && ResolveBase(b, known) == Some(dep);
      StillFirst(Candidates(b), known, few, dep);
    }
  }

  lemma SourceIsCode(files: Files, known: set<string>, file: string, dep: string)
    requires Depends(files, known, file, dep)
    ensures file in CodeIn(files)
  {
    hide IsCode, ResolveBase;
  }

  /** Only the end of a path can be a file that is not there. */
  lemma ReachesInSmaller(files: Files, known: set<string>, few: set<string>, from: string, to: string)
    requires CodeIn(files) <= few <= known && to in few && Reaches(files, known, from, to)
    ensures Reaches(files, few, from, to)
  {
    hide Depends, CodeIn;
    var path :| LeadsTo(files, known, path, from, to);
    forall i | 0 <= i < |path| - 1 ensures Depends(files, few, path[i], path[i + 1]) {
      assert Depends(files, known, path[i], path[i + 1]);
      if i + 1 < |path| - 1 { SourceIsCode(files, known, path[i + 1], path[i + 1 + 1]); }
      EdgeInSmaller(files, known, few, path[i], path[i + 1]);
    }
    assert LeadsTo(files, few, path, from, to);
  }

  lemma ReplayedInSmaller(files: Files, known: set<string>, few: set<string>, f: string)
    requires CodeIn(files) <= few <= known && f in few && OnReviewPath(files, known, f)
    ensures OnReviewPath(files, few, f)
  {
    hide ReviewEdge, ReviewRoots, CodeIn;
    var path :| IsReviewPath(files, known, path) && path[|path| - 1] == f;
    PathInSmaller(files, known, few, path);
  }

  /** What a path contributes to a change it contributes to every part of it. */
  lemma ContributesToLess(input: Input, changed: set<string>, less: set<string>, p: string, s: string)
    requires less <= changed && p in less && Contributes(input, changed, p, s)
    ensures Contributes(input, less, p, s)
  {
    hide PicksAlone, Reaches, OnReviewPath, IsRoot, CodeIn;
    var known, few := KnownWith(input.files, changed), KnownWith(input.files, less);
    if ReachedBy(input, changed, p, s) { ReachesInSmaller(input.files, known, few, s, p); }
    if ReplayedFor(input, changed, p, s) { ReplayedInSmaller(input.files, known, few, p); }
  }

  // ---------- A larger change ----------

  /** The paths an import in the tree, or one of the directory `src/lib`, may stand for. */
  ghost function Targets(files: Files): set<string> {
    (set f, b, c | f in files && b in files[f].bases && c in Candidates(b) :: c) + (set c | c in Candidates("src/lib"))
  }

  lemma DirectoryIsTarget(files: Files, c: string)
    requires c in Candidates("src/lib")
    ensures c in Targets(files)
  {
    hide Candidates;
  }

  /** A dependency stays when targets are added, or turns to one of them. */
  lemma EdgeOrNew(files: Files, known: set<string>, more: set<string>, file: string, dep: string) returns (now: string)
    requires CodeIn(files) <= known <= more && Depends(files, known, file, dep)
    ensures Depends(files, more, file, now) && (now == dep || (now in more - known && now in Targets(files)))
  {
    hide Candidates, IsCode, ResolveBase;
    now := dep;
    if Imports(files, known, file, dep) {
      now := ImportOrRedirect(files, known, more, file, dep);
      SourceIsCode(files, known, file, dep);
    }
  }

  /** A path stays in a larger change, or leads to a path that is new in it. */
  lemma {:induction false} PathOrNew(files: Files, known: set<string>, more: set<string>, path: seq<string>, i: nat)
      returns (to: string)
    requires CodeIn(files) <= known <= more && IsPath(files, known, path) && i < |path|
    ensures Reaches(files, more, path[i], to)
    ensures to == path[|path| - 1] || (to in more - known && to in Targets(files))
    decreases |path| - i
  {
    hide Depends, Reaches, CodeIn, Targets, IsPath;
    if i == |path| - 1 {
      to := path[i];
      RootReachesItself(files, more, to);
    } else {
      EdgeOf(files, known, path, i);
      var now := EdgeOrNew(files, known, more, path[i], path[i + 1]);
      if now == path[i + 1] {
        to := PathOrNew(files, known, more, path, i + 1);
      } else {
        to := now;
        RootReachesItself(files, more, to);
      }
      ImporterReaches(files, more, path[i], now, to);
    }
  }

  lemma ReachesOrNew(files: Files, known: set<string>, more: set<string>, from: string, to: string)
    returns (end: string)
    requires CodeIn(files) <= known <= more && Reaches(files, known, from, to)
    ensures Reaches(files, more, from, end) && (end == to || (end in more - known && end in Targets(files)))
  {
    hide Depends, Targets, CodeIn;
    var path :| LeadsTo(files, known, path, from, to);
    end := PathOrNew(files, known, more, path, 0);
  }

  // ---------- The exact condition ----------

  /** The paths that an import may stand for and that, in a change beside `f`, contribute nothing to the suite. */
  ghost function Idle(input: Input, allowed: iset<string>, f: string, s: string): set<string> {
    set p | p in Targets(input.files) && p in allowed && !Contributes(input, {f, p}, p, s)
  }

  /** No suite that one path has selected is lost when all the idle paths join it. */
  ghost predicate Steady(input: Input, allowed: iset<string>) {
    forall f, s :: f in allowed && Selected(input, {f}, s) ==> Selected(input, {f} + Idle(input, allowed, f, s), s)
  }

  /** Among changes of allowed paths, growing one never drops a suite exactly when that holds. */
  lemma AnyChangeGrowsExactly(input: Input, allowed: iset<string>)
    ensures (forall changed: set<string>, larger: set<string>, s ::
               changed <= larger && (forall f :: f in larger ==> f in allowed) && Selected(input, changed, s) ==>
                 Selected(input, larger, s))
            <==> Steady(input, allowed)
  {
    hide *;
    if Steady(input, allowed) {
      forall changed: set<string>, larger: set<string>, s |
        changed <= larger && (forall f :: f in larger ==> f in allowed) && Selected(input, changed, s)
        ensures Selected(input, larger, s)
      {
        SteadyGrows(input, allowed, changed, larger, s);
      }
    } else {
      var f, s := UnsteadyDrops(input, allowed);
      IdleAllowed(input, allowed, f, s);
      assert {f} <= {f} + Idle(input, allowed, f, s);
    }
  }

  lemma IdleAllowed(input: Input, allowed: iset<string>, f: string, s: string)
    ensures forall p :: p in Idle(input, allowed, f, s) ==> p in allowed
  {
    hide Targets, Contributes;
  }

  lemma UnsteadyDrops(input: Input, allowed: iset<string>) returns (f: string, s: string)
    requires !Steady(input, allowed)
    ensures f in allowed && Selected(input, {f}, s) && !Selected(input, {f} + Idle(input, allowed, f, s), s)
  {
    hide Selected, Idle;
    f, s :| f in allowed && Selected(input, {f}, s) && !Selected(input, {f} + Idle(input, allowed, f, s), s);
  }

  ghost predicate Within(larger: set<string>, allowed: iset<string>) { forall f :: f in larger ==> f in allowed }

  /** The part of the larger change that leaves `f` its contribution. */
  ghost function Calm(input: Input, allowed: iset<string>, larger: set<string>, f: string, s: string): set<string> {
    {f} + Idle(input, allowed, f, s) * larger
  }

  lemma ContributesInCalm(input: Input, allowed: iset<string>, larger: set<string>, f: string, s: string)
    requires Steady(input, allowed) && IsSuite(s) && s !in input.always
    requires f in allowed && f in larger && Contributes(input, {f}, f, s)
    ensures Contributes(input, Calm(input, allowed, larger, f, s), f, s)
  {
    hide Contributes, IsSuite, Selected, Targets;
    var all := {f} + Idle(input, allowed, f, s);
    assert f in {f};
    SelectedBySome(input, {f}, s);
    SelectedBySome(input, all, s);
    var x :| x in all && Contributes(input, all, x, s);
    if x != f { ContributesToLess(input, all, {f, x}, x, s); }
    ContributesToLess(input, all, Calm(input, allowed, larger, f, s), f, s);
  }

  /** A path of the larger change that is not calm contributes beside `f`. */
  lemma NewContributes(input: Input, allowed: iset<string>, larger: set<string>, f: string, s: string, p: string)
    requires p in allowed && p in larger && p !in Calm(input, allowed, larger, f, s) && p in Targets(input.files)
    ensures Contributes(input, {f, p}, p, s)
    ensures PicksAlone(input, p, s) ==> SomeContributes(input, larger, s)
  {
    hide PicksAlone, ReachedBy, ReplayedFor, Targets;
    assert PicksAlone(input, p, s) ==> Contributes(input, larger, p, s);
  }

  /** What the graph contributes gives way only to a path, no root, that has the replay suite picked. */
  lemma GraphStays(input: Input, allowed: iset<string>, larger: set<string>, f: string, s: string) returns (p: string)
    requires Within(larger, allowed) && f in larger && ReachedBy(input, Calm(input, allowed, larger, f, s), f, s)
    ensures SomeContributes(input, larger, s) || (p in larger && !IsRoot(p) && ReplayedFor(input, {f, p}, p, s))
  {
    hide IsRoot, PicksAlone, Reaches, OnReviewPath, CodeIn, Targets, Idle;
    var calm := Calm(input, allowed, larger, f, s);
    var known, more := KnownWith(input.files, calm), KnownWith(input.files, larger);
    p := ReachesOrNew(input.files, known, more, s, f);
    assert IsRoot(p) && p in larger ==> Contributes(input, larger, p, s);
    if p !in known { NewContributes(input, allowed, larger, f, s, p); }
  }

  /** What the review path contributes stays unless the import of the directory is drawn out of it. */
  lemma ReplayStays(input: Input, larger: set<string>, changed: set<string>, f: string, s: string)
    requires changed <= larger && f in changed && ReplayedFor(input, changed, f, s)
    ensures SomeContributes(input, larger, s)
            || Escapes(KnownWith(input.files, changed), KnownWith(input.files, larger))
  {
    hide OnReviewPath, Escapes, CodeIn, PicksAlone, ReachedBy;
    var known, more := KnownWith(input.files, changed), KnownWith(input.files, larger);
    if ReplayPicked(input.files, larger) {
      var p :| p in larger && OnReviewPath(input.files, more, p);
      assert Contributes(input, larger, p, s);
    } else if !Escapes(known, more) {
      StillPicked(input.files, known, larger, f);
    }
  }

  /** A path the directory import turns to is no candidate for the replay; what it contributes by the graph stays. */
  lemma DrawnTo(input: Input, allowed: iset<string>, larger: set<string>, g: string, s: string)
    requires Steady(input, allowed) && Within(larger, allowed) && IsSuite(s) && s !in input.always
    requires g in larger && Contributes(input, {g}, g, s)
    requires ResolveBase("src/lib", KnownWith(input.files, larger)) == Some(g) && !InLib(g) && g !in ReviewRoots()
    ensures SomeContributes(input, larger, s)
  {
    hide Steady, IsSuite, IsRoot, PicksAlone, Reaches, OnReviewPath, CodeIn, Idle, InLib, ReviewRoots, Candidates;
    var calm := Calm(input, allowed, larger, g, s);
    ContributesInCalm(input, allowed, larger, g, s);
    OffReviewPath(input.files, KnownWith(input.files, calm), g);
    if ReachedBy(input, calm, g, s) {
      var p := GraphStays(input, allowed, larger, g, s);
      if !SomeContributes(input, larger, s) {
        ReplayStays(input, larger, {g, p}, p, s);
        StillFirst(Candidates("src/lib"), KnownWith(input.files, larger), KnownWith(input.files, {g, p}), g);
        IndexInLib("src/lib");
      }
    } else {
      assert Contributes(input, larger, g, s);
    }
  }

  /** So what the review path contributes stays after all, or something else does. */
  lemma ReplayOrGraphStays(input: Input, allowed: iset<string>, larger: set<string>, f: string, s: string)
    requires Steady(input, allowed) && Within(larger, allowed) && IsSuite(s) && s !in input.always
    requires f in larger && ReplayedFor(input, Calm(input, allowed, larger, f, s), f, s)
    ensures SomeContributes(input, larger, s)
  {
    hide Steady, IsSuite, IsRoot, PicksAlone, Reaches, OnReviewPath, CodeIn, Targets, Idle, InLib, LibIndex,
         ReviewRoots;
    hide Candidates;
    var calm := Calm(input, allowed, larger, f, s);
    ReplayStays(input, larger, calm, f, s);
    if !SomeContributes(input, larger, s) {
      var g := ResolveBase("src/lib", KnownWith(input.files, larger)).value;
      LibCandidates(g);
      DirectoryIsTarget(input.files, g);
      NewContributes(input, allowed, larger, f, s, g);
      ContributesToLess(input, {f, g}, {g}, g, s);
      DrawnTo(input, allowed, larger, g, s);
    }
  }

  lemma ContributionStays(input: Input, allowed: iset<string>, larger: set<string>, f: string, s: string)
    requires Steady(input, allowed) && Within(larger, allowed) && IsSuite(s) && s !in input.always
    requires f in larger && Contributes(input, {f}, f, s)
    ensures SomeContributes(input, larger, s)
  {
    hide Steady, IsSuite, IsRoot, PicksAlone, Reaches, OnReviewPath, Idle;
    var calm := Calm(input, allowed, larger, f, s);
    ContributesInCalm(input, allowed, larger, f, s);
    assert PicksAlone(input, f, s) ==> Contributes(input, larger, f, s);
    if ReplayedFor(input, calm, f, s) {
      ReplayOrGraphStays(input, allowed, larger, f, s);
    } else if ReachedBy(input, calm, f, s) {
      var p := GraphStays(input, allowed, larger, f, s);
      if !SomeContributes(input, larger, s) { ReplayedAlone(input, allowed, larger, f, p, s); }
    }
  }

  lemma ReplayedAlone(input: Input, allowed: iset<string>, larger: set<string>, f: string, p: string, s: string)
    requires Steady(input, allowed) && Within(larger, allowed) && IsSuite(s) && s !in input.always
    requires p in larger && !IsRoot(p) && ReplayedFor(input, {f, p}, p, s)
    ensures SomeContributes(input, larger, s)
  {
    hide Steady, IsSuite, IsRoot, PicksAlone, Reaches, OnReviewPath, Idle;
    ContributesToLess(input, {f, p}, {p}, p, s);
    ContributesInCalm(input, allowed, larger, p, s);
    assert PicksAlone(input, p, s) ==> Contributes(input, larger, p, s);
    if !PicksAlone(input, p, s) { ReplayOrGraphStays(input, allowed, larger, p, s); }
  }

  lemma SteadyGrows(input: Input, allowed: iset<string>, changed: set<string>, larger: set<string>, s: string)
    requires Steady(input, allowed) && changed <= larger && (forall f :: f in larger ==> f in allowed)
    requires Selected(input, changed, s)
    ensures Selected(input, larger, s)
  {
    hide Steady, IsSuite, Selected, Contributes;
    SelectedBySome(input, changed, s);
    SelectedBySome(input, larger, s);
    if s !in input.always {
      var f :| f in changed && Contributes(input, changed, f, s);
      ContributesToLess(input, changed, {f}, f, s);
      ContributionStays(input, allowed, larger, f, s);
    }
  }

  // ---------- A change that loses a suite ----------

  /** A suite that imports `src/data`, which is the file `src/data.ts`. */
  function DataTree(suite: string): Files {
    map[suite := Source(["src/data"], []), "src/data.ts" := Source([], [])]
  }

  /** There a change of the file selects the suite, and no longer when the path `src/data` is part of the change. */
  lemma BarePathDropsSuite(suite: string, input: Input, changed: set<string>, larger: set<string>)
    requires IsSuite(suite) && input == Input(DataTree(suite), [], {}, (f: string) => {}, (f: string) => false, "")
    requires changed == {"src/data.ts"} && larger == {"src/data.ts", "src/data"}
    ensures !FullRun(input, larger)
    ensures Selected(input, changed, suite) && !Selected(input, larger, suite)
  {
    hide IsSuite, ReachesAny, KnownWith, DataTree, ReplayPicked;
    NoSuiteInData(suite);
    DataResolves(suite, KnownWith(input.files, changed), KnownWith(input.files, larger));
    SelectedBefore(suite, input.files, KnownWith(input.files, changed));
    LostAfter(suite, input.files, KnownWith(input.files, larger));
    RootsOfData(changed, larger);
  }

  lemma NoSuiteInData(suite: string)
    requires IsSuite(suite)
    ensures !IsSuite("src/data.ts") && !IsSuite("src/data") && "" !in DataTree(suite)
    ensures suite != "src/data.ts" && suite != "src/data"
  {
    assert suite[0] == 't' && "src/data.ts"[0] == 's' && "src/data"[0] == 's' && "test/"[0] == 't';
    assert |""| == 0 && |"src/data.ts"| == 11;
  }

  lemma RootsOfData(changed: set<string>, larger: set<string>)
    requires changed == {"src/data.ts"} && larger == {"src/data.ts", "src/data"}
    ensures Roots(changed) == Roots(larger) == {"src/data.ts"}
  {
    var file, bare := "src/data.ts", "src/data";
    assert file[8..] == ".ts" && IsCode(file);
    assert bare[7] == 'a' && !IsCode(bare) && |bare| == 8 && !IsContract(bare);
  }

  lemma DataResolves(suite: string, known: set<string>, more: set<string>)
    requires IsSuite(suite) && known == KnownWith(DataTree(suite), {"src/data.ts"})
    requires more == KnownWith(DataTree(suite), {"src/data.ts", "src/data"})
    ensures ResolveBase("src/data", known) == Some("src/data.ts") && ResolveBase("src/data", more) == Some("src/data")
  {
    hide IsSuite;
    NoSuiteInData(suite);
    var c := Candidates("src/data");
    assert !EndsWith("src/data", ".mjs") && !EndsWith("src/data", ".cjs") && !EndsWith("src/data", ".js");
    assert c[0] == "src/data" && c[1] == "src/data.ts" && |c[0]| == 8 && |c[1]| == 11;
    FirstKnownIs(c, known, 1);
    FirstKnownIs(c, more, 0);
  }

  lemma SelectedBefore(suite: string, files: Files, known: set<string>)
    requires IsSuite(suite) && files == DataTree(suite) && ResolveBase("src/data", known) == Some("src/data.ts")
    ensures ReachesAny(files, known, suite, {"src/data.ts"})
  {
    hide IsSuite, IsCode, ResolveBase, Reaches;
    NoSuiteInData(suite);
    SuiteIsCode(suite);
    assert files[suite] == Source(["src/data"], []) && "src/data" in files[suite].bases;
    RootReachesItself(files, known, "src/data.ts");
    ImporterReaches(files, known, suite, "src/data.ts", "src/data.ts");
  }

  lemma LostAfter(suite: string, files: Files, known: set<string>)
    requires IsSuite(suite) && files == DataTree(suite) && ResolveBase("src/data", known) == Some("src/data")
    ensures !ReachesAny(files, known, suite, {"src/data.ts"})
  {
    hide IsSuite, IsCode, ResolveBase;
    NoSuiteInData(suite);
    assert |"src/data"| == 8 && |"src/data.ts"| == 11;
    forall path | IsPath(files, known, path) && path[0] == suite ensures path[|path| - 1] != "src/data.ts" {
      if |path| > 1 {
        EdgeOf(files, known, path, 0);
        assert path[1] == "src/data";
        if |path| > 2 { EdgeOf(files, known, path, 1); }
      }
    }
  }
}
