/** Selecting the test suites a change can reach: the import graph, the reverse walk and the review path. */
module AffectedSuites {
  import opened Wrappers

  predicate EndsWith(s: string, suffix: string) { |suffix| <= |s| && s[|s| - |suffix|..] == suffix }

  predicate IsCode(f: string) {
    EndsWith(f, ".ts") || EndsWith(f, ".mts") || EndsWith(f, ".mjs") || EndsWith(f, ".js") || EndsWith(f, ".cjs")
  }

  predicate IsSuite(f: string) { |f| >= 13 && "test/" <= f && EndsWith(f, ".test.ts") }

  predicate IsContract(f: string) { f == "openapi/daemon.yaml" || f == "packages/api-client/src/schema.d.ts" }

  lemma SuiteIsCode(f: string)
    requires IsSuite(f)
    ensures IsCode(f)
  {
    assert f[|f| - 3..] == f[|f| - 8..][5..] == ".ts";
  }

  // ---------- Resolving an import ----------

  function Stem(base: string): string {
    if EndsWith(base, ".mjs") || EndsWith(base, ".cjs") then base[..|base| - 4]
    else if EndsWith(base, ".js") then base[..|base| - 3]
    else base
  }

  function Candidates(base: string): seq<string> {
    [base, Stem(base) + ".ts", Stem(base) + ".mts", base + ".ts", base + ".mjs", base + ".js", base + "/index.ts"]
  }

  function FirstKnown(candidates: seq<string>, known: set<string>): (r: Option<string>)
    ensures r.Some? ==> r.value in candidates && r.value in known
    ensures r.None? ==> forall c :: c in candidates ==> c !in known
  {
    if candidates == [] then None
    else if candidates[0] in known then Some(candidates[0]) else FirstKnown(candidates[1..], known)
  }

  function ResolveBase(base: string, known: set<string>): Option<string> { FirstKnown(Candidates(base), known) }

  /** New targets can redirect an import, and then only to one of them. */
  lemma {:induction false} RedirectedToNew(candidates: seq<string>, known: set<string>, more: set<string>)
    requires known <= more
    ensures var before, after := FirstKnown(candidates, known), FirstKnown(candidates, more);
            after == before || (after.Some? && after.value in more - known)
  {
    if candidates != [] { RedirectedToNew(candidates[1..], known, more); }
  }

  // ---------- The graph ----------

  /** A code file: the paths its import specifiers stand for before extensions are tried, and the repository paths it
      names and uses. */
  datatype Source = Source(bases: seq<string>, named: seq<string>)

  type Files = map<string, Source>

  function CodeIn(files: Files): set<string> { set f | f in files && IsCode(f) }

  function KnownWith(files: Files, targets: set<string>): set<string> { CodeIn(files) + targets }

  predicate Imports(files: Files, known: set<string>, file: string, dep: string) {
    file in files && IsCode(file) && dep != file
      && exists b :: b in files[file].bases && ResolveBase(b, known) == Some(dep)
  }

  predicate Names(files: Files, known: set<string>, file: string, dep: string) {
    file in files && IsCode(file) && dep != file && dep in known && dep in files[file].named
  }

  predicate Depends(files: Files, known: set<string>, file: string, dep: string) {
    Imports(files, known, file, dep) || Names(files, known, file, dep)
  }

  datatype Graph = Graph(importers: map<string, set<string>>, directImports: map<string, set<string>>)

  function At(m: map<string, set<string>>, key: string): set<string> { if key in m then m[key] else {} }

  function ImportsOf(source: Source, known: set<string>, file: string): set<string> {
    set b, dep | b in source.bases && dep in known && ResolveBase(b, known) == Some(dep) && dep != file :: dep
  }

  function NamesOf(source: Source, known: set<string>, file: string): set<string> {
    set dep | dep in source.named && dep in known && dep != file
  }

  ghost predicate IsGraph(g: Graph, files: Files, known: set<string>) {
    && (forall dep, file :: file in At(g.importers, dep) <==> Depends(files, known, file, dep))
    && forall file, dep :: dep in At(g.directImports, file) <==> Imports(files, known, file, dep)
  }

  /** The graph of the files not left to do. */
  ghost predicate PartGraph(g: Graph, files: Files, known: set<string>, todo: set<string>) {
    && (forall dep, file :: file in At(g.importers, dep) <==> file !in todo && Depends(files, known, file, dep))
    && forall file, dep :: dep in At(g.directImports, file) <==> file !in todo && Imports(files, known, file, dep)
  }

  /** The graph built file by file. */
  method BuildGraph(files: Files, targets: set<string>) returns (g: Graph)
    ensures IsGraph(g, files, KnownWith(files, targets))
  {
    hide *;
    var known := KnownWith(files, targets);
    g := Graph(map[], map[]);
    var todo := CodeIn(files);
    StartGraph(files, known);
    while todo != {}
      invariant PartGraph(g, files, known, todo) && todo <= CodeIn(files)
      decreases |todo|
    {
      var file :| file in todo;
      CodeOnly(files, file);
      var imported := ImportsOf(files[file], known, file);
      var deps := imported + NamesOf(files[file], known, file);
      StepGraph(g, files, known, todo, file, imported, deps);
      g := Graph(AddImporter(g.importers, deps, file), g.directImports[file := imported]);
      todo := todo - {file};
    }
    FinishGraph(g, files, known);
  }

  lemma CodeOnly(files: Files, file: string)
    requires file in CodeIn(files)
    ensures file in files && IsCode(file)
  {
    hide IsCode;
  }

  lemma StartGraph(files: Files, known: set<string>)
    ensures PartGraph(Graph(map[], map[]), files, known, CodeIn(files))
  {
    hide IsCode, ResolveBase;
  }

  lemma FinishGraph(g: Graph, files: Files, known: set<string>)
    requires PartGraph(g, files, known, {})
    ensures IsGraph(g, files, known)
  {
    hide Depends, Imports;
  }

  lemma StepGraph(g: Graph, files: Files, known: set<string>, todo: set<string>, file: string, imported: set<string>,
                  deps: set<string>)
    requires PartGraph(g, files, known, todo) && file in todo && file in files && IsCode(file)
    requires imported == ImportsOf(files[file], known, file) && deps == imported + NamesOf(files[file], known, file)
    ensures PartGraph(Graph(AddImporter(g.importers, deps, file), g.directImports[file := imported]), files, known,
                      todo - {file})
  {
    hide ImportsOf, NamesOf, Imports, Names, AddImporter;
    ImportsAre(files, known, file);
    var g' := Graph(AddImporter(g.importers, deps, file), g.directImports[file := imported]);
    forall dep, f ensures f in At(g'.importers, dep) <==> f !in todo - {file} && Depends(files, known, f, dep) {
      assert At(g'.importers, dep) == At(g.importers, dep) + if dep in deps then {file} else {};
    }
    forall f, dep ensures dep in At(g'.directImports, f) <==> f !in todo - {file} && Imports(files, known, f, dep) {
      if f != file { assert At(g'.directImports, f) == At(g.directImports, f); }
    }
  }

  lemma ImportsAre(files: Files, known: set<string>, file: string)
    requires file in files && IsCode(file)
    ensures forall dep :: dep in ImportsOf(files[file], known, file) <==> Imports(files, known, file, dep)
    ensures forall dep :: dep in NamesOf(files[file], known, file) <==> Names(files, known, file, dep)
  {
  }

  function AddImporter(importers: map<string, set<string>>, deps: set<string>,
                       file: string): (after: map<string, set<string>>)
    ensures forall dep :: At(after, dep) == At(importers, dep) + if dep in deps then {file} else {}
  {
    map dep | dep in importers.Keys + deps :: At(importers, dep) + if dep in deps then {file} else {}
  }

  // ---------- Reaching a changed file ----------

  /** `path` leads from its first file along dependencies. */
  ghost predicate IsPath(files: Files, known: set<string>, path: seq<string>) {
    path != [] && forall i :: 0 <= i < |path| - 1 ==> Depends(files, known, path[i], path[i + 1])
  }

  ghost predicate LeadsTo(files: Files, known: set<string>, path: seq<string>, from: string, to: string) {
    IsPath(files, known, path) && path[0] == from && path[|path| - 1] == to
  }

  ghost predicate Reaches(files: Files, known: set<string>, from: string, to: string) {
    exists path :: LeadsTo(files, known, path, from, to)
  }

  ghost predicate ReachesAny(files: Files, known: set<string>, from: string, roots: set<string>) {
    exists root :: root in roots && Reaches(files, known, from, root)
  }

  lemma RootReachesItself(files: Files, known: set<string>, root: string)
    ensures Reaches(files, known, root, root)
  {
    assert LeadsTo(files, known, [root], root, root);
  }

  lemma ImporterReaches(files: Files, known: set<string>, next: string, file: string, root: string)
    requires Depends(files, known, next, file) && Reaches(files, known, file, root)
    ensures Reaches(files, known, next, root)
  {
    hide Depends;
    var path :| LeadsTo(files, known, path, file, root);
    var longer := [next] + path;
    forall i | 0 <= i < |longer| - 1 ensures Depends(files, known, longer[i], longer[i + 1]) {
      if i > 0 { assert longer[i] == path[i - 1] && longer[i + 1] == path[i]; }
    }
    assert LeadsTo(files, known, longer, next, root);
  }

  // ---------- The reverse walk ----------

  /** A file to visit, on the way from a changed root. */
  datatype Item = Item(file: string, root: string)

  ghost predicate Waits(queue: seq<Item>, contract: bool, file: string) {
    exists q :: q in queue && q.file == file && IsContract(q.root) == contract
  }

  ghost function Class(roots: set<string>, contract: bool): set<string> {
    set r | r in roots && IsContract(r) == contract
  }

  /** One of the two visited sets: sound, and closed but for what waits. */
  ghost predicate Walked(files: Files, known: set<string>, roots: set<string>, contract: bool, queue: seq<Item>,
                         visited: set<string>)
  {
    && (forall v :: v in visited ==> ReachesAny(files, known, v, Class(roots, contract)))
    && (forall v, n :: v in visited && Depends(files, known, n, v) ==> n in visited || Waits(queue, contract, n))
    && (forall r :: r in Class(roots, contract) ==> r in visited || Waits(queue, contract, r))
  }

  ghost predicate QueueSound(files: Files, known: set<string>, roots: set<string>, queue: seq<Item>, nodes: set<string>)
  {
    forall q :: q in queue ==> q.root in roots && q.file in nodes && Reaches(files, known, q.file, q.root)
  }

  ghost predicate PickedRight(files: Files, known: set<string>, roots: set<string>, picked: set<string>,
                              visited: set<string>)
  {
    && (forall p :: p in picked ==> IsSuite(p) && ReachesAny(files, known, p, roots))
    && (forall v :: v in visited && IsSuite(v) ==> v in picked || v in roots)
  }

  ghost predicate WalkInv(files: Files, known: set<string>, roots: set<string>, nodes: set<string>, queue: seq<Item>,
                          seen: set<string>, contractSeen: set<string>, picked: set<string>)
  {
    && Walked(files, known, roots, false, queue, seen) && Walked(files, known, roots, true, queue, contractSeen)
    && QueueSound(files, known, roots, queue, nodes) && PickedRight(files, known, roots, picked, seen + contractSeen)
    && seen <= nodes && contractSeen <= nodes
  }

  /** Suites found by walking importers from every changed code or contract file. */
  method ImportArm(g: Graph, files: Files, known: set<string>, changed: seq<string>) returns (picked: set<string>)
    requires IsGraph(g, files, known)
    ensures forall s :: s in picked || (s in changed && IsSuite(s)) <==>
              IsSuite(s) && ReachesAny(files, known, s, RootsOf(changed))
  {
    hide *;
    ghost var roots := RootsOf(changed);
    ghost var nodes := CodeIn(files) + roots;
    var queue := RootItems(changed);
    var seen: set<string>, contractSeen: set<string> := {}, {};
    picked := {};
    RootsAre(changed, queue);
    StartWalk(files, known, roots, nodes, queue);
    while queue != []
      invariant WalkInv(files, known, roots, nodes, queue, seen, contractSeen, picked)
      invariant seen <= nodes && contractSeen <= nodes
      decreases |nodes - seen| + |nodes - contractSeen|, |queue|
    {
      ghost var before := queue;
      var item := queue[0];
      queue := queue[1..];
      var contract := IsContract(item.root);
      var visited := if contract then contractSeen else seen;
      if item.file in visited {
        SkipKeeps(files, known, roots, nodes, before, queue, item, seen, contractSeen, picked);
        continue;
      }
      var more := PushAll(queue, At(g.importers, item.file), item.root);
      var picked' := if IsSuite(item.file) && item.file != item.root then picked + {item.file} else picked;
      VisitKeeps(g, files, known, roots, nodes, before, more, item, seen, contractSeen, picked, picked');
      if contract { contractSeen := contractSeen + {item.file}; } else { seen := seen + {item.file}; }
      queue, picked := more, picked';
    }
    WalkDone(files, known, roots, nodes, seen, contractSeen, picked, changed);
  }

  ghost function RootsOf(changed: seq<string>): set<string> { set f | f in changed && (IsCode(f) || IsContract(f)) }

  function RootItems(changed: seq<string>): (queue: seq<Item>)
    ensures forall q :: q in queue <==> q.file == q.root && q.file in changed && (IsCode(q.file) || IsContract(q.file))
  {
    if changed == [] then []
    else
      var root := IsCode(changed[0]) || IsContract(changed[0]);
      (if root then [Item(changed[0], changed[0])] else []) + RootItems(changed[1..])
  }

  method PushAll(queue: seq<Item>, next: set<string>, root: string) returns (more: seq<Item>)
    ensures forall q :: q in more <==> q in queue || (q.root == root && q.file in next)
  {
    more := queue;
    var todo := next;
    while todo != {}
      invariant todo <= next
      invariant forall q :: q in more <==> q in queue || (q.root == root && q.file in next && q.file !in todo)
      decreases |todo|
    {
      var file :| file in todo;
      todo := todo - {file};
      more := more + [Item(file, root)];
    }
  }

  lemma StartWalk(files: Files, known: set<string>, roots: set<string>, nodes: set<string>, queue: seq<Item>)
    requires roots <= nodes
    requires forall q :: q in queue <==> q.file == q.root && q.file in roots
    ensures WalkInv(files, known, roots, nodes, queue, {}, {}, {})
  {
    hide Depends, IsSuite, IsContract, Reaches;
    forall q | q in queue ensures Reaches(files, known, q.file, q.root) { RootReachesItself(files, known, q.root); }
    forall contract, r | r in Class(roots, contract) ensures Waits(queue, contract, r) {
      assert Item(r, r) in queue;
    }
  }

  lemma WaitsStill(queue: seq<Item>, rest: seq<Item>, item: Item, contract: bool, file: string)
    requires Waits(queue, contract, file) && (forall q :: q in queue ==> q == item || q in rest)
    requires file != item.file || contract != IsContract(item.root)
    ensures Waits(rest, contract, file)
  {
    hide IsContract;
    var q :| q in queue && q.file == file && IsContract(q.root) == contract;
    assert q in rest;
  }

  /** Dropping an item keeps a visited set closed if its file has been visited. */
  lemma WalkedWithout(files: Files, known: set<string>, roots: set<string>, contract: bool, queue: seq<Item>,
                      rest: seq<Item>, item: Item, visited: set<string>)
    requires Walked(files, known, roots, contract, queue, visited) && forall q :: q in queue ==> q == item || q in rest
    requires IsContract(item.root) == contract ==> item.file in visited
    ensures Walked(files, known, roots, contract, rest, visited)
  {
    hide Depends, IsContract, ReachesAny, Waits, Class;
    forall v, n | v in visited && Depends(files, known, n, v) ensures n in visited || Waits(rest, contract, n) {
      if n !in visited { WaitsStill(queue, rest, item, contract, n); }
    }
    forall r | r in Class(roots, contract) ensures r in visited || Waits(rest, contract, r) {
      if r !in visited { WaitsStill(queue, rest, item, contract, r); }
    }
  }

  lemma RootsAre(changed: seq<string>, queue: seq<Item>)
    requires queue == RootItems(changed)
    ensures forall q :: q in queue <==> q.file == q.root && q.file in RootsOf(changed)
  {
    hide IsCode, IsContract, RootItems;
  }

  lemma SkipKeeps(files: Files, known: set<string>, roots: set<string>, nodes: set<string>, queue: seq<Item>,
                  rest: seq<Item>, item: Item, seen: set<string>, contractSeen: set<string>, picked: set<string>)
    requires WalkInv(files, known, roots, nodes, queue, seen, contractSeen, picked) && queue != [] && item == queue[0]
    requires rest == queue[1..] && item.file in (if IsContract(item.root) then contractSeen else seen)
    ensures WalkInv(files, known, roots, nodes, rest, seen, contractSeen, picked)
  {
    hide Walked, IsContract, PickedRight;
    WalkedWithout(files, known, roots, false, queue, rest, item, seen);
    WalkedWithout(files, known, roots, true, queue, rest, item, contractSeen);
  }

  lemma WalkedMore(g: Graph, files: Files, known: set<string>, roots: set<string>, queue: seq<Item>, more: seq<Item>,
                   item: Item, visited: set<string>)
    requires IsGraph(g, files, known) && Walked(files, known, roots, IsContract(item.root), queue, visited)
    requires item.root in roots && Reaches(files, known, item.file, item.root)
    requires forall q :: q in queue ==> q == item || q in more
    requires forall n :: n in At(g.importers, item.file) ==> Item(n, item.root) in more
    ensures Walked(files, known, roots, IsContract(item.root), more, visited + {item.file})
  {
    hide Depends, IsContract, Reaches;
    var contract, visited' := IsContract(item.root), visited + {item.file};
    assert item.root in Class(roots, contract);
    forall v, n | v in visited' && Depends(files, known, n, v) ensures n in visited' || Waits(more, contract, n) {
      if v == item.file {
        assert n in At(g.importers, item.file);
        assert Item(n, item.root) in more;
      } else if n !in visited' {
        WaitsStill(queue, more, item, contract, n);
      }
    }
    forall r | r in Class(roots, contract) ensures r in visited' || Waits(more, contract, r) {
      if r !in visited' { WaitsStill(queue, more, item, contract, r); }
    }
  }

  lemma VisitKeeps(g: Graph, files: Files, known: set<string>, roots: set<string>, nodes: set<string>, queue: seq<Item>,
                   more: seq<Item>, item: Item, seen: set<string>, contractSeen: set<string>, picked: set<string>,
                   picked': set<string>)
    requires IsGraph(g, files, known) && WalkInv(files, known, roots, nodes, queue, seen, contractSeen, picked)
    requires nodes == CodeIn(files) + roots && queue != [] && item == queue[0]
    requires item.file !in (if IsContract(item.root) then contractSeen else seen)
    requires forall q :: q in more <==> q in queue[1..] || (q.root == item.root && q.file in At(g.importers, item.file))
    requires picked' == if IsSuite(item.file) && item.file != item.root then picked + {item.file} else picked
    ensures var seen' := if IsContract(item.root) then seen else seen + {item.file};
            var contractSeen' := if IsContract(item.root) then contractSeen + {item.file} else contractSeen;
            && WalkInv(files, known, roots, nodes, more, seen', contractSeen', picked')
            && |nodes - seen'| + |nodes - contractSeen'| < |nodes - seen| + |nodes - contractSeen|
  {
    hide *;
    InvAt(files, known, roots, nodes, queue, seen, contractSeen, picked);
    var contract := IsContract(item.root);
    var visited, other := if contract then contractSeen else seen, if contract then seen else contractSeen;
    ImportersSound(g, files, known, nodes, item);
    WalkedMore(g, files, known, roots, queue, more, item, visited);
    WalkedWithout(files, known, roots, !contract, queue, more, item, other);
    QueueMore(files, known, roots, nodes, queue, more, item, At(g.importers, item.file));
    PickMore(files, known, roots, picked, picked', seen + contractSeen, item);
    FewerNodes(nodes, visited, item.file);
    if contract {
      assert seen + (contractSeen + {item.file}) == seen + contractSeen + {item.file};
      AsInv(files, known, roots, nodes, more, seen, contractSeen + {item.file}, picked');
    } else {
      assert (seen + {item.file}) + contractSeen == seen + contractSeen + {item.file};
      AsInv(files, known, roots, nodes, more, seen + {item.file}, contractSeen, picked');
    }
  }

  lemma InvAt(files: Files, known: set<string>, roots: set<string>, nodes: set<string>, queue: seq<Item>,
              seen: set<string>, contractSeen: set<string>, picked: set<string>)
    requires WalkInv(files, known, roots, nodes, queue, seen, contractSeen, picked) && queue != []
    ensures Walked(files, known, roots, false, queue, seen) && Walked(files, known, roots, true, queue, contractSeen)
    ensures QueueSound(files, known, roots, queue, nodes)
            && PickedRight(files, known, roots, picked, seen + contractSeen)
    ensures seen <= nodes && contractSeen <= nodes && queue[0].root in roots && queue[0].file in nodes
    ensures Reaches(files, known, queue[0].file, queue[0].root)
  {
    hide Walked, PickedRight, Reaches;
  }

  lemma AsInv(files: Files, known: set<string>, roots: set<string>, nodes: set<string>, queue: seq<Item>,
              seen: set<string>, contractSeen: set<string>, picked: set<string>)
    requires Walked(files, known, roots, false, queue, seen) && Walked(files, known, roots, true, queue, contractSeen)
    requires QueueSound(files, known, roots, queue, nodes)
             && PickedRight(files, known, roots, picked, seen + contractSeen)
    requires seen <= nodes && contractSeen <= nodes
    ensures WalkInv(files, known, roots, nodes, queue, seen, contractSeen, picked)
  {
    hide Walked, PickedRight, QueueSound;
  }

  lemma QueueMore(files: Files, known: set<string>, roots: set<string>, nodes: set<string>, queue: seq<Item>,
                  more: seq<Item>, item: Item, next: set<string>)
    requires QueueSound(files, known, roots, queue, nodes) && queue != [] && item == queue[0]
    requires forall q :: q in more <==> q in queue[1..] || (q.root == item.root && q.file in next)
    requires forall n :: n in next ==> n in nodes && Reaches(files, known, n, item.root)
    ensures QueueSound(files, known, roots, more, nodes)
  {
    hide Reaches;
    assert item in queue;
    forall q | q in queue[1..] ensures q in queue {}
  }

  lemma PickMore(files: Files, known: set<string>, roots: set<string>, picked: set<string>, picked': set<string>,
                 visited: set<string>, item: Item)
    requires PickedRight(files, known, roots, picked, visited) && item.root in roots
    requires Reaches(files, known, item.file, item.root)
    requires picked' == if IsSuite(item.file) && item.file != item.root then picked + {item.file} else picked
    ensures PickedRight(files, known, roots, picked', visited + {item.file})
  {
    hide IsSuite, Reaches;
    assert ReachesAny(files, known, item.file, roots);
  }

  lemma ImportersSound(g: Graph, files: Files, known: set<string>, nodes: set<string>, item: Item)
    requires IsGraph(g, files, known) && CodeIn(files) <= nodes && Reaches(files, known, item.file, item.root)
    ensures forall n :: n in At(g.importers, item.file) ==> n in nodes && Reaches(files, known, n, item.root)
  {
    hide Reaches, IsCode, ResolveBase;
    forall n | n in At(g.importers, item.file) ensures n in nodes && Reaches(files, known, n, item.root) {
      assert Depends(files, known, n, item.file);
      ImporterReaches(files, known, n, item.file, item.root);
    }
  }

  lemma FewerNodes(nodes: set<string>, visited: set<string>, file: string)
    requires file in nodes && file !in visited
    ensures |nodes - (visited + {file})| < |nodes - visited|
  {
    assert nodes - (visited + {file}) == (nodes - visited) - {file};
  }

  /** A set closed under importers holds everything that leads into it. */
  lemma {:induction false} ClosedHoldsPath(files: Files, known: set<string>, visited: set<string>, path: seq<string>,
                                           i: nat)
    requires IsPath(files, known, path) && i < |path| && path[|path| - 1] in visited
    requires forall v, n :: v in visited && Depends(files, known, n, v) ==> n in visited
    ensures path[i] in visited
    decreases |path| - i
  {
    hide Depends;
    if i < |path| - 1 {
      ClosedHoldsPath(files, known, visited, path, i + 1);
      assert Depends(files, known, path[i], path[i + 1]);
    }
  }

  lemma WalkDone(files: Files, known: set<string>, roots: set<string>, nodes: set<string>, seen: set<string>,
                 contractSeen: set<string>, picked: set<string>, changed: seq<string>)
    requires WalkInv(files, known, roots, nodes, [], seen, contractSeen, picked) && roots == RootsOf(changed)
    ensures forall s :: s in picked || (s in changed && IsSuite(s)) <==>
              IsSuite(s) && ReachesAny(files, known, s, roots)
  {
    hide Depends, IsContract, IsSuite, Reaches, IsCode;
    forall s ensures s in picked || (s in changed && IsSuite(s)) <==> IsSuite(s) && ReachesAny(files, known, s, roots) {
      if s in changed && IsSuite(s) {
        SuiteIsCode(s);
        RootReachesItself(files, known, s);
        assert s in roots;
      }
      if IsSuite(s) && ReachesAny(files, known, s, roots) {
        var root :| root in roots && Reaches(files, known, s, root);
        WalkFinds(files, known, roots, seen, contractSeen, s, root);
      }
    }
  }

  lemma WalkFinds(files: Files, known: set<string>, roots: set<string>, seen: set<string>, contractSeen: set<string>,
                  s: string, root: string)
    requires Walked(files, known, roots, false, [], seen) && Walked(files, known, roots, true, [], contractSeen)
    requires root in roots && Reaches(files, known, s, root)
    ensures s in seen + contractSeen
  {
    hide Depends, IsContract, ReachesAny;
    var path :| LeadsTo(files, known, path, s, root);
    var visited := if IsContract(root) then contractSeen else seen;
    assert root in Class(roots, IsContract(root));
    forall v, n | v in visited && Depends(files, known, n, v) ensures n in visited {}
    ClosedHoldsPath(files, known, visited, path, 0);
  }

  // ---------- A larger change reaches no fewer suites ----------

  lemma ImportOrRedirect(files: Files, known: set<string>, more: set<string>, file: string, dep: string)
    returns (now: string)
    requires known <= more && Imports(files, known, file, dep)
    ensures now == dep || now in more - known
    ensures now == file || Imports(files, more, file, now)
    ensures exists b :: b in files[file].bases && dep in Candidates(b) && now in Candidates(b)
  {
    hide Candidates, IsCode;
    var b :| b in files[file].bases && ResolveBase(b, known) == Some(dep);
    RedirectedToNew(Candidates(b), known, more);
    now := ResolveBase(b, more).value;
  }

  lemma {:induction false} PathStays(files: Files, known: set<string>, more: set<string>, roots: set<string>,
                                     path: seq<string>, i: nat)
    requires known <= more && more - known <= roots && IsPath(files, known, path) && i < |path|
             && path[|path| - 1] in roots
    ensures ReachesAny(files, more, path[i], roots)
    decreases |path| - i
  {
    hide Reaches, Imports, Names, IsPath;
    RootReachesItself(files, more, path[i]);
    if i < |path| - 1 {
      PathStays(files, known, more, roots, path, i + 1);
      EdgeOf(files, known, path, i);
      EdgeStays(files, known, more, roots, path[i], path[i + 1]);
    }
  }

  lemma EdgeOf(files: Files, known: set<string>, path: seq<string>, i: nat)
    requires IsPath(files, known, path) && i < |path| - 1
    ensures Depends(files, known, path[i], path[i + 1])
  {
    hide Depends;
  }

  /** A redirected edge lands on a changed file. */
  lemma EdgeStays(files: Files, known: set<string>, more: set<string>, roots: set<string>, file: string, dep: string)
    requires known <= more && more - known <= roots && Depends(files, known, file, dep)
             && ReachesAny(files, more, dep, roots)
    ensures ReachesAny(files, more, file, roots)
  {
    hide Reaches, IsCode, ResolveBase;
    var root :| root in roots && Reaches(files, more, dep, root);
    if Names(files, known, file, dep) {
      ImporterReaches(files, more, file, dep, root);
    } else {
      var now := ImportOrRedirect(files, known, more, file, dep);
      RootReachesItself(files, more, now);
      var target := if now == dep then root else now;
      if now != file { ImporterReaches(files, more, file, now, target); }
    }
  }

  /** What the changed suites and the import arm select for a change. */
  ghost predicate SelectedByGraph(files: Files, changed: set<string>, s: string) {
    IsSuite(s) && ReachesAny(files, KnownWith(files, changed), s, changed)
  }

  lemma LargerChangeSelectsNoFewer(files: Files, changed: set<string>, larger: set<string>, s: string)
    requires changed <= larger && SelectedByGraph(files, changed, s)
    ensures SelectedByGraph(files, larger, s)
  {
    hide IsSuite, Depends, CodeIn;
    var known, more := KnownWith(files, changed), KnownWith(files, larger);
    var root :| root in changed && Reaches(files, known, s, root);
    var path :| LeadsTo(files, known, path, s, root);
    PathStays(files, known, more, larger, path, 0);
  }

  // ---------- The review path ----------

  function ReviewRoots(): set<string> {
    {"src/lib/review.ts", "src/lib/reviewer-worktree-lease.ts", "src/run-task.ts", "src/lib/plan.ts",
     "src/lib/task-linter.ts", "package.json", "package-lock.json"}
  }

  predicate InLib(f: string) { "src/lib/" <= f }

  predicate ReviewEdge(files: Files, known: set<string>, file: string, dep: string) {
    Imports(files, known, file, dep) && InLib(dep)
  }

  ghost predicate IsReviewPath(files: Files, known: set<string>, path: seq<string>) {
    && path != [] && path[0] in ReviewRoots()
    && forall i :: 0 <= i < |path| - 1 ==> ReviewEdge(files, known, path[i], path[i + 1])
  }

  /** The file is a review root, or is imported from one through files of `src/lib`. */
  ghost predicate OnReviewPath(files: Files, known: set<string>, f: string) {
    exists path :: IsReviewPath(files, known, path) && path[|path| - 1] == f
  }

  lemma ReviewRoot(files: Files, known: set<string>, f: string)
    requires f in ReviewRoots()
    ensures OnReviewPath(files, known, f)
  {
    assert IsReviewPath(files, known, [f]);
  }

  lemma ReviewStep(files: Files, known: set<string>, f: string, dep: string)
    requires OnReviewPath(files, known, f) && ReviewEdge(files, known, f, dep)
    ensures OnReviewPath(files, known, dep)
  {
    hide ReviewEdge, ReviewRoots;
    var path :| IsReviewPath(files, known, path) && path[|path| - 1] == f;
    var longer := path + [dep];
    forall i | 0 <= i < |longer| - 1 ensures ReviewEdge(files, known, longer[i], longer[i + 1]) {
      if i < |path| - 1 { assert longer[i] == path[i] && longer[i + 1] == path[i + 1]; }
    }
    assert IsReviewPath(files, known, longer);
  }

  /** The review path, by its own worklist. */
  method ReviewPath(g: Graph, files: Files, known: set<string>) returns (reviewPath: set<string>)
    requires IsGraph(g, files, known)
    ensures forall f :: f in reviewPath <==> OnReviewPath(files, known, f)
  {
    hide *;
    reviewPath := ReviewRoots();
    var queue := reviewPath;
    StartReview(files, known, reviewPath, queue);
    while queue != {}
      invariant queue <= reviewPath && reviewPath <= ReviewRoots() + known && ReviewInv(files, known, reviewPath, queue)
      decreases |(ReviewRoots() + known) - reviewPath|, |queue|
    {
      var file :| file in queue;
      var found := set d | d in At(g.directImports, file) && "src/lib/" <= d && d !in reviewPath;
      VisitReview(g, files, known, reviewPath, queue, file, found);
      if found != {} { FewerLeft(ReviewRoots() + known, reviewPath, found); }
      assert found == {} ==> reviewPath + found == reviewPath && queue - {file} + found == queue - {file};
      reviewPath, queue := reviewPath + found, queue - {file} + found;
    }
    ReviewDone(files, known, reviewPath);
  }

  ghost predicate ReviewInv(files: Files, known: set<string>, reviewPath: set<string>, queue: set<string>) {
    && ReviewRoots() <= reviewPath && (forall f :: f in reviewPath ==> OnReviewPath(files, known, f))
    && forall f, d :: f in reviewPath && f !in queue && ReviewEdge(files, known, f, d) ==> d in reviewPath
  }

  lemma StartReview(files: Files, known: set<string>, reviewPath: set<string>, queue: set<string>)
    requires reviewPath == queue == ReviewRoots()
    ensures ReviewInv(files, known, reviewPath, queue)
  {
    hide OnReviewPath, ReviewEdge, ReviewRoots;
    forall f | f in reviewPath ensures OnReviewPath(files, known, f) { ReviewRoot(files, known, f); }
  }

  lemma VisitReview(g: Graph, files: Files, known: set<string>, reviewPath: set<string>, queue: set<string>,
                    file: string, found: set<string>)
    requires IsGraph(g, files, known) && ReviewInv(files, known, reviewPath, queue) && file in queue
             && queue <= reviewPath
    requires reviewPath <= ReviewRoots() + known
    requires found == set d | d in At(g.directImports, file) && "src/lib/" <= d && d !in reviewPath
    ensures ReviewInv(files, known, reviewPath + found, queue - {file} + found)
    ensures found <= known && reviewPath + found <= ReviewRoots() + known
  {
    hide OnReviewPath, Imports, ReviewRoots;
    forall d | d in found ensures d in known && OnReviewPath(files, known, d) {
      assert ReviewEdge(files, known, file, d);
      ReviewStep(files, known, file, d);
      ImportIsKnown(files, known, file, d);
    }
  }

  lemma ImportIsKnown(files: Files, known: set<string>, file: string, dep: string)
    requires Imports(files, known, file, dep)
    ensures dep in known
  {
    hide Candidates, IsCode;
  }

  lemma FewerLeft(all: set<string>, have: set<string>, found: set<string>)
    requires found != {} && found <= all && found !! have
    ensures |all - (have + found)| < |all - have|
  {
    var x :| x in found;
    var less, left := all - (have + found), all - have;
    assert less <= left - {x} && x in left;
    SmallerSet(less, left - {x});
  }

  lemma {:induction false} SmallerSet(a: set<string>, b: set<string>)
    requires a <= b
    ensures |a| <= |b|
  {
    if a != {} {
      var x :| x in a;
      SmallerSet(a - {x}, b - {x});
    }
  }

  lemma ReviewDone(files: Files, known: set<string>, reviewPath: set<string>)
    requires ReviewInv(files, known, reviewPath, {})
    ensures forall f :: f in reviewPath <==> OnReviewPath(files, known, f)
  {
    hide ReviewEdge, ReviewRoots;
    forall f | OnReviewPath(files, known, f) ensures f in reviewPath {
      var path :| IsReviewPath(files, known, path) && path[|path| - 1] == f;
      ReviewHolds(files, known, reviewPath, path, |path| - 1);
    }
  }

  lemma {:induction false} ReviewHolds(files: Files, known: set<string>, reviewPath: set<string>, path: seq<string>,
                                       i: nat)
    requires ReviewInv(files, known, reviewPath, {}) && IsReviewPath(files, known, path) && i < |path|
    ensures path[i] in reviewPath
  {
    hide ReviewEdge, OnReviewPath, ReviewRoots;
    if i > 0 {
      ReviewHolds(files, known, reviewPath, path, i - 1);
      assert ReviewEdge(files, known, path[i - 1], path[i - 1 + 1]);
    }
  }

  /** The replay suite is picked when a changed file lies on the review path. */
  ghost predicate ReplayPicked(files: Files, changed: set<string>) {
    exists f :: f in changed && OnReviewPath(files, KnownWith(files, changed), f)
  }

  lemma StemInLib(base: string)
    ensures InLib(Stem(base)) <==> InLib(base)
  {
    var tail := |base| - |Stem(base)|;
    if 0 < tail && |base| - tail < 8 <= |base| {
      var k := 7 - (|base| - tail);
      assert base[|base| - tail..][k] == base[7];
      assert EndsWith(base, ".mjs") || EndsWith(base, ".cjs") || EndsWith(base, ".js");
      assert base[7] != '/';
    }
  }

  lemma ExtendedInLib(stem: string, extension: string)
    requires extension != "" && extension[0] == '.'
    ensures InLib(stem + extension) <==> InLib(stem)
  {
    var c := stem + extension;
    assert c[|stem|] == '.';
    assert forall k :: 0 <= k < 8 ==> "src/lib/"[k] != '.';
  }

  lemma IndexInLib(base: string)
    ensures InLib(base + "/index.ts") <==> InLib(base) || base == "src/lib"
  {
    var c := base + "/index.ts";
    assert c[|base|] == '/' && c[|base| + 1] == 'i';
    assert forall k :: 0 <= k < 8 && "src/lib/"[k] == '/' ==> k == 3 || k == 7;
    if |base| == 7 { assert base == c[..7] && "src/lib" == "src/lib/"[..7]; }
  }

  /** Only an import of the directory `src/lib` itself has candidates both inside and outside it. */
  lemma CandidatesAgree(base: string)
    ensures (forall c :: c in Candidates(base) ==> (InLib(c) <==> InLib(base))) <==> base != "src/lib"
  {
    hide InLib, Stem;
    StemInLib(base);
    ExtendedInLib(Stem(base), ".ts");
    ExtendedInLib(Stem(base), ".mts");
    ExtendedInLib(base, ".ts");
    ExtendedInLib(base, ".mjs");
    ExtendedInLib(base, ".js");
    IndexInLib(base);
    assert base + "/index.ts" in Candidates(base);
    if base == "src/lib" { NotInLib(base); }
  }

  lemma NotInLib(base: string)
    requires |base| < 8
    ensures !InLib(base)
  {
  }

  function LibIndex(): string { "src/lib" + "/index.ts" }

  /** Naming `c` in a change turns every import of the directory `src/lib` to it, and that takes the directory's index
      off the review path. */
  ghost predicate DrawnOut(files: Files, c: string) {
    && c in Candidates("src/lib") && !InLib(c)
    && OnReviewPath(files, KnownWith(files, {LibIndex()}), LibIndex())
    && !OnReviewPath(files, KnownWith(files, {LibIndex(), c}), LibIndex())
  }

  /** The import of the directory resolves inside it, and with `more` outside it. */
  predicate Escapes(known: set<string>, more: set<string>) {
    && ResolveBase("src/lib", known) == Some(LibIndex())
    && var now := ResolveBase("src/lib", more); now.Some? && now.value in more - known && !InLib(now.value)
  }

  /** `known` lies between the files there and what a change knows of that picks no replay. */
  ghost predicate Unpicked(files: Files, known: set<string>, larger: set<string>) {
    CodeIn(files) <= known <= KnownWith(files, larger) && !ReplayPicked(files, larger)
  }

  /** The index is the one candidate of the directory that lies in it. */
  lemma LibCandidates(c: string)
    requires c in Candidates("src/lib")
    ensures InLib(c) <==> c == LibIndex()
    ensures !InLib(c) ==> c !in ReviewRoots()
  {
    hide InLib;
    var base := "src/lib";
    assert !EndsWith(base, ".mjs") && !EndsWith(base, ".cjs") && !EndsWith(base, ".js");
    NotInLib(base);
    IndexInLib(base);
    ExtendedInLib(base, ".ts");
    ExtendedInLib(base, ".mts");
    ExtendedInLib(base, ".mjs");
    ExtendedInLib(base, ".js");
    assert forall f :: f in ReviewRoots() ==> |f| >= 12;
    assert c != LibIndex() ==> |c| <= 11;
  }

  /** An import of the review path that leaves it leaves through the directory import. */
  lemma EdgeAcross(files: Files, known: set<string>, larger: set<string>, file: string, dep: string)
    requires Unpicked(files, known, larger) && ReviewEdge(files, known, file, dep)
    requires OnReviewPath(files, KnownWith(files, larger), file)
    ensures OnReviewPath(files, KnownWith(files, larger), dep) ||
            (dep == LibIndex() && Escapes(known, KnownWith(files, larger)))
  {
    hide OnReviewPath, Candidates, InLib, IsCode, LibIndex, CodeIn;
    var more := KnownWith(files, larger);
    var b :| b in files[file].bases && ResolveBase(b, known) == Some(dep);
    RedirectedToNew(Candidates(b), known, more);
    var now := ResolveBase(b, more).value;
    if now == dep || InLib(now) {
      if now != file { ReviewStep(files, more, file, now); }
    } else {
      CandidatesAgree(b);
      LibCandidates(dep);
    }
  }

  /** Where the directory import already resolves outside, nothing is lost. */
  lemma {:induction false} PathKept(files: Files, known: set<string>, larger: set<string>, path: seq<string>, i: nat)
    requires Unpicked(files, known, larger) && !Escapes(known, KnownWith(files, larger))
    requires IsReviewPath(files, known, path) && i < |path|
    ensures OnReviewPath(files, KnownWith(files, larger), path[i])
  {
    hide ReviewEdge, OnReviewPath, ReviewRoots, Unpicked, Escapes, KnownWith;
    if i == 0 {
      ReviewRoot(files, KnownWith(files, larger), path[0]);
    } else {
      PathKept(files, known, larger, path, i - 1);
      assert ReviewEdge(files, known, path[i - 1], path[i - 1 + 1]);
      EdgeAcross(files, known, larger, path[i - 1], path[i]);
    }
  }

  /** Only the end of a path can be a file that is not there. */
  lemma PathInSmaller(files: Files, known: set<string>, few: set<string>, path: seq<string>)
    requires CodeIn(files) <= few <= known && IsReviewPath(files, known, path) && path[|path| - 1] in few
    ensures IsReviewPath(files, few, path)
  {
    hide ReviewRoots, InLib, IsCode, Candidates;
    forall i | 0 <= i < |path| - 1 ensures ReviewEdge(files, few, path[i], path[i + 1]) {
      assert ReviewEdge(files, known, path[i], path[i + 1]);
      if i + 1 < |path| - 1 { assert ReviewEdge(files, known, path[i + 1], path[i + 1 + 1]); }
      var b :| b in files[path[i]].bases && ResolveBase(b, known) == Some(path[i + 1]);
      StillFirst(Candidates(b), known, few, path[i + 1]);
    }
  }

  lemma {:induction false} StillFirst(candidates: seq<string>, known: set<string>, few: set<string>, dep: string)
    requires few <= known && dep in few && FirstKnown(candidates, known) == Some(dep)
    ensures FirstKnown(candidates, few) == Some(dep)
  {
    if candidates[0] !in known { StillFirst(candidates[1..], known, few, dep); }
  }

  /** The index stays on the review path unless the path it is drawn to takes it off. */
  lemma IndexKept(files: Files, known: set<string>, larger: set<string>, path: seq<string>)
    requires Unpicked(files, known, larger) && Escapes(known, KnownWith(files, larger))
    requires IsReviewPath(files, known, path) && path[|path| - 1] == LibIndex()
    requires forall c :: c in larger ==> !DrawnOut(files, c)
    ensures OnReviewPath(files, KnownWith(files, larger), LibIndex())
  {
    hide ReviewEdge, ReviewRoots, InLib, Candidates, LibIndex, CodeIn, ReplayPicked;
    var more := KnownWith(files, larger);
    var now := ResolveBase("src/lib", more).value;
    var few := KnownWith(files, {LibIndex(), now});
    PathInSmaller(files, known, KnownWith(files, {LibIndex()}), path);
    assert OnReviewPath(files, KnownWith(files, {LibIndex()}), LibIndex());
    assert !DrawnOut(files, now);
    var kept :| IsReviewPath(files, few, kept) && kept[|kept| - 1] == LibIndex();
    LibCandidates(now);
    StillFirst(Candidates("src/lib"), more, few, now);
    PathKept(files, few, larger, kept, |kept| - 1);
  }

  lemma {:induction false} PathAcross(files: Files, known: set<string>, larger: set<string>, path: seq<string>, i: nat)
    requires Unpicked(files, known, larger) && IsReviewPath(files, known, path) && i < |path|
    requires forall c :: c in larger ==> !DrawnOut(files, c)
    ensures OnReviewPath(files, KnownWith(files, larger), path[i])
  {
    hide ReviewEdge, OnReviewPath, ReviewRoots, Unpicked, Escapes, KnownWith, DrawnOut;
    if i == 0 {
      ReviewRoot(files, KnownWith(files, larger), path[0]);
    } else {
      PathAcross(files, known, larger, path, i - 1);
      assert ReviewEdge(files, known, path[i - 1], path[i - 1 + 1]);
      EdgeAcross(files, known, larger, path[i - 1], path[i]);
      if !OnReviewPath(files, KnownWith(files, larger), path[i]) { IndexKept(files, known, larger, path[..i + 1]); }
    }
  }

  /** A larger change still picks the replay suite, unless it draws the directory import out. */
  lemma LargerChangeReplaysNoLess(files: Files, changed: set<string>, larger: set<string>)
    requires changed <= larger && ReplayPicked(files, changed) && forall c :: c in larger ==> !DrawnOut(files, c)
    ensures ReplayPicked(files, larger)
  {
    hide ReviewEdge, ReviewRoots, DrawnOut, CodeIn;
    var known := KnownWith(files, changed);
    var f :| f in changed && OnReviewPath(files, known, f);
    var path :| IsReviewPath(files, known, path) && path[|path| - 1] == f;
    if !ReplayPicked(files, larger) { PathAcross(files, known, larger, path, |path| - 1); }
  }

  /** And then it can be lost: by a change of the index alone. */
  lemma DrawnOutLosesReplay(files: Files, c: string)
    requires DrawnOut(files, c)
    ensures ReplayPicked(files, {LibIndex()}) && !ReplayPicked(files, {LibIndex(), c})
  {
    hide ReviewEdge, ReviewRoots, InLib, Candidates, LibIndex, CodeIn;
    LibCandidates(c);
    OffReviewPath(files, KnownWith(files, {LibIndex(), c}), c);
  }

  lemma OffReviewPath(files: Files, known: set<string>, f: string)
    requires !InLib(f) && f !in ReviewRoots()
    ensures !OnReviewPath(files, known, f)
  {
    hide ReviewRoots, Imports, InLib;
    forall path | IsReviewPath(files, known, path) ensures path[|path| - 1] != f {
      if |path| > 1 { assert ReviewEdge(files, known, path[|path| - 2], path[|path| - 2 + 1]); }
    }
  }

  /** Among the changes a caller may make, growing one never loses the replay suite exactly when none of the paths it
      may name draws the directory import out. */
  lemma ReplayGrowsExactly(files: Files, allowed: iset<string>)
    requires LibIndex() in allowed
    ensures (forall changed: set<string>, larger: set<string> ::
               changed <= larger && (forall f :: f in larger ==> f in allowed) && ReplayPicked(files, changed) ==>
                 ReplayPicked(files, larger))
            <==> (forall c :: c in allowed ==> !DrawnOut(files, c))
  {
    hide ReplayPicked, DrawnOut, LibIndex;
    if forall c :: c in allowed ==> !DrawnOut(files, c) {
      forall changed: set<string>, larger: set<string> |
        changed <= larger && (forall f :: f in larger ==> f in allowed) && ReplayPicked(files, changed)
        ensures ReplayPicked(files, larger) {
        LargerChangeReplaysNoLess(files, changed, larger);
      }
    } else {
      var c :| c in allowed && DrawnOut(files, c);
      DrawnOutLosesReplay(files, c);
      assert {LibIndex()} <= {LibIndex(), c};
    }
  }

  /** Two paths are enough to see it: whenever a larger change loses the replay, one changed file had it picked, and one
      more path of the larger change takes it away from that file alone. */
  lemma LostByTwo(files: Files, changed: set<string>, larger: set<string>) returns (f: string, c: string)
    requires changed <= larger && ReplayPicked(files, changed) && !ReplayPicked(files, larger)
    ensures f in changed && c in larger && ReplayPicked(files, {f}) && !ReplayPicked(files, {f, c})
  {
    hide OnReviewPath, ReviewRoots, CodeIn, InLib, Candidates, LibIndex;
    var known, more := KnownWith(files, changed), KnownWith(files, larger);
    f := PickedByOne(files, changed);
    if !Escapes(known, more) { StillPicked(files, known, larger, f); }
    c := ResolveBase("src/lib", more).value;
    LibCandidates(c);
    var few := KnownWith(files, {f, c});
    OffReviewPath(files, few, c);
    StillFirst(Candidates("src/lib"), more, few, c);
    if OnReviewPath(files, few, f) { StillPicked(files, few, larger, f); }
  }

  lemma PickedByOne(files: Files, changed: set<string>) returns (f: string)
    requires ReplayPicked(files, changed)
    ensures f in changed && OnReviewPath(files, KnownWith(files, changed), f)
            && OnReviewPath(files, KnownWith(files, {f}), f)
  {
    hide ReviewEdge, ReviewRoots, CodeIn;
    var known := KnownWith(files, changed);
    f :| f in changed && OnReviewPath(files, known, f);
    var path :| IsReviewPath(files, known, path) && path[|path| - 1] == f;
    PathInSmaller(files, known, KnownWith(files, {f}), path);
  }

  lemma StillPicked(files: Files, known: set<string>, larger: set<string>, f: string)
    requires Unpicked(files, known, larger) && !Escapes(known, KnownWith(files, larger))
             && OnReviewPath(files, known, f)
    ensures OnReviewPath(files, KnownWith(files, larger), f)
  {
    hide ReviewEdge, ReviewRoots, Unpicked, Escapes;
    var path :| IsReviewPath(files, known, path) && path[|path| - 1] == f;
    PathKept(files, known, larger, path, |path| - 1);
  }

  /** A tree with a replay suite and an import of the directory `src/lib`. */
  function SmallTree(replay: string): Files {
    map["src/run-task.ts" := Source(["src/lib"], []), "src/lib/index.ts" := Source([], []), replay := Source([], [])]
  }

  /** There the replay is lost: a deleted `src/lib.ts` in the change draws the import out of `src/lib`. */
  lemma DirectoryImportDropsReplay(replay: string, files: Files, changed: set<string>, larger: set<string>)
    requires IsSuite(replay) && files == SmallTree(replay)
    requires changed == {"src/lib/index.ts"} && larger == {"src/lib/index.ts", "src/lib.ts"}
    ensures ReplayPicked(files, changed) && !ReplayPicked(files, larger)
  {
    hide IsCode, IsSuite, ResolveBase, KnownWith, OnReviewPath, ReviewRoots, SmallTree;
    var known, more := KnownWith(files, changed), KnownWith(files, larger);
    KnownHere(replay, files, changed, larger);
    DirectoryCandidates(replay, known, more);
    PickedBefore(replay, files, known);
    NothingPickedAfter(replay, files, more, larger);
  }

  lemma SuiteIsNoSource(replay: string)
    requires IsSuite(replay)
    ensures |replay| >= 13 && replay != "src/run-task.ts" && replay != "src/lib/index.ts" && replay != "src/lib.ts"
  {
    assert replay[0] == 't';
    assert "src/run-task.ts"[0] == 's' && "src/lib/index.ts"[0] == 's' && "src/lib.ts"[0] == 's';
  }

  lemma PickedBefore(replay: string, files: Files, known: set<string>)
    requires IsSuite(replay) && files == SmallTree(replay)
    requires ResolveBase("src/lib", known) == Some("src/lib/index.ts") && IsCode("src/run-task.ts")
    ensures OnReviewPath(files, known, "src/lib/index.ts")
  {
    hide ResolveBase, OnReviewPath, IsCode, IsSuite;
    SuiteIsNoSource(replay);
    var root, index := "src/run-task.ts", "src/lib/index.ts";
    assert root in ReviewRoots();
    ReviewRoot(files, known, root);
    assert files[root] == Source(["src/lib"], []) && "src/lib" in files[root].bases && index != root;
    assert InLib(index) by { assert index[..8] == "src/lib/"; }
    ReviewStep(files, known, root, index);
  }

  lemma NothingPickedAfter(replay: string, files: Files, more: set<string>, larger: set<string>)
    requires IsSuite(replay) && files == SmallTree(replay)
    requires ResolveBase("src/lib", more) == Some("src/lib.ts") && larger == {"src/lib/index.ts", "src/lib.ts"}
    ensures forall f :: f in larger ==> !OnReviewPath(files, more, f)
  {
    hide ResolveBase, OnReviewPath, IsCode, IsSuite, SmallTree;
    forall f | f in larger ensures !OnReviewPath(files, more, f) {
      NotRoots();
      if OnReviewPath(files, more, f) { OnlyRoots(replay, files, more, f); }
    }
  }

  lemma NotRoots()
    ensures "src/lib/index.ts" !in ReviewRoots() && "src/lib.ts" !in ReviewRoots()
  {
    assert |"src/lib/index.ts"| == 16 && |"src/lib.ts"| == 10;
    assert forall f :: f in ReviewRoots() ==> |f| != 16 && |f| != 10;
  }

  lemma KnownHere(replay: string, files: Files, changed: set<string>, larger: set<string>)
    requires IsSuite(replay) && files == SmallTree(replay)
    requires changed == {"src/lib/index.ts"} && larger == {"src/lib/index.ts", "src/lib.ts"}
    ensures KnownWith(files, changed) == {"src/run-task.ts", "src/lib/index.ts", replay}
    ensures KnownWith(files, larger) == {"src/run-task.ts", "src/lib/index.ts", replay, "src/lib.ts"}
    ensures IsCode("src/run-task.ts") && IsCode("src/lib/index.ts")
  {
    hide IsSuite;
    SuiteIsCode(replay);
    assert "src/run-task.ts"[12..] == ".ts" && "src/lib/index.ts"[13..] == ".ts";
    assert CodeIn(files) == {"src/run-task.ts", "src/lib/index.ts", replay};
  }

  lemma DirectoryCandidates(replay: string, known: set<string>, more: set<string>)
    requires IsSuite(replay) && known == {"src/run-task.ts", "src/lib/index.ts", replay}
    requires more == {"src/run-task.ts", "src/lib/index.ts", replay, "src/lib.ts"}
    ensures ResolveBase("src/lib", known) == Some("src/lib/index.ts")
            && ResolveBase("src/lib", more) == Some("src/lib.ts")
  {
    hide IsSuite;
    SuiteIsNoSource(replay);
    var c := Candidates("src/lib");
    assert !EndsWith("src/lib", ".mjs") && !EndsWith("src/lib", ".cjs") && !EndsWith("src/lib", ".js");
    assert c[6] == "src/lib/index.ts" && c[1] == "src/lib.ts";
    assert |c[0]| == 7 && |c[1]| == 10 && |c[2]| == 11 && |c[3]| == 10 && |c[4]| == 11 && |c[5]| == 10;
    assert |"src/run-task.ts"| == 15 && |"src/lib/index.ts"| == 16;
    FirstKnownIs(c, known, 6);
    FirstKnownIs(c, more, 1);
  }

  lemma {:induction false} FirstKnownIs(candidates: seq<string>, known: set<string>, i: nat)
    requires i < |candidates| && candidates[i] in known && forall j :: 0 <= j < i ==> candidates[j] !in known
    ensures FirstKnown(candidates, known) == Some(candidates[i])
  {
    if i > 0 { FirstKnownIs(candidates[1..], known, i - 1); }
  }

  lemma OnlyRoots(replay: string, files: Files, known: set<string>, f: string)
    requires IsSuite(replay) && files == SmallTree(replay)
    requires ResolveBase("src/lib", known) == Some("src/lib.ts") && OnReviewPath(files, known, f)
    ensures f in ReviewRoots()
  {
    hide ReviewEdge, ReviewRoots, IsSuite, SmallTree;
    var path :| IsReviewPath(files, known, path) && path[|path| - 1] == f;
    if |path| > 1 { NoReviewEdge(replay, files, known, path[0], path[0 + 1]); }
  }

  lemma NoReviewEdge(replay: string, files: Files, known: set<string>, file: string, dep: string)
    requires IsSuite(replay) && files == SmallTree(replay)
    requires ResolveBase("src/lib", known) == Some("src/lib.ts")
    ensures !ReviewEdge(files, known, file, dep)
  {
    hide ResolveBase, IsCode, IsSuite;
    SuiteIsNoSource(replay);
    assert "src/lib.ts"[7] == '.';
    assert file in files && files[file].bases != [] ==> file == "src/run-task.ts" && files[file].bases == ["src/lib"];
  }
}
