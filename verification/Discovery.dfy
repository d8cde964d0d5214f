/** Discovery of cache directories, with and without the checkpoint of directory observations. */
module Discovery {
  import opened Wrappers
  import opened DirectoryProgress
  import opened SortedStrings

  datatype Kind = Directory | Symlink | Regular
  datatype Child = Child(name: string, kind: Kind)

  /** A directory: its identity and its children in enumeration order. */
  datatype Node = Node(identity: seq<int>, children: seq<Child>)

  /** The file tree as it stands during one pass. */
  type Tree = string -> Node

  datatype CacheKind = Turbopack | Packages
  datatype Candidate = Candidate(workspace: string, target: string, kind: CacheKind)

  const PRUNE: set<string> := {".git", "node_modules", ".next", "state", ".ssh", ".claude"}
  const MAX_DEPTH: nat := 6

  function Below(path: string, name: string): string { path + "/" + name }

  predicate EndsWithGit(name: string) { |name| >= 4 && name[|name| - 4..] == ".git" }

  function KindOf(children: seq<Child>, name: string): Option<Kind> {
    if children == [] then None
    else if children[0].name == name then Some(children[0].kind) else KindOf(children[1..], name)
  }

  /** `.next/cache/turbopack`, if each step of it is a directory. */
  function CacheTarget(tree: Tree, next: string): Option<string> {
    if KindOf(tree(next).children, "cache") != Some(Directory) then None
    else if KindOf(tree(Below(next, "cache")).children, "turbopack") != Some(Directory) then None
    else Some(Below(Below(next, "cache"), "turbopack"))
  }

  // ---------- The simple form: enumerate everything ----------

  function Descends(child: Child, depth: nat): bool {
    depth < MAX_DEPTH && child.name !in PRUNE && !EndsWithGit(child.name)
  }

  function FromChild(tree: Tree, path: string, child: Child, depth: nat): seq<Candidate>
    requires depth <= MAX_DEPTH
    decreases MAX_DEPTH - depth, 0, 0
  {
    if child.kind != Directory then []
    else if child.name == "node_modules" then [Candidate(path, Below(path, child.name), Packages)]
    else if child.name == ".next" then
      var target := CacheTarget(tree, Below(path, child.name));
      if target.Some? then [Candidate(path, target.value, Turbopack)] else []
    else if Descends(child, depth) then Fresh(tree, Below(path, child.name), depth + 1)
    else []
  }

  function FromChildren(tree: Tree, path: string, children: seq<Child>, depth: nat): seq<Candidate>
    requires depth <= MAX_DEPTH
    decreases MAX_DEPTH - depth, 1, |children|
  {
    if children == [] then []
    else FromChild(tree, path, children[0], depth) + FromChildren(tree, path, children[1..], depth)
  }

  /** The candidates below `path`, by fresh enumeration. */
  function Fresh(tree: Tree, path: string, depth: nat): seq<Candidate>
    requires depth <= MAX_DEPTH
    decreases MAX_DEPTH - depth, 2, 0
  {
    FromChildren(tree, path, tree(path).children, depth)
  }

  // ---------- The order of children does not matter ----------

  ghost predicate DistinctNames(children: seq<Child>) {
    children == [] || ((forall c :: c in children[1..] ==> c.name != children[0].name) && DistinctNames(children[1..]))
  }

  /** The children that a record keeps. */
  function Kept(children: seq<Child>): (kept: seq<Child>)
    ensures forall c :: c in kept <==> c in children && c.kind != Regular
  {
    if children == [] then []
    else if children[0].kind == Regular then Kept(children[1..]) else [children[0]] + Kept(children[1..])
  }

  lemma {:induction false} KeptDistinct(children: seq<Child>)
    requires DistinctNames(children)
    ensures DistinctNames(Kept(children))
  {
    if children != [] {
      KeptDistinct(children[1..]);
      var kept := Kept(children);
      if children[0].kind != Regular { assert kept[1..] == Kept(children[1..]); }
    }
  }

  lemma {:induction false} KeptGivesAll(tree: Tree, path: string, children: seq<Child>, depth: nat)
    requires depth <= MAX_DEPTH
    ensures FromChildren(tree, path, Kept(children), depth) == FromChildren(tree, path, children, depth)
  {
    if children != [] {
      KeptGivesAll(tree, path, children[1..], depth);
      var kept := Kept(children);
      if children[0].kind != Regular { assert kept[1..] == Kept(children[1..]); }
    }
  }

  function Except(children: seq<Child>, child: Child): (r: seq<Child>)
    ensures forall c :: c in r <==> c in children && c != child
  {
    if children == [] then []
    else if children[0] == child then Except(children[1..], child)
    else [children[0]] + Except(children[1..], child)
  }

  lemma {:induction false} ExceptDistinct(children: seq<Child>, child: Child)
    requires DistinctNames(children)
    ensures DistinctNames(Except(children, child))
    ensures child !in children ==> Except(children, child) == children
  {
    if children != [] {
      ExceptDistinct(children[1..], child);
      var r := Except(children, child);
      if children[0] != child { assert r[1..] == Except(children[1..], child); }
    }
  }

  lemma {:induction false} TakeOut(tree: Tree, path: string, children: seq<Child>, child: Child, depth: nat)
    requires depth <= MAX_DEPTH && DistinctNames(children) && child in children
    ensures multiset(FromChildren(tree, path, children, depth)) ==
              multiset(FromChild(tree, path, child, depth))
              + multiset(FromChildren(tree, path, Except(children, child), depth))
  {
    hide FromChild;
    if children[0] == child {
      assert child !in children[1..];
      ExceptDistinct(children[1..], child);
    } else {
      TakeOut(tree, path, children[1..], child, depth);
      var r := Except(children, child);
      assert r[1..] == Except(children[1..], child);
    }
  }

  lemma {:induction false} OrderFree(tree: Tree, path: string, a: seq<Child>, b: seq<Child>, depth: nat)
    requires depth <= MAX_DEPTH && DistinctNames(a) && DistinctNames(b) && forall c :: c in a <==> c in b
    ensures multiset(FromChildren(tree, path, a, depth)) == multiset(FromChildren(tree, path, b, depth))
    decreases |a|
  {
    hide FromChild, Except;
    assert b != [] ==> b[0] in b;
    if a != [] {
      assert a[0] in b;
      TakeOut(tree, path, b, a[0], depth);
      ExceptDistinct(b, a[0]);
      forall c ensures c in a[1..] <==> c in Except(b, a[0]) {
        if c in a[1..] { assert c in a && c.name != a[0].name; }
      }
      OrderFree(tree, path, a[1..], Except(b, a[0]), depth);
    }
  }

  // ---------- What a record vouches for ----------

  ghost function NameSet(names: seq<string>): set<string> { set n | n in names }

  ghost function KeptNames(node: Node): set<string> { set c | c in node.children && c.kind != Regular :: c.name }

  /** Unchanged identity means unchanged directory and link names, across all the trees of a history. */
  ghost predicate Stable(history: seq<Tree>) {
    forall i, j, path :: 0 <= i < |history| && 0 <= j < |history|
      && history[i](path).identity == history[j](path).identity
      ==> KeptNames(history[i](path)) == KeptNames(history[j](path))
  }

  ghost predicate Vouched(e: Entry, history: seq<Tree>) {
    exists i :: 0 <= i < |history| && history[i](e.path).identity == e.identity
      && NameSet(e.names) == KeptNames(history[i](e.path))
  }

  ghost predicate Sound(records: seq<Entry>, history: seq<Tree>) {
    forall e :: e in records ==> Vouched(e, history)
  }

  /** What the operating system gives: eight identity numbers, proper distinct names, plain paths. */
  ghost predicate WellMade(tree: Tree, physical: string -> bool) {
    forall path :: physical(path) && path != "/" ==>
      && |tree(path).identity| == 8 && DistinctNames(tree(path).children)
      && forall c :: c in tree(path).children ==> GoodName(c.name) && physical(Below(path, c.name))
  }

  lemma {:induction false} KindOfPresent(children: seq<Child>, c: Child)
    requires DistinctNames(children) && c in children
    ensures KindOf(children, c.name) == Some(c.kind)
  {
    if children[0] != c { KindOfPresent(children[1..], c); }
  }

  lemma {:induction false} KindOfFound(children: seq<Child>, name: string)
    requires KindOf(children, name).Some?
    ensures Child(name, KindOf(children, name).value) in children
  {
    if children[0].name != name { KindOfFound(children[1..], name); }
  }

  /** The children a list of names stands for now. */
  function Named(children: seq<Child>, names: seq<string>): (r: seq<Child>)
    requires forall n :: n in names ==> KindOf(children, n).Some?
    ensures |r| == |names| && forall i :: 0 <= i < |r| ==> r[i] == Child(names[i], KindOf(children, names[i]).value)
  {
    seq(|names|, i requires 0 <= i < |names| => Child(names[i], KindOf(children, names[i]).value))
  }

  lemma {:induction false} NamedDistinct(children: seq<Child>, names: seq<string>)
    requires (forall n :: n in names ==> KindOf(children, n).Some?) && GoodNames(names)
    ensures DistinctNames(Named(children, names))
    decreases |names|
  {
    if names != [] {
      NamedDistinct(children, names[1..]);
      assert Named(children, names)[1..] == Named(children, names[1..]);
    }
  }

  /** Names vouched for by an equal identity stand for exactly the children that matter now. */
  lemma VouchedNames(tree: Tree, e: Entry, history: seq<Tree>)
    requires Stable(history) && tree in history && Vouched(e, history) && e.identity == tree(e.path).identity
    requires DistinctNames(tree(e.path).children) && GoodNames(e.names)
    ensures forall n :: n in e.names ==> KindOf(tree(e.path).children, n).Some?
    ensures DistinctNames(Named(tree(e.path).children, e.names))
    ensures forall c :: c in Named(tree(e.path).children, e.names) <==> c in Kept(tree(e.path).children)
  {
    hide GoodNames, DistinctNames;
    var node := tree(e.path);
    var i :| 0 <= i < |history| && history[i](e.path).identity == e.identity
      && NameSet(e.names) == KeptNames(history[i](e.path));
    var j :| 0 <= j < |history| && history[j] == tree;
    assert NameSet(e.names) == KeptNames(node);
    forall n | n in e.names ensures KindOf(node.children, n).Some? {
      assert n in KeptNames(node);
      var c :| c in node.children && c.kind != Regular && c.name == n;
      KindOfPresent(node.children, c);
    }
    NamedDistinct(node.children, e.names);
    NamedAreKept(node, e.names);
  }

  lemma NamedAreKept(node: Node, names: seq<string>)
    requires NameSet(names) == KeptNames(node) && DistinctNames(node.children)
    requires forall n :: n in names ==> KindOf(node.children, n).Some?
    ensures forall c :: c in Named(node.children, names) <==> c in Kept(node.children)
  {
    hide DistinctNames, KindOf;
    var named := Named(node.children, names);
    forall c ensures c in named <==> c in Kept(node.children) {
      if c in named {
        assert c.name in NameSet(names);
        var d :| d in node.children && d.kind != Regular && d.name == c.name;
        KindOfPresent(node.children, d);
      }
      if c in Kept(node.children) {
        assert c.name in KeptNames(node);
        assert c.name in NameSet(names);
        KindOfPresent(node.children, c);
        var i :| 0 <= i < |names| && names[i] == c.name;
        assert named[i] == c;
      }
    }
  }

  /** So a cached directory gives the same candidates as a fresh one. */
  lemma CachedGivesFresh(tree: Tree, e: Entry, history: seq<Tree>, depth: nat)
    requires depth <= MAX_DEPTH
    requires Stable(history) && tree in history && Vouched(e, history) && e.identity == tree(e.path).identity
    requires DistinctNames(tree(e.path).children) && GoodNames(e.names)
    ensures forall n :: n in e.names ==> KindOf(tree(e.path).children, n).Some?
    ensures multiset(FromChildren(tree, e.path, Named(tree(e.path).children, e.names), depth)) ==
              multiset(Fresh(tree, e.path, depth))
  {
    hide FromChildren, GoodNames, DistinctNames, Kept, Named, Vouched, Stable;
    var children := tree(e.path).children;
    VouchedNames(tree, e, history);
    KeptDistinct(children);
    OrderFree(tree, e.path, Named(children, e.names), Kept(children), depth);
    KeptGivesAll(tree, e.path, children, depth);
  }

  // ---------- Remembering a completed enumeration ----------

  function NamesOf(children: seq<Child>): (names: seq<string>)
    ensures |names| == |children| && forall i :: 0 <= i < |names| ==> names[i] == children[i].name
  {
    seq(|children|, i requires 0 <= i < |children| => children[i].name)
  }

  lemma {:induction false} DistinctAt(children: seq<Child>, i: nat, j: nat)
    requires DistinctNames(children) && i < j < |children|
    ensures children[i].name != children[j].name
  {
    if i == 0 {
      assert children[j] == children[1..][j - 1];
    } else {
      DistinctAt(children[1..], i - 1, j - 1);
    }
  }

  lemma {:induction false} KeptAppend(children: seq<Child>, child: Child)
    ensures Kept(children + [child]) == if child.kind == Regular then Kept(children) else Kept(children) + [child]
  {
    if children != [] {
      assert (children + [child])[1..] == children[1..] + [child];
      KeptAppend(children[1..], child);
    }
  }

  lemma {:induction false} FromAppend(tree: Tree, path: string, children: seq<Child>, child: Child, depth: nat)
    requires depth <= MAX_DEPTH
    ensures FromChildren(tree, path, children + [child], depth) ==
              FromChildren(tree, path, children, depth) + FromChild(tree, path, child, depth)
  {
    hide FromChild;
    if children != [] {
      assert (children + [child])[1..] == children[1..] + [child];
      FromAppend(tree, path, children[1..], child, depth);
    }
  }

  /** A completed enumeration is a good record that its own tree vouches for. */
  lemma CompletedRecord(tree: Tree, path: string, physical: string -> bool, history: seq<Tree>)
    requires WellMade(tree, physical) && physical(path) && path != "/" && tree in history
    ensures var e := Entry(path, tree(path).identity, NamesOf(Kept(tree(path).children)));
            Good(physical, e) && Vouched(e, history)
  {
    hide DistinctNames, Kept;
    var node := tree(path);
    var kept := Kept(node.children);
    var names := NamesOf(kept);
    KeptDistinct(node.children);
    forall i, j | 0 <= i < j < |names| ensures names[i] != names[j] { DistinctAt(kept, i, j); }
    forall i | 0 <= i < |names| ensures GoodName(names[i]) { assert kept[i] in node.children; }
    var k :| 0 <= k < |history| && history[k] == tree;
    assert NameSet(names) == KeptNames(node) by {
      forall n ensures n in NameSet(names) <==> n in KeptNames(node) {
        if n in NameSet(names) {
          var i :| 0 <= i < |names| && names[i] == n;
          assert kept[i] in kept;
        }
        if n in KeptNames(node) {
          var c :| c in node.children && c.kind != Regular && c.name == n;
          var i :| 0 <= i < |kept| && kept[i] == c;
          assert names[i] == n;
        }
      }
    }
    assert history[k](path).identity == node.identity;
  }

  // ---------- One pass ----------

  class Scan {
    const tree: Tree
    const progress: Progress
    /** The trees of every pass up to this one. */
    ghost const history: seq<Tree>
    var candidates: seq<Candidate>
    /** How many more entries this pass may look at, if it is bounded at all. */
    var allowance: Option<nat>

    constructor (tree: Tree, progress: Progress, allowance: Option<nat>, ghost history: seq<Tree>)
      ensures this.tree == tree && this.progress == progress && this.history == history
      ensures this.allowance == allowance && candidates == []
    {
      this.tree, this.progress, this.history := tree, progress, history;
      this.allowance, candidates := allowance, [];
    }

    ghost predicate Valid()
      reads this, progress
    {
      && progress.Valid() && Sound(progress.records, history)
      && Stable(history) && tree in history && WellMade(tree, progress.physical)
    }

    method Spend() returns (allowed: bool)
      modifies `allowance
      ensures allowed == (old(allowance) != Some(0))
      ensures old(allowance).None? <==> allowance.None?
    {
      allowed := allowance != Some(0);
      if allowance.Some? && allowed { allowance := Some(allowance.value - 1); }
    }

    /** Visits a directory; `complete` is false when the allowance runs out or a recorded name is gone, and then no
        record is made of any directory left unfinished. */
    method Visit(path: string, depth: nat) returns (complete: bool)
      requires Valid() && depth <= MAX_DEPTH && progress.physical(path) && path != "/"
      modifies this, progress`records
      ensures Valid()
      ensures complete ==> multiset(candidates) == multiset(old(candidates)) + multiset(Fresh(tree, path, depth))
      ensures old(allowance).None? ==> complete && allowance.None?
      decreases MAX_DEPTH - depth, 2
    {
      hide Fresh, Good, Vouched, Stable, WellMade, FromChildren, FromChild;
      var allowed := Spend();
      if !allowed { return false; }
      ghost var before := progress.records;
      var cached := progress.Lookup(path, tree(path).identity);
      if cached.Some? {
        ghost var e := Find(before, path).value;
        WellMadeAt(tree, path, progress.physical);
        GoodAt(progress.physical, e);
        CachedGivesFresh(tree, e, history, depth);
        complete := VisitNames(path, depth, cached.value);
      } else {
        var names;
        complete, names := VisitAll(path, depth);
        if complete {
          CompletedRecord(tree, path, progress.physical, history);
          progress.Remember(path, tree(path).identity, names);
          assert Sound(progress.records, history);
        }
      }
    }

    method VisitNames(path: string, depth: nat, names: seq<string>) returns (complete: bool)
      requires Valid() && depth <= MAX_DEPTH && progress.physical(path) && path != "/"
      requires forall n :: n in names ==> KindOf(tree(path).children, n).Some?
      modifies this, progress`records
      ensures Valid()
      ensures complete ==>
                var named := Named(tree(path).children, names);
                multiset(candidates) == multiset(old(candidates)) + multiset(FromChildren(tree, path, named, depth))
      ensures old(allowance).None? ==> complete && allowance.None?
      decreases MAX_DEPTH - depth, 1
    {
      hide Sound, Stable, WellMade, FromChild, FromChildren, KindOf, Good, Vouched;
      NothingFrom(tree, path, depth);
      ghost var named := Named(tree(path).children, names);
      for i := 0 to |names|
        invariant Valid() && (old(allowance).None? ==> allowance.None?)
        invariant multiset(candidates) ==
                    multiset(old(candidates)) + multiset(FromChildren(tree, path, named[..i], depth))
      {
        var child := Child(names[i], KindOf(tree(path).children, names[i]).value);
        KindOfFound(tree(path).children, names[i]);
        assert named[..i + 1] == named[..i] + [child];
        FromAppend(tree, path, named[..i], child, depth);
        var ok := VisitChild(path, child, depth);
        if !ok { return false; }
      }
      assert named[..|names|] == named;
      complete := true;
    }

    method VisitAll(path: string, depth: nat) returns (complete: bool, names: seq<string>)
      requires Valid() && depth <= MAX_DEPTH && progress.physical(path) && path != "/"
      modifies this, progress`records
      ensures Valid()
      ensures complete ==> multiset(candidates) == multiset(old(candidates)) + multiset(Fresh(tree, path, depth))
      ensures complete ==> names == NamesOf(Kept(tree(path).children))
      ensures old(allowance).None? ==> complete && allowance.None?
      decreases MAX_DEPTH - depth, 1
    {
      hide *;
      NothingFrom(tree, path, depth);
      var children := tree(path).children;
      names := [];
      NothingKept();
      for i := 0 to |children|
        invariant (old(allowance).None? ==> allowance.None?) && Valid() && names == NamesOf(Kept(children[..i]))
        invariant multiset(candidates) ==
                    multiset(old(candidates)) + multiset(FromChildren(tree, path, children[..i], depth))
      {
        assert children[..i + 1] == children[..i] + [children[i]];
        FromAppend(tree, path, children[..i], children[i], depth);
        KeptAppend(children[..i], children[i]);
        if children[i].kind != Regular { names := names + [children[i].name]; }
        var ok := VisitChild(path, children[i], depth);
        if !ok { return false, names; }
      }
      assert children[..|children|] == children;
      complete := true;
    }

    method VisitChild(path: string, child: Child, depth: nat) returns (complete: bool)
      requires Valid() && depth <= MAX_DEPTH && progress.physical(path) && path != "/" && child in tree(path).children
      modifies this, progress`records
      ensures Valid()
      ensures complete ==>
                multiset(candidates) == multiset(old(candidates)) + multiset(FromChild(tree, path, child, depth))
      ensures old(allowance).None? ==> complete && allowance.None?
      decreases MAX_DEPTH - depth, 0
    {
      hide Sound, Stable, Good, Vouched, KindOf, Fresh;
      var allowed := Spend();
      if !allowed { return false; }
      if child.kind != Directory { return true; }
      if child.name == "node_modules" {
        candidates := candidates + [Candidate(path, Below(path, child.name), Packages)];
      } else if child.name == ".next" {
        var target := CacheTarget(tree, Below(path, child.name));
        if target.Some? { candidates := candidates + [Candidate(path, target.value, Turbopack)]; }
      } else if Descends(child, depth) {
        assert Below(path, child.name) != "/";
        complete := Visit(Below(path, child.name), depth + 1);
        return;
      }
      complete := true;
    }
  }

  lemma WellMadeAt(tree: Tree, path: string, physical: string -> bool)
    requires WellMade(tree, physical) && physical(path) && path != "/"
    ensures DistinctNames(tree(path).children)
  {
  }

  lemma GoodAt(physical: string -> bool, e: Entry)
    requires Good(physical, e)
    ensures GoodNames(e.names)
  {
  }

  lemma NothingFrom(tree: Tree, path: string, depth: nat)
    requires depth <= MAX_DEPTH
    ensures FromChildren(tree, path, [], depth) == []
    ensures Fresh(tree, path, depth) == FromChildren(tree, path, tree(path).children, depth)
  {
  }

  lemma NothingKept()
    ensures NamesOf(Kept([])) == []
  {
  }

  // ---------- The order candidates are taken in ----------

  /** Turbopack caches first, then by target. */
  predicate InOrder(a: Candidate, b: Candidate) {
    (a.kind.Turbopack? && b.kind.Packages?) || (a.kind == b.kind && StringLe(a.target, b.target))
  }

  lemma InOrderTransitive(a: Candidate, b: Candidate, c: Candidate)
    requires InOrder(a, b) && InOrder(b, c)
    ensures InOrder(a, c)
  {
    if a.kind == b.kind == c.kind { StringLeTransitive(a.target, b.target, c.target); }
  }

  lemma InOrderTotal(a: Candidate, b: Candidate)
    ensures InOrder(a, b) || InOrder(b, a)
  {
    StringLeTotal(a.target, b.target);
  }

  function Insert(c: Candidate, sorted: seq<Candidate>): seq<Candidate> {
    if sorted == [] || InOrder(c, sorted[0]) then [c] + sorted else [sorted[0]] + Insert(c, sorted[1..])
  }

  function Sort(cs: seq<Candidate>): seq<Candidate> {
    if cs == [] then [] else Insert(cs[0], Sort(cs[1..]))
  }

  ghost predicate Ordered(cs: seq<Candidate>) {
    cs == [] || ((forall c :: c in cs[1..] ==> InOrder(cs[0], c)) && Ordered(cs[1..]))
  }

  lemma {:induction false} InsertOrdered(c: Candidate, sorted: seq<Candidate>)
    requires Ordered(sorted)
    ensures Ordered(Insert(c, sorted)) && multiset(Insert(c, sorted)) == multiset(sorted) + multiset{c}
  {
    hide InOrder;
    if sorted == [] {
    } else if InOrder(c, sorted[0]) {
      assert ([c] + sorted)[1..] == sorted;
      forall d | d in sorted ensures InOrder(c, d) {
        if d != sorted[0] { InOrderTransitive(c, sorted[0], d); }
      }
    } else {
      InsertOrdered(c, sorted[1..]);
      var r := Insert(c, sorted);
      assert r[1..] == Insert(c, sorted[1..]) && sorted == [sorted[0]] + sorted[1..];
      forall d | d in r[1..] ensures InOrder(r[0], d) {
        assert d in multiset(r[1..]);
        InOrderTotal(c, sorted[0]);
      }
    }
  }

  lemma {:induction false} SortOrdered(cs: seq<Candidate>)
    ensures Ordered(Sort(cs)) && multiset(Sort(cs)) == multiset(cs)
  {
    if cs != [] {
      SortOrdered(cs[1..]);
      InsertOrdered(cs[0], Sort(cs[1..]));
      assert cs == [cs[0]] + cs[1..];
    }
  }

  // ---------- Two ordered lists of the same candidates are the same list ----------

  /** A candidate is determined by its kind and target. */
  predicate Formed(c: Candidate) {
    match c.kind
    case Packages => c.target == Below(c.workspace, "node_modules")
    case Turbopack => c.target == Below(Below(Below(c.workspace, ".next"), "cache"), "turbopack")
  }

  lemma SameBelow(a: string, b: string, name: string)
    requires Below(a, name) == Below(b, name)
    ensures a == b
  {
    assert |Below(a, name)| == |a| + 1 + |name| && |Below(b, name)| == |b| + 1 + |name|;
    assert Below(a, name)[..|a|] == a && Below(b, name)[..|b|] == b;
  }

  lemma FormedByTarget(a: Candidate, b: Candidate)
    requires Formed(a) && Formed(b) && InOrder(a, b) && InOrder(b, a)
    ensures a == b
  {
    hide Below, StringLe;
    StringLeAntisymmetric(a.target, b.target);
    match a.kind
    case Packages => SameBelow(a.workspace, b.workspace, "node_modules");
    case Turbopack =>
      var x, y := Below(a.workspace, ".next"), Below(b.workspace, ".next");
      SameBelow(Below(x, "cache"), Below(y, "cache"), "turbopack");
      SameBelow(x, y, "cache");
      SameBelow(a.workspace, b.workspace, ".next");
  }

  lemma {:induction false} OrderedUnique(a: seq<Candidate>, b: seq<Candidate>)
    requires Ordered(a) && Ordered(b) && multiset(a) == multiset(b) && forall c :: c in a ==> Formed(c)
    ensures a == b
  {
    hide *;
    assert |multiset(a)| == |a| && |multiset(b)| == |b|;
    if a != [] {
      SameFirst(a, b);
      SameRest(a, b);
      RestOrdered(a);
      RestOrdered(b);
      OrderedUnique(a[1..], b[1..]);
      assert a == [a[0]] + a[1..] && b == [b[0]] + b[1..];
    }
  }

  lemma SameRest(a: seq<Candidate>, b: seq<Candidate>)
    requires multiset(a) == multiset(b) && a != [] && b != [] && a[0] == b[0]
    ensures multiset(a[1..]) == multiset(b[1..])
  {
    hide *;
    assert a == [a[0]] + a[1..] && b == [b[0]] + b[1..];
    assert multiset(a[1..]) == multiset(a) - multiset{a[0]} == multiset(b[1..]);
  }

  lemma RestOrdered(a: seq<Candidate>)
    requires Ordered(a) && a != []
    ensures Ordered(a[1..])
  {
    hide InOrder;
  }

  lemma SameFirst(a: seq<Candidate>, b: seq<Candidate>)
    requires Ordered(a) && Ordered(b) && multiset(a) == multiset(b) && (forall c :: c in a ==> Formed(c)) && a != []
             && b != []
    ensures a[0] == b[0]
  {
    hide InOrder, Formed;
    assert a[0] in multiset(b) && b[0] in multiset(a);
    if a[0] != b[0] { FormedByTarget(a[0], b[0]); }
  }

  lemma SortUnique(a: seq<Candidate>, b: seq<Candidate>)
    requires multiset(a) == multiset(b) && forall c :: c in b ==> Formed(c)
    ensures Sort(a) == Sort(b)
  {
    hide Sort, Formed, Ordered;
    SortOrdered(a);
    SortOrdered(b);
    forall c | c in Sort(a) ensures Formed(c) { assert c in multiset(Sort(a)) && c in multiset(b); }
    OrderedUnique(Sort(a), Sort(b));
  }

  lemma {:induction false} FreshFormed(tree: Tree, path: string, children: seq<Child>, depth: nat)
    requires depth <= MAX_DEPTH
    ensures forall c :: c in FromChildren(tree, path, children, depth) ==> Formed(c)
    decreases MAX_DEPTH - depth, |children|
  {
    if children != [] {
      FreshFormed(tree, path, children[1..], depth);
      var child := children[0];
      if child.kind == Directory && Descends(child, depth) {
        var below := Below(path, child.name);
        FreshFormed(tree, below, tree(below).children, depth + 1);
        assert forall c :: c in Fresh(tree, below, depth + 1) ==> Formed(c);
      }
    }
  }

  // ---------- Passes ----------

  /** Discovery from one root: when it completes, the checkpoint has made no difference. */
  method Discover(scan: Scan, root: string) returns (found: Option<seq<Candidate>>)
    requires scan.Valid() && scan.candidates == [] && scan.progress.physical(root) && root != "/"
    modifies scan, scan.progress`records
    ensures scan.Valid()
    ensures found.Some? ==> found.value == Sort(Fresh(scan.tree, root, 0))
    ensures old(scan.allowance).None? ==> found.Some?
  {
    hide Sort;
    var complete := scan.Visit(root, 0);
    if !complete { return None; }
    FreshFormed(scan.tree, root, scan.tree(root).children, 0);
    SortUnique(scan.candidates, Fresh(scan.tree, root, 0));
    found := Some(Sort(scan.candidates));
  }

  /** Any number of passes, each over the tree of its day with its own allowance, each loading the state the one
      before saved and saving its own. */
  method Passes(encoding: Encoding, physical: string -> bool, root: string, trees: seq<Tree>,
                allowances: seq<Option<nat>>, cursors: seq<Option<string>>)
    returns (found: seq<Option<seq<Candidate>>>)
    requires encoding.Ok() && physical(root) && root != "/" && |allowances| == |cursors| == |trees|
    requires Stable(trees) && forall t :: t in trees ==> WellMade(t, physical)
    ensures |found| == |trees|
    ensures forall i :: 0 <= i < |trees| && found[i].Some? ==> found[i].value == Sort(Fresh(trees[i], root, 0))
    ensures forall i :: 0 <= i < |trees| && allowances[i].None? ==> found[i].Some?
  {
    hide Stable, WellMade, Vouched, Good, Sort, Fresh, Sound, Unpack, FileText, Size;
    NothingSaved(physical, trees);
    found := [];
    var disk: seq<Packed> := [];
    for i := 0 to |trees|
      invariant |found| == i
      invariant forall j :: 0 <= j < i && found[j].Some? ==> found[j].value == Sort(Fresh(trees[j], root, 0))
      invariant forall j :: 0 <= j < i && allowances[j].None? ==> found[j].Some?
      invariant var loaded := Unpack(physical, disk, [], "", 0); loaded.Some? && Sound(loaded.value, trees)
    {
      var progress := new Progress(encoding, physical, cursors[i]);
      var ok := progress.Load(disk);
      var scan := new Scan(trees[i], progress, allowances[i], trees);
      var result := Discover(scan, root);
      found := found + [result];
      ghost var seen := progress.records;
      var saved := progress.Save();
      if saved.Some? {
        KeptIsSound(progress, seen, trees);
        disk := saved.value;
      }
    }
  }

  lemma NothingSaved(physical: string -> bool, history: seq<Tree>)
    ensures Unpack(physical, [], [], "", 0) == Some([]) && Sound([], history)
  {
  }

  lemma KeptIsSound(progress: Progress, before: seq<Entry>, history: seq<Tree>)
    requires Sound(before, history) && exists k :: progress.KeptFrom(before, k)
    ensures Sound(progress.records, history)
  {
  }
}
