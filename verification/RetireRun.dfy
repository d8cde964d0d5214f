/** Preserve every candidate, then retire in order, closing the keep set after every failure. */
module RetireRun {
  import opened Wrappers
  import opened KeepClosure

  /** A removal goes through, is refused, or stops part of the way. */
  datatype Removal = Gone | Refused | Partial(lost: set<string>)

  /** What the world answers in one run. */
  datatype Answers = Answers(preserve: Repo -> bool, active: Repo -> bool, recheck: Repo -> bool,
                             remove: Repo -> Removal, scopedCopy: string -> bool)

  /** `gone` are the repositories whose removal went through, `present` those whose directory is still whole. */
  datatype State = State(keep: map<string, string>, saved: set<string>, removing: set<string>, gone: set<string>,
                         present: set<string>)

  /** A removal as it was started: what was kept and what was gone at that moment. */
  datatype Start = Start(repo: Repo, keep: set<string>, gone: set<string>)

  ghost predicate DistinctPaths(repos: seq<Repo>) {
    repos == [] || ((forall r :: r in repos[1..] ==> r.path != repos[0].path) && DistinctPaths(repos[1..]))
  }

  lemma {:induction false} PathNamesOne(repos: seq<Repo>, i: nat, j: nat)
    requires DistinctPaths(repos) && i < |repos| && j < |repos| && repos[i].path == repos[j].path
    ensures i == j
  {
    assert i > 0 ==> repos[i] in repos[1..];
    assert j > 0 ==> repos[j] in repos[1..];
    if i > 0 && j > 0 { PathNamesOne(repos[1..], i - 1, j - 1); }
  }

  lemma SamePath(repos: seq<Repo>, r: Repo, q: Repo)
    requires DistinctPaths(repos) && r in repos && q in repos && r.path == q.path
    ensures r == q
  {
    hide DistinctPaths;
    var i :| 0 <= i < |repos| && repos[i] == r;
    var j :| 0 <= j < |repos| && repos[j] == q;
    PathNamesOne(repos, i, j);
  }

  // ---------- The order of removal ----------

  function Slashes(path: string): nat {
    if path == "" then 0 else (if path[0] == '/' then 1 else 0) + Slashes(path[1..])
  }

  lemma {:induction false} SlashesAppend(a: string, b: string)
    ensures Slashes(a + b) == Slashes(a) + Slashes(b)
  {
    if a == "" {
      assert a + b == b;
    } else {
      assert (a + b)[1..] == a[1..] + b;
      SlashesAppend(a[1..], b);
    }
  }

  lemma ContainedIsDeeper(outer: string, inner: string)
    requires Contains(outer, inner)
    ensures Slashes(inner) > Slashes(outer) && inner != outer
  {
    var rest := inner[|outer| + 1..];
    assert inner == outer + "/" + rest;
    SlashesAppend(outer + "/", rest);
    SlashesAppend(outer, "/");
    assert "/"[1..] == "";
  }

  /** Worktrees first, then deeper paths first. */
  predicate NotAfter(a: Repo, b: Repo) {
    if a.kind == Worktree && b.kind != Worktree then true
    else if a.kind != Worktree && b.kind == Worktree then false
    else Slashes(a.path) >= Slashes(b.path)
  }

  function Insert(r: Repo, order: seq<Repo>): seq<Repo> {
    if order == [] || NotAfter(r, order[0]) then [r] + order else [order[0]] + Insert(r, order[1..])
  }

  /** The repositories that are not kept, in the order they are removed. */
  function Order(repos: seq<Repo>, keep: set<string>): seq<Repo> {
    if repos == [] then []
    else if repos[0].path in keep then Order(repos[1..], keep)
    else Insert(repos[0], Order(repos[1..], keep))
  }

  ghost predicate Ordered(order: seq<Repo>) {
    order == [] || ((forall r :: r in order[1..] ==> NotAfter(order[0], r)) && Ordered(order[1..]))
  }

  lemma {:induction false} InsertOrdered(r: Repo, order: seq<Repo>)
    requires Ordered(order)
    ensures Ordered(Insert(r, order)) && forall q :: q in Insert(r, order) <==> q == r || q in order
  {
    hide NotAfter;
    if order == [] {
    } else if NotAfter(r, order[0]) {
      assert ([r] + order)[1..] == order;
      forall q | q in order ensures NotAfter(r, q) { if q != order[0] { NotAfterTransitive(r, order[0], q); } }
    } else {
      InsertOrdered(r, order[1..]);
      var all := Insert(r, order);
      assert all[1..] == Insert(r, order[1..]);
      NotAfterTotal(r, order[0]);
    }
  }

  lemma NotAfterTransitive(a: Repo, b: Repo, c: Repo)
    requires NotAfter(a, b) && NotAfter(b, c)
    ensures NotAfter(a, c)
  {
  }

  lemma NotAfterTotal(a: Repo, b: Repo)
    ensures NotAfter(a, b) || NotAfter(b, a)
  {
  }

  lemma {:induction false} OrderOrdered(repos: seq<Repo>, keep: set<string>)
    ensures Ordered(Order(repos, keep)) && forall r :: r in Order(repos, keep) <==> r in repos && r.path !in keep
  {
    if repos != [] {
      OrderOrdered(repos[1..], keep);
      InsertOrdered(repos[0], Order(repos[1..], keep));
    }
  }

  lemma {:induction false} InsertDistinct(r: Repo, order: seq<Repo>)
    requires DistinctPaths(order) && forall q :: q in order ==> q.path != r.path
    ensures DistinctPaths(Insert(r, order)) && forall q :: q in Insert(r, order) <==> q == r || q in order
  {
    hide NotAfter;
    if order == [] {
    } else if NotAfter(r, order[0]) {
      assert ([r] + order)[1..] == order;
    } else {
      InsertDistinct(r, order[1..]);
      var all := Insert(r, order);
      assert all[1..] == Insert(r, order[1..]);
    }
  }

  lemma {:induction false} OrderDistinct(repos: seq<Repo>, keep: set<string>)
    requires DistinctPaths(repos)
    ensures DistinctPaths(Order(repos, keep))
  {
    if repos != [] {
      OrderDistinct(repos[1..], keep);
      OrderOrdered(repos[1..], keep);
      if repos[0].path !in keep { InsertDistinct(repos[0], Order(repos[1..], keep)); }
    }
  }

  lemma {:induction false} OrderedAt(order: seq<Repo>, i: nat, j: nat)
    requires Ordered(order) && i < j < |order|
    ensures NotAfter(order[i], order[j])
  {
    if i == 0 {
      assert order[j] == order[1..][j - 1];
    } else {
      OrderedAt(order[1..], i - 1, j - 1);
    }
  }

  /** `a` comes no later than `b`, however many others are kept: ties are taken in the order listed. */
  ghost predicate Leads(repos: seq<Repo>, a: Repo, b: Repo) {
    a == b || (NotAfter(a, b) && (NotAfter(b, a) ==> ListedBefore(repos, a, b)))
  }

  ghost predicate ListedBefore(repos: seq<Repo>, a: Repo, b: Repo) {
    exists i, j :: 0 <= i < j < |repos| && repos[i] == a && repos[j] == b
  }

  ghost predicate Stable(repos: seq<Repo>, order: seq<Repo>) {
    order == [] || ((forall r :: r in order[1..] ==> Leads(repos, order[0], r)) && Stable(repos, order[1..]))
  }

  lemma LeadsInLonger(repos: seq<Repo>, a: Repo, b: Repo)
    requires repos != [] && Leads(repos[1..], a, b)
    ensures Leads(repos, a, b)
  {
    hide NotAfter;
    if ListedBefore(repos[1..], a, b) {
      var i, j :| 0 <= i < j < |repos[1..]| && repos[1..][i] == a && repos[1..][j] == b;
      assert repos[i + 1] == a && repos[j + 1] == b;
    }
  }

  lemma {:induction false} StableInLonger(repos: seq<Repo>, order: seq<Repo>)
    requires repos != [] && Stable(repos[1..], order)
    ensures Stable(repos, order)
  {
    hide Leads;
    if order != [] {
      forall r | r in order[1..] ensures Leads(repos, order[0], r) { LeadsInLonger(repos, order[0], r); }
      StableInLonger(repos, order[1..]);
    }
  }

  lemma FirstListed(repos: seq<Repo>, q: Repo)
    requires repos != [] && q in repos[1..]
    ensures ListedBefore(repos, repos[0], q)
  {
    var j :| 0 <= j < |repos[1..]| && repos[1..][j] == q;
    assert repos[0] == repos[0] && repos[j + 1] == q;
  }

  lemma {:induction false} InsertStable(repos: seq<Repo>, order: seq<Repo>)
    requires repos != [] && Ordered(order) && Stable(repos, order) && forall q :: q in order ==> q in repos[1..]
    ensures Stable(repos, Insert(repos[0], order))
  {
    hide NotAfter, ListedBefore;
    var r := repos[0];
    if order == [] {
    } else if NotAfter(r, order[0]) {
      assert ([r] + order)[1..] == order;
      forall q | q in order ensures Leads(repos, r, q) {
        if q != order[0] { NotAfterTransitive(r, order[0], q); }
        FirstListed(repos, q);
      }
    } else {
      InsertStable(repos, order[1..]);
      InsertOrdered(r, order[1..]);
      assert Insert(r, order)[1..] == Insert(r, order[1..]);
      NotAfterTotal(r, order[0]);
    }
  }

  lemma {:induction false} OrderStable(repos: seq<Repo>, keep: set<string>)
    ensures Stable(repos, Order(repos, keep))
  {
    hide Leads;
    if repos != [] {
      OrderStable(repos[1..], keep);
      StableInLonger(repos, Order(repos[1..], keep));
      OrderOrdered(repos[1..], keep);
      if repos[0].path !in keep { InsertStable(repos, Order(repos[1..], keep)); }
    }
  }

  lemma {:induction false} StableAt(repos: seq<Repo>, order: seq<Repo>, i: nat, j: nat)
    requires Stable(repos, order) && i < j < |order|
    ensures Leads(repos, order[i], order[j])
  {
    hide Leads;
    if i == 0 {
      assert order[j] == order[1..][j - 1];
    } else {
      StableAt(repos, order[1..], i - 1, j - 1);
    }
  }

  lemma LeadsOneWay(repos: seq<Repo>, a: Repo, b: Repo)
    requires DistinctPaths(repos) && Leads(repos, a, b) && Leads(repos, b, a)
    ensures a == b
  {
    hide DistinctPaths, NotAfter;
    if a != b {
      var i, j :| 0 <= i < j < |repos| && repos[i] == a && repos[j] == b;
      var k, l :| 0 <= k < l < |repos| && repos[k] == b && repos[l] == a;
      PathNamesOne(repos, i, l);
      PathNamesOne(repos, j, k);
    }
  }

  /** Whatever is kept, the order of removal is the one that `Leads` gives from the list alone. */
  lemma OrderIsLeads(repos: seq<Repo>, keep: set<string>, i: nat, j: nat)
    requires DistinctPaths(repos) && i < |Order(repos, keep)| && j < |Order(repos, keep)|
    ensures i <= j <==> Leads(repos, Order(repos, keep)[i], Order(repos, keep)[j])
  {
    hide Order, NotAfter, Stable, DistinctPaths;
    var order := Order(repos, keep);
    OrderStable(repos, keep);
    if i < j { StableAt(repos, order, i, j); }
    if j < i {
      StableAt(repos, order, j, i);
      OrderDistinct(repos, keep);
      if Leads(repos, order[i], order[j]) {
        LeadsOneWay(repos, order[i], order[j]);
        PathNamesOne(order, i, j);
      }
    }
  }

  // ---------- What the retiring loop keeps ----------

  function WithoutUnder(present: set<string>, path: string, lost: set<string>): set<string> {
    set p | p in present && !((p == path || Contains(path, p)) && p in lost)
  }

  function Below(r: Repo, present: set<string>): set<string> {
    set p | p in present && (p == r.path || Contains(r.path, p))
  }

  /** The keep set is closed, what is not kept is saved and in the order, and the first `i` have been dealt with. */
  ghost predicate Dealt(c: Census, order: seq<Repo>, i: nat, s: State)
    requires i <= |order|
  {
    && Closed(c, s.keep.Keys) && s.gone <= s.removing
    && (forall r :: r in c.repos ==> r.path in s.keep || (r.path in s.saved && r in order))
    && (forall j :: 0 <= j < i ==> order[j].path in s.keep || order[j].path in s.gone)
    && forall p :: p in s.removing ==> exists j :: 0 <= j < i && order[j].path == p
  }

  /** A clone or bare repository inside a worktree whose removal was started. */
  ghost predicate InsideRetired(c: Census, s: State, q: Repo) {
    exists w :: w in c.repos && w.path in s.removing && CloneInWorktree(w, q)
  }

  predicate CloneInWorktree(w: Repo, q: Repo) {
    w.kind == Worktree && q.kind != Worktree && Contains(w.path, q.path)
  }

  /** Every loss is a removal that was started, or lies inside a retired worktree; and what lies inside one is lost
      without its own removal. */
  ghost predicate Losses(c: Census, s: State) {
    && s.gone !! s.present
    && (forall q :: q in c.repos && q.path !in s.present ==> q.path in s.removing || InsideRetired(c, s, q))
    && forall w, q :: w in c.repos && q in c.repos && w.path in s.gone && CloneInWorktree(w, q) ==>
         q.path !in s.present && q.path !in s.removing
  }

  /** What held when a removal was started. */
  ghost predicate StartedSafely(c: Census, s: State, e: Start) {
    && e.repo in c.repos && Closed(c, e.keep) && e.repo.path !in e.keep && e.gone <= s.gone
    && (forall r :: r in c.repos ==> r.path in e.keep || r.path in s.saved)
    && (forall r :: r in c.repos && r != e.repo && Leads(c.repos, r, e.repo) ==> r.path in e.keep || r.path in e.gone)
  }

  ghost predicate Logged(c: Census, s: State, log: seq<Start>) {
    && (forall e :: e in log ==> StartedSafely(c, s, e))
    && forall p :: p in s.removing ==> exists e :: e in log && e.repo.path == p
  }

  ghost predicate Inv(c: Census, order: seq<Repo>, i: nat, s: State, log: seq<Start>)
    requires i <= |order|
  {
    Dealt(c, order, i, s) && Losses(c, s) && Logged(c, s, log)
  }

  ghost predicate OrderOk(c: Census, order: seq<Repo>) {
    && DistinctPaths(c.repos) && DistinctPaths(order) && Ordered(order) && Stable(c.repos, order)
    && forall r :: r in order ==> r in c.repos
  }

  // ---------- Starting a removal ----------

  /** The removal of `order[i]` has been started and has lost `lost` of what is at or below it. */
  ghost function Started(order: seq<Repo>, i: nat, s: State, lost: set<string>, done: bool): State
    requires i < |order|
  {
    var path := order[i].path;
    s.(removing := s.removing + {path}, gone := if done then s.gone + {path} else s.gone,
       present := WithoutUnder(s.present, path, lost))
  }

  /** Nothing kept lies inside it, and what else lies inside it was dealt with before, or is a clone in a worktree. */
  lemma InsideIsDealt(c: Census, order: seq<Repo>, i: nat, s: State, q: Repo)
    requires i < |order| && OrderOk(c, order) && Dealt(c, order, i, s) && order[i].path !in s.keep
    requires q in c.repos && Contains(order[i].path, q.path)
    ensures q.path !in s.keep && q.path in s.saved
    ensures q.path in s.gone || (q.kind != Worktree && order[i].kind == Worktree)
  {
    hide Contains, Ordered, DistinctPaths, Owners;
    var r := order[i];
    assert q.path in s.keep ==> ContainsKept(c.repos, s.keep.Keys, r);
    var j :| 0 <= j < |order| && order[j] == q;
    ContainedIsDeeper(r.path, q.path);
    if j > i { OrderedAt(order, i, j); }
  }

  /** The state after the removal of `order[i]` is started. */
  lemma StartKeepsLosses(c: Census, order: seq<Repo>, i: nat, s: State, s': State, lost: set<string>, done: bool)
    requires i < |order| && OrderOk(c, order) && Dealt(c, order, i, s) && Losses(c, s)
    requires order[i].path !in s.keep && order[i].path in s.present && s' == Started(order, i, s, lost, done)
    requires done ==> lost == Below(order[i], s.present)
    ensures Losses(c, s')
  {
    hide Contains, Ordered, DistinctPaths, Dealt;
    var r := order[i];
    forall q | q in c.repos && q.path !in s'.present ensures q.path in s'.removing || InsideRetired(c, s', q) {
      if q.path in s.present {
        if q.path != r.path {
          InsideIsDealt(c, order, i, s, q);
          if q.path !in s.gone {
            assert r in c.repos && r.path in s'.removing && CloneInWorktree(r, q);
          } else {
            GoneIsRemoving(c, order, i, s, q.path);
          }
        }
      } else if q.path !in s.removing {
        StillInside(c, s, s', q);
      }
    }
    forall w, q | w in c.repos && q in c.repos && w.path in s'.gone && CloneInWorktree(w, q)
      ensures q.path !in s'.present && q.path !in s'.removing
    {
      if w.path in s.gone {
        assert q.path !in s.present;
      } else {
        NotYetRemoving(c, order, i, s, w, q);
      }
    }
  }

  lemma GoneIsRemoving(c: Census, order: seq<Repo>, i: nat, s: State, p: string)
    requires i <= |order| && Dealt(c, order, i, s) && p in s.gone
    ensures p in s.removing
  {
    hide Closed;
  }

  lemma StillInside(c: Census, s: State, s': State, q: Repo)
    requires InsideRetired(c, s, q) && s.removing <= s'.removing
    ensures InsideRetired(c, s', q)
  {
    hide Contains;
  }

  /** While worktrees are being removed no clone inside one has had its turn. */
  lemma NotYetRemoving(c: Census, order: seq<Repo>, i: nat, s: State, w: Repo, q: Repo)
    requires i < |order| && OrderOk(c, order) && Dealt(c, order, i, s) && w in c.repos && q in c.repos
    requires w.path == order[i].path && CloneInWorktree(w, q)
    ensures q.path !in s.removing && q.path != w.path
  {
    hide Contains, Ordered, Closed, DistinctPaths;
    ContainedIsDeeper(w.path, q.path);
    SamePath(c.repos, order[i], w);
    if q.path in s.removing {
      var j :| 0 <= j < i && order[j].path == q.path;
      SamePath(c.repos, order[j], q);
      OrderedAt(order, j, i);
    }
  }

  lemma StartKeepsLog(c: Census, order: seq<Repo>, i: nat, s: State, s': State, log: seq<Start>, lost: set<string>,
                      done: bool)
    requires i < |order| && OrderOk(c, order) && Dealt(c, order, i, s) && Logged(c, s, log) && order[i].path !in s.keep
    requires s' == Started(order, i, s, lost, done)
    ensures Logged(c, s', log + [Start(order[i], s.keep.Keys, s.gone)])
  {
    hide Contains, Ordered, Stable, Leads, Closed, WithoutUnder, DistinctPaths;
    var e := Start(order[i], s.keep.Keys, s.gone);
    var log' := log + [e];
    assert StartedSafely(c, s', e) by {
      forall r | r in c.repos && r != e.repo && Leads(c.repos, r, e.repo) ensures r.path in e.keep || r.path in e.gone {
        CameFirst(c, order, i, s, r);
      }
    }
    forall d | d in log' ensures StartedSafely(c, s', d) { if d in log { assert StartedSafely(c, s, d); } }
    forall p | p in s'.removing ensures exists d :: d in log' && d.repo.path == p {
      if p in s.removing {
        var d :| d in log && d.repo.path == p;
        assert d in log';
      } else {
        assert e in log' && e.repo.path == p;
      }
    }
  }

  lemma CameFirst(c: Census, order: seq<Repo>, i: nat, s: State, r: Repo)
    requires i < |order| && OrderOk(c, order) && Dealt(c, order, i, s)
    requires r in c.repos && r != order[i] && Leads(c.repos, r, order[i])
    ensures r.path in s.keep || r.path in s.gone
  {
    hide Ordered, Stable, Leads, Closed, DistinctPaths;
    if r.path !in s.keep {
      var j :| 0 <= j < |order| && order[j] == r;
      if j > i {
        StableAt(c.repos, order, i, j);
        LeadsOneWay(c.repos, r, order[i]);
      }
    }
  }

  // ---------- The run ----------

  /** Phase one: every candidate is saved or held, before anything is removed. */
  method PreserveAll(c: Census, keep0: map<string, string>, a: Answers)
    returns (keep: map<string, string>, saved: set<string>)
    requires Closed(c, keep0.Keys)
    ensures keep0.Keys <= keep.Keys && Closed(c, keep.Keys)
    ensures forall r :: r in c.repos ==> r.path in keep || r.path in saved
    ensures forall p :: p in saved ==> exists r :: r in c.repos && r.path == p && p !in keep0 && a.preserve(r)
    ensures (forall r :: r in c.repos ==> a.preserve(r)) ==> keep == keep0
  {
    hide Closed, Grown;
    keep, saved := keep0, {};
    for i := 0 to |c.repos|
      invariant keep0.Keys <= keep.Keys
      invariant forall j :: 0 <= j < i ==> c.repos[j].path in keep || c.repos[j].path in saved
      invariant forall p :: p in saved ==> exists r :: r in c.repos && r.path == p && p !in keep0 && a.preserve(r)
      invariant (forall r :: r in c.repos ==> a.preserve(r)) ==> keep == keep0
    {
      var r := c.repos[i];
      if r.path !in keep0 {
        if a.preserve(r) { saved := saved + {r.path}; } else { keep := keep[r.path := "preserve-failed"]; }
      }
    }
    ghost var before := keep;
    keep := Close(c, keep);
    ClosureExtends(c, before, keep);
  }

  lemma ClosureExtends(c: Census, keep: map<string, string>, kept: map<string, string>)
    requires IsClosure(c, keep, kept)
    ensures keep.Keys <= kept.Keys && Closed(c, kept.Keys)
    ensures Closed(c, keep.Keys) ==> kept == keep
  {
    hide Closed, Needed;
    if Closed(c, keep.Keys) { ClosureIdempotent(c, keep, kept); }
  }

  /** Anything that became active meanwhile is kept. */
  method KeepActive(c: Census, keep0: map<string, string>, a: Answers) returns (keep: map<string, string>)
    ensures keep0.Keys <= keep.Keys && Closed(c, keep.Keys)
    ensures forall r :: r in c.repos && a.active(r) ==> r.path in keep
    ensures Closed(c, keep0.Keys) && (forall r :: r in c.repos ==> !a.active(r)) ==> keep == keep0
  {
    hide Closed, Grown;
    keep := keep0;
    for i := 0 to |c.repos|
      invariant keep0.Keys <= keep.Keys
      invariant forall j :: 0 <= j < i && a.active(c.repos[j]) ==> c.repos[j].path in keep
      invariant (forall r :: r in c.repos ==> !a.active(r)) ==> keep == keep0
    {
      var r := c.repos[i];
      if r.path !in keep && a.active(r) { keep := keep[r.path := "became-active-before-retire"]; }
    }
    ghost var before := keep;
    keep := Close(c, keep);
    ClosureExtends(c, before, keep);
  }

  function Stopped(r: Repo, present: set<string>, answer: Removal): set<string> {
    match answer
    case Gone => Below(r, present)
    case Refused => {}
    case Partial(lost) => lost
  }

  /** Phase two: retire in order; a repository that cannot be retired is kept, and with it all it depends on. */
  method Retire(c: Census, s0: State, a: Answers) returns (s: State, ghost log: seq<Start>, ghost order: seq<Repo>)
    requires DistinctPaths(c.repos) && Closed(c, s0.keep.Keys) && s0.present == Paths(c.repos)
    requires forall r :: r in c.repos ==> r.path in s0.keep || r.path in s0.saved
    requires s0.removing == s0.gone == {}
    ensures OrderOk(c, order) && Inv(c, order, |order|, s, log)
    ensures s0.keep.Keys <= s.keep.Keys && s.saved == s0.saved
    ensures forall p :: p in s.removing ==> p in s0.saved && p !in s0.keep
    ensures Unhindered(c, a) ==>
              s.keep == s0.keep && forall r :: r in c.repos && r.path !in s0.keep ==> r.path in s.gone
    ensures Willing(c, a) ==> forall w :: w in c.repos && w.kind == Worktree && w.path !in s0.keep ==> w.path in s.gone
    ensures forall r :: r in c.repos && a.recheck(r) ==> r.path !in s.removing
    ensures forall v, w :: v in c.repos && w in c.repos && v.path !in s0.keep && w.path !in s0.keep ==>
              Spared(c, s, a, v, w)
  {
    hide *;
    s := s0;
    log := [];
    var list := Order(c.repos, s.keep.Keys);
    order := list;
    OrderOrdered(c.repos, s.keep.Keys);
    OrderDistinct(c.repos, s.keep.Keys);
    OrderStable(c.repos, s.keep.Keys);
    StartInv(c, list, s);
    NoneTurned(c, list, s, a);
    for i := 0 to |list|
      invariant OrderOk(c, list) && Inv(c, list, i, s, log)
      invariant s0.keep.Keys <= s.keep.Keys && s.saved == s0.saved
      invariant forall p :: p in s.removing ==> p in s0.saved && p !in s0.keep
      invariant Unhindered(c, a) ==> s.keep == s0.keep
      invariant Willing(c, a) && (i == 0 || list[i - 1].kind == Worktree) ==> s.keep == s0.keep
      invariant Willing(c, a) ==> forall j :: 0 <= j < i && list[j].kind == Worktree ==> list[j].path in s.gone
      invariant forall r :: r in c.repos && a.recheck(r) ==> r.path !in s.removing
      invariant AllSpared(c, list, i, s0.keep, s, a)
    {
      WorktreesLead(list, i);
      ghost var before, logged := s, log;
      s, log := Turn(c, list, i, s, a, log);
      NoneRechecked(c, list, i, before, s, a);
      AllSparedStep(c, list, i, s0.keep, before, s, a, logged);
    }
    AllDealt(c, list, s, log);
    forall v, w | v in c.repos && w in c.repos && v.path !in s0.keep && w.path !in s0.keep
      ensures Spared(c, s, a, v, w)
    {
      SparedAtEnd(c, list, s0.keep, s, a, v, w);
    }
  }

  // ---------- A run in which only one worktree is not retired ----------

  ghost predicate WillingBut(c: Census, a: Answers, w: Repo) {
    forall r :: r in c.repos && r != w ==> !a.recheck(r) && a.remove(r).Gone?
  }

  /** `w` is held before its removal starts, or its removal stops without taking `w` itself. */
  predicate Stays(a: Answers, w: Repo) {
    a.recheck(w) || (a.remove(w).Partial? && w.path !in a.remove(w).lost)
  }

  /** What a removal of `w` that stops takes with it. */
  predicate Takes(a: Answers, w: Repo, p: string) {
    !a.recheck(w) && a.remove(w).Partial? && p in a.remove(w).lost && Contains(w.path, p)
  }

  /** When `w` alone stays, it is there at the end, what its removal took is not, and worktrees before it are gone. */
  ghost predicate Spared(c: Census, s: State, a: Answers, v: Repo, w: Repo) {
    w.kind == Worktree && WillingBut(c, a, w) && Stays(a, w) ==>
      && w.path in s.present && (forall p :: Takes(a, w, p) ==> p !in s.present)
      && (v != w && Leads(c.repos, v, w) ==> v.path in s.gone)
  }

  /** The same of `order[n]` after the first `i` turns. */
  ghost predicate SparedSoFar(c: Census, order: seq<Repo>, i: nat, keep0: map<string, string>, s: State, a: Answers,
                              n: nat)
    requires i <= |order| && n < |order|
  {
    var w := order[n];
    w.kind == Worktree && WillingBut(c, a, w) && Stays(a, w) ==>
      && (forall j :: 0 <= j < n && j < i ==> order[j].path in s.gone)
      && (i <= n ==> s.keep == keep0)
      && (n < i ==> w.path in s.keep && w.path in s.present && forall p :: Takes(a, w, p) ==> p !in s.present)
  }

  /** What a turn does to the repository whose turn it is. */
  ghost predicate Turned(c: Census, s: State, s': State, r: Repo, a: Answers) {
    && s.gone <= s'.gone && s'.present <= s.present && s.keep.Keys <= s'.keep.Keys
    && (forall p :: p in s'.removing ==> p in s.removing || (p == r.path && !a.recheck(r)))
    && (forall q :: q in c.repos && q.path in s.keep && q.path in s.present ==> q.path in s'.present)
    && (r.path !in s.keep && r.path in s.saved && r.path in s.present ==>
          if a.recheck(r) then r.path in s'.keep && s'.present == s.present
          else if a.remove(r).Gone? then s'.keep == s.keep && r.path in s'.gone
          else r.path in s'.keep && s'.present == WithoutUnder(s.present, r.path, Stopped(r, s.present, a.remove(r))))
  }

  lemma HeldTurned(c: Census, s: State, s': State, r: Repo, a: Answers)
    requires s' == s.(keep := s'.keep) && s.keep.Keys <= s'.keep.Keys && r.path in s'.keep
    requires r.path in s.keep || r.path !in s.saved || r.path !in s.present || a.recheck(r)
    ensures Turned(c, s, s', r, a)
  {
    hide WithoutUnder, Stopped;
  }

  lemma RemovedTurned(c: Census, order: seq<Repo>, i: nat, s: State, log: seq<Start>, s': State, a: Answers,
                      lost: set<string>)
    requires i < |order| && OrderOk(c, order) && Inv(c, order, i, s, log) && order[i].path !in s.keep
    requires !a.recheck(order[i]) && lost == Stopped(order[i], s.present, a.remove(order[i]))
    requires s' == Started(order, i, s, lost, a.remove(order[i]).Gone?).(keep := s'.keep)
    requires if a.remove(order[i]).Gone? then s'.keep == s.keep
             else s.keep.Keys <= s'.keep.Keys && order[i].path in s'.keep
    ensures Turned(c, s, s', order[i], a)
  {
    hide Contains, Stopped, OrderOk, Dealt, Losses, Logged;
    forall q | q in c.repos && q.path in s.keep && q.path in s.present ensures q.path in s'.present {
      if Contains(order[i].path, q.path) { InsideIsDealt(c, order, i, s, q); }
    }
  }

  lemma NoneRechecked(c: Census, order: seq<Repo>, i: nat, s: State, s': State, a: Answers)
    requires i < |order| && OrderOk(c, order) && Turned(c, s, s', order[i], a)
    requires forall r :: r in c.repos && a.recheck(r) ==> r.path !in s.removing
    ensures forall r :: r in c.repos && a.recheck(r) ==> r.path !in s'.removing
  {
    hide DistinctPaths, Ordered, Stable;
    forall r | r in c.repos && a.recheck(r) ensures r.path !in s'.removing {
      if r.path == order[i].path { SamePath(c.repos, r, order[i]); }
    }
  }

  lemma SparedStep(c: Census, order: seq<Repo>, i: nat, keep0: map<string, string>, s: State, s': State, a: Answers,
                   n: nat)
    requires i < |order| && n < |order| && OrderOk(c, order) && Dealt(c, order, i, s) && Losses(c, s)
    requires Turned(c, s, s', order[i], a) && (forall r :: r in order ==> r.path !in keep0)
    requires SparedSoFar(c, order, i, keep0, s, a, n)
    ensures SparedSoFar(c, order, i + 1, keep0, s', a, n)
  {
    hide DistinctPaths, Ordered, Stable, Contains, Closed;
    if i <= n && order[n].kind == Worktree && WillingBut(c, a, order[n]) && Stays(a, order[n]) {
      if i < n {
        OrderedAt(order, i, n);
        if order[i] == order[n] { PathNamesOne(order, i, n); }
      }
      WorktreePresent(c, order, i, s);
    }
  }

  lemma WorktreePresent(c: Census, order: seq<Repo>, i: nat, s: State)
    requires i < |order| && OrderOk(c, order) && Dealt(c, order, i, s) && Losses(c, s)
    requires order[i].kind == Worktree && order[i].path !in s.keep
    ensures order[i].path in s.present && order[i].path in s.saved
  {
    hide DistinctPaths, Ordered, Stable, Contains, Closed;
    var r := order[i];
    if r.path in s.removing {
      var j :| 0 <= j < i && order[j].path == r.path;
      PathNamesOne(order, i, j);
    }
  }

  ghost predicate AllSpared(c: Census, order: seq<Repo>, i: nat, keep0: map<string, string>, s: State, a: Answers)
    requires i <= |order|
  {
    && (forall r :: r in order ==> r.path !in keep0)
    && forall n :: 0 <= n < |order| ==> SparedSoFar(c, order, i, keep0, s, a, n)
  }

  lemma NoneTurned(c: Census, order: seq<Repo>, s: State, a: Answers)
    requires forall r :: r in order ==> r.path !in s.keep
    ensures AllSpared(c, order, 0, s.keep, s, a)
  {
    hide WillingBut, Stays, Takes;
  }

  lemma AllSparedStep(c: Census, order: seq<Repo>, i: nat, keep0: map<string, string>, s: State, s': State, a: Answers,
                      log: seq<Start>)
    requires i < |order| && OrderOk(c, order) && Inv(c, order, i, s, log) && Turned(c, s, s', order[i], a)
    requires AllSpared(c, order, i, keep0, s, a)
    ensures AllSpared(c, order, i + 1, keep0, s', a) && s.gone <= s'.gone
  {
    hide SparedSoFar, OrderOk, Dealt, Losses, Logged;
    var next := i + 1;
    forall n | 0 <= n < |order| ensures SparedSoFar(c, order, next, keep0, s', a, n) {
      SparedStep(c, order, i, keep0, s, s', a, n);
    }
  }

  lemma SparedAtEnd(c: Census, order: seq<Repo>, keep0: map<string, string>, s: State, a: Answers, v: Repo, w: Repo)
    requires OrderOk(c, order) && AllSpared(c, order, |order|, keep0, s, a)
    requires v in order && w in order
    ensures Spared(c, s, a, v, w)
  {
    hide DistinctPaths, Ordered, Stable, Leads, Takes, Stays, WillingBut;
    var m :| 0 <= m < |order| && order[m] == v;
    var n :| 0 <= n < |order| && order[n] == w;
    assert SparedSoFar(c, order, |order|, keep0, s, a, n);
    if m > n && Leads(c.repos, v, w) {
      StableAt(c.repos, order, n, m);
      LeadsOneWay(c.repos, v, w);
    }
  }

  lemma WorktreesLead(order: seq<Repo>, i: nat)
    requires i < |order| && Ordered(order)
    ensures i > 0 && order[i].kind == Worktree ==> order[i - 1].kind == Worktree
  {
    hide Ordered;
    if i > 0 { OrderedAt(order, i - 1, i); }
  }

  /** One repository's turn. */
  method Turn(c: Census, order: seq<Repo>, i: nat, s: State, a: Answers, ghost log: seq<Start>)
    returns (s': State, ghost log': seq<Start>)
    requires i < |order| && OrderOk(c, order) && Inv(c, order, i, s, log)
    ensures Inv(c, order, i + 1, s', log') && s.keep.Keys <= s'.keep.Keys && s'.saved == s.saved
    ensures forall p :: p in s'.removing ==> p in s.removing || (p in s.saved && p !in s.keep)
    ensures Unhindered(c, a) ==> s'.keep == s.keep
    ensures Turned(c, s, s', order[i], a)
    ensures Willing(c, a) && order[i].kind == Worktree ==>
              s'.keep == s.keep && (order[i].path in s.keep || order[i].path in s'.gone)
  {
    hide *;
    if Unhindered(c, a) || (Willing(c, a) && order[i].kind == Worktree) { TurnUnhindered(c, order, i, s, log, a); }
    s', log' := s, log;
    var r := order[i];
    if r.path in s.keep {
      StillHeld(c, order, i, s, log);
      HeldTurned(c, s, s, r, a);
    } else if r.path !in s.saved || r.path !in s.present || a.recheck(r) {
      InvHalf(c, order, i, s, log);
      s' := Hold(c, s, r.path, "not-preserved-or-changed", order, i, log);
      HeldTurned(c, s, s', r, a);
    } else {
      var answer := a.remove(r);
      var lost := Stopped(r, s.present, answer);
      StartKeeps(c, order, i, s, log, answer, lost);
      StartedIs(order, i, s, lost, answer.Gone?);
      log' := log + [Start(r, s.keep.Keys, s.gone)];
      s' := s.(removing := s.removing + {r.path}, present := WithoutUnder(s.present, r.path, lost));
      if answer.Gone? {
        s' := s'.(gone := s.gone + {r.path});
      } else {
        s' := Hold(c, s', r.path, "remove-failed", order, i, log');
      }
      RemovedTurned(c, order, i, s, log, s', a, lost);
    }
  }

  /** No answer stands in the way of a removal. */
  ghost predicate Willing(c: Census, a: Answers) {
    forall r :: r in c.repos ==> !a.recheck(r) && a.remove(r).Gone?
  }

  /** And no clone lies inside a worktree. */
  ghost predicate Unhindered(c: Census, a: Answers) {
    Willing(c, a) && forall w, q :: w in c.repos && q in c.repos ==> !CloneInWorktree(w, q)
  }

  /** Then each repository still has its directory at its turn; a worktree has it whatever the layout. */
  lemma TurnUnhindered(c: Census, order: seq<Repo>, i: nat, s: State, log: seq<Start>, a: Answers)
    requires i < |order| && OrderOk(c, order) && Inv(c, order, i, s, log)
    requires Unhindered(c, a) || (Willing(c, a) && order[i].kind == Worktree)
    ensures !a.recheck(order[i]) && a.remove(order[i]).Gone?
    ensures order[i].path in s.keep || (order[i].path in s.saved && order[i].path in s.present)
  {
    hide Closed, Contains, Ordered, DistinctPaths;
    var r := order[i];
    assert r in c.repos;
    if r.path in s.removing {
      var j :| 0 <= j < i && order[j].path == r.path;
      PathNamesOne(order, i, j);
    }
  }

  lemma AllDealt(c: Census, order: seq<Repo>, s: State, log: seq<Start>)
    requires Inv(c, order, |order|, s, log)
    ensures forall r :: r in c.repos ==> r.path in s.keep || r.path in s.gone
  {
    hide Closed;
  }

  /** Keeps a path and closes the keep set. */
  method Hold(c: Census, s: State, path: string, why: string, ghost order: seq<Repo>, ghost i: nat,
              ghost log: seq<Start>)
    returns (s': State)
    requires i < |order| && path == order[i].path && Half(c, order, i, s, log)
    ensures Inv(c, order, i + 1, s', log)
    ensures s.keep.Keys <= s'.keep.Keys && s' == s.(keep := s'.keep) && path in s'.keep
  {
    hide *;
    var more := s.keep[path := why];
    var kept := Close(c, more);
    s' := s.(keep := kept);
    HoldExtends(c, s.keep, path, why, kept);
    HalfHeld(c, order, i, s, s', log);
  }

  lemma HoldExtends(c: Census, keep: map<string, string>, path: string, why: string, kept: map<string, string>)
    requires IsClosure(c, keep[path := why], kept)
    ensures keep.Keys <= kept.Keys && path in kept && Closed(c, kept.Keys)
  {
    hide Closed, Needed, Paths;
    assert path in keep[path := why];
  }

  /** The turn of `order[i]` has begun: it may already be among the removals started. */
  ghost predicate Half(c: Census, order: seq<Repo>, i: nat, s: State, log: seq<Start>)
    requires i < |order|
  {
    && s.gone <= s.removing
    && (forall r :: r in c.repos ==> r.path in s.keep || (r.path in s.saved && r in order))
    && (forall j :: 0 <= j < i ==> order[j].path in s.keep || order[j].path in s.gone)
    && (forall p :: p in s.removing ==> exists j :: 0 <= j < i + 1 && order[j].path == p)
    && Losses(c, s) && Logged(c, s, log)
  }

  lemma HalfHeld(c: Census, order: seq<Repo>, i: nat, s: State, s': State, log: seq<Start>)
    requires i < |order| && Half(c, order, i, s, log)
    requires s' == s.(keep := s'.keep) && s.keep.Keys <= s'.keep.Keys && order[i].path in s'.keep
             && Closed(c, s'.keep.Keys)
    ensures Inv(c, order, i + 1, s', log)
  {
    hide Closed, CloneInWorktree;
    assert Dealt(c, order, i + 1, s');
    forall e | e in log ensures StartedSafely(c, s', e) {}
    forall q | q in c.repos && q.path !in s'.present ensures q.path in s'.removing || InsideRetired(c, s', q) {}
  }

  lemma StartInv(c: Census, order: seq<Repo>, s: State)
    requires DistinctPaths(c.repos) && Closed(c, s.keep.Keys) && s.present == Paths(c.repos)
    requires forall r :: r in c.repos ==> r.path in s.keep || r.path in s.saved
    requires s.removing == s.gone == {}
    requires DistinctPaths(order) && Ordered(order) && Stable(c.repos, order)
    requires forall r :: r in order <==> r in c.repos && r.path !in s.keep
    ensures OrderOk(c, order) && Inv(c, order, 0, s, [])
  {
    hide Closed, Ordered, Stable, DistinctPaths;
  }

  lemma StillHeld(c: Census, order: seq<Repo>, i: nat, s: State, log: seq<Start>)
    requires i < |order| && Inv(c, order, i, s, log) && order[i].path in s.keep
    ensures Inv(c, order, i + 1, s, log)
  {
    hide Closed, Losses, Logged;
  }

  lemma InvHalf(c: Census, order: seq<Repo>, i: nat, s: State, log: seq<Start>)
    requires i < |order| && Inv(c, order, i, s, log)
    ensures Half(c, order, i, s, log)
  {
    hide Closed, Losses, Logged;
  }

  /** A removal started keeps the invariant when it goes through, and up to the hold that follows when it does not. */
  lemma StartKeeps(c: Census, order: seq<Repo>, i: nat, s: State, log: seq<Start>, answer: Removal, lost: set<string>)
    requires i < |order| && OrderOk(c, order) && Inv(c, order, i, s, log)
    requires order[i].path !in s.keep && order[i].path in s.present && lost == Stopped(order[i], s.present, answer)
    ensures var log' := log + [Start(order[i], s.keep.Keys, s.gone)];
            if answer.Gone? then Inv(c, order, i + 1, Started(order, i, s, lost, true), log')
            else Half(c, order, i, Started(order, i, s, lost, false), log')
  {
    hide Closed, Losses, Logged, OrderOk;
    var s' := Started(order, i, s, lost, answer.Gone?);
    StartKeepsLosses(c, order, i, s, s', lost, answer.Gone?);
    StartKeepsLog(c, order, i, s, s', log, lost, answer.Gone?);
    forall p | p in s'.removing ensures exists j :: 0 <= j < i + 1 && order[j].path == p {
      if p in s.removing {
        var j :| 0 <= j < i && order[j].path == p;
      } else {
        assert order[i].path == p;
      }
    }
  }

  lemma StartedIs(order: seq<Repo>, i: nat, s: State, lost: set<string>, done: bool)
    requires i < |order|
    ensures var path := order[i].path;
            Started(order, i, s, lost, done) ==
              State(s.keep, s.saved, s.removing + {path}, if done then s.gone + {path} else s.gone,
                    WithoutUnder(s.present, path, lost))
  {
    hide WithoutUnder;
  }

  // ---------- Copies ----------

  /** A copy made by this run, or one an earlier run left. */
  datatype Copy = Mine(path: string) | Older(name: string)

  /** A copy of a source that stays protects nothing; a removal that was started keeps its copy. */
  method Discard(s: State, a: Answers, copies: map<Copy, int>) returns (left: map<Copy, int>)
    ensures forall k :: k in left <==>
              k in copies && !(k.Mine? && k.path in s.saved && k.path in s.keep && k.path !in s.removing
                               && !a.scopedCopy(k.path))
    ensures forall k :: k in left ==> left[k] == copies[k]
  {
    left := copies;
    var todo := s.saved;
    while todo != {}
      invariant todo <= s.saved
      invariant forall k :: k in left <==>
                  k in copies && !(k.Mine? && k.path in s.saved && k.path !in todo && k.path in s.keep
                                   && k.path !in s.removing && !a.scopedCopy(k.path))
      invariant forall k :: k in left ==> left[k] == copies[k]
      decreases |todo|
    {
      var path :| path in todo;
      todo := todo - {path};
      if path in s.keep && path !in s.removing && !a.scopedCopy(path) { left := left - {Mine(path)}; }
    }
  }

  /** Removes the copies older than the retention, and no other. */
  method Expire(copies: map<Copy, int>, now: int, retainDays: nat, scoped: Copy -> bool) returns (left: map<Copy, int>)
    ensures forall k :: k in left <==> k in copies && (copies[k] >= now - retainDays * 86400 || scoped(k))
    ensures forall k :: k in left ==> left[k] == copies[k]
  {
    var cutoff := now - retainDays * 86400;
    left := copies;
    var todo := copies.Keys;
    while todo != {}
      invariant todo <= copies.Keys
      invariant forall k :: k in left <==> k in copies && (k in todo || copies[k] >= cutoff || scoped(k))
      invariant forall k :: k in left ==> left[k] == copies[k]
      decreases |todo|
    {
      var k :| k in todo;
      todo := todo - {k};
      if !scoped(k) && copies[k] < cutoff { left := left - {k}; }
    }
  }

  // ---------- What a whole run guarantees ----------

  /** At every removal the keep set was closed. Whatever the removal takes, `x` itself or something inside it, is not
      kept and was saved; and no kept repository lies inside `x`, is a worktree of its store or borrows from it as the
      recorded owner of its own. */
  lemma RemovalWasSafe(c: Census, s: State, log: seq<Start>, e: Start, x: Repo, q: Repo)
    requires Logged(c, s, log) && e in log && x in c.repos && q in c.repos
    requires x == e.repo || Contains(e.repo.path, x.path)
    ensures x.path !in e.keep && x.path in s.saved
    ensures q.path in e.keep ==> !Contains(x.path, q.path) && !OfStore(q, x)
    ensures q.path in e.keep && Lends(c, x, q) ==> Owners(c.repos)[q.store.value] != q
  {
    hide Contains, Owners, Leads;
    assert StartedSafely(c, s, e);
    assert x.path in e.keep && Contains(e.repo.path, x.path) ==> ContainsKept(c.repos, e.keep, e.repo);
    assert q.path in e.keep && Contains(x.path, q.path) ==> ContainsKept(c.repos, e.keep, x);
    assert q.path in e.keep && OfStore(q, x) ==> HasKeptWorktree(c.repos, e.keep, x);
    assert q.path in e.keep && Lends(c, x, q) && Owners(c.repos)[q.store.value] == q ==>
        LendsToKept(Owners(c.repos), c.borrowers, e.keep, x);
  }

  /** A borrower that is no candidate is kept by definition: its lender is never removed. */
  lemma OutsideBorrowerKeepsLender(c: Census, s: State, log: seq<Start>, e: Start, b: string)
    requires Logged(c, s, log) && e in log && e.repo.kind != Worktree && e.repo.store.Some?
    requires e.repo.store.value in c.borrowers && b in c.borrowers[e.repo.store.value]
    ensures b in Owners(c.repos)
  {
    hide Owners, Leads;
    assert StartedSafely(c, s, e);
    assert b !in Owners(c.repos) ==> LendsToKept(Owners(c.repos), c.borrowers, e.keep, e.repo);
  }

  /** Nothing is deleted without a saved copy. */
  lemma LossesWereSaved(c: Census, order: seq<Repo>, s: State, log: seq<Start>, q: Repo)
    requires DistinctPaths(c.repos) && Inv(c, order, |order|, s, log) && q in c.repos && q.path !in s.present
    ensures q.path in s.saved
  {
    hide Contains, Closed, DistinctPaths;
    if q.path in s.removing {
      var e :| e in log && e.repo.path == q.path;
      assert StartedSafely(c, s, e);
    } else {
      var w :| w in c.repos && w.path in s.removing && CloneInWorktree(w, q);
      var e :| e in log && e.repo.path == w.path;
      assert StartedSafely(c, s, e);
      SamePath(c.repos, e.repo, w);
      RemovalWasSafe(c, s, log, e, q, q);
    }
  }

  /** Retired with the clone inside it before `w` had its turn, or as `w` itself. */
  ghost predicate TakenBefore(c: Census, s: State, w: Repo, q: Repo) {
    exists v :: v in c.repos && v.path in s.removing && CloneInWorktree(v, q) && Leads(c.repos, v, w)
  }

  /** A worktree that is still there keeps the clone that holds its store, unless that clone lay inside a worktree
      that was retired no later than its own turn. */
  lemma HeldWorktreeKeepsClone(c: Census, order: seq<Repo>, s: State, log: seq<Start>, w: Repo, q: Repo)
    requires OrderOk(c, order) && Inv(c, order, |order|, s, log) && w in c.repos && q in c.repos
    requires OfStore(w, q) && w.path in s.present
    ensures q.path in s.present || TakenBefore(c, s, w, q)
  {
    hide Contains, Ordered, Stable, Leads, NotAfter, DistinctPaths, Closed;
    if q.path !in s.present {
      if q.path in s.removing {
        var e :| e in log && e.repo.path == q.path;
        StartedLast(c, s, log, e, q, w);
        WorktreeLeads(c.repos, w, q);
        RemovalWasSafe(c, s, log, e, q, w);
      } else {
        var v :| v in c.repos && v.path in s.removing && CloneInWorktree(v, q);
        var e :| e in log && e.repo.path == v.path;
        StartedLast(c, s, log, e, v, w);
        RemovalWasSafe(c, s, log, e, q, w);
        LeadsTotal(c.repos, v, w);
      }
    }
  }

  /** When a removal takes a clone, a worktree of its store that is still there at the end has not had its turn. */
  lemma StartedLast(c: Census, s: State, log: seq<Start>, e: Start, v: Repo, w: Repo)
    requires DistinctPaths(c.repos) && Losses(c, s) && Logged(c, s, log) && e in log && e.repo.path == v.path
    requires v in c.repos && w in c.repos && w.path in s.present
    ensures e.repo == v
    ensures w != v && Leads(c.repos, w, v) ==> w.path in e.keep
  {
    hide Contains, Leads, DistinctPaths, Closed;
    assert StartedSafely(c, s, e);
    SamePath(c.repos, e.repo, v);
  }

  lemma WorktreeLeads(repos: seq<Repo>, w: Repo, q: Repo)
    requires w.kind == Worktree && q.kind != Worktree
    ensures Leads(repos, w, q) && w != q
  {
  }

  lemma LeadsTotal(repos: seq<Repo>, a: Repo, b: Repo)
    requires a in repos && b in repos
    ensures Leads(repos, a, b) || Leads(repos, b, a)
  {
    hide NotAfter;
    NotAfterTotal(a, b);
    var i :| 0 <= i < |repos| && repos[i] == a;
    var j :| 0 <= j < |repos| && repos[j] == b;
    assert i == j ==> a == b;
    assert i < j ==> ListedBefore(repos, a, b);
    assert j < i ==> ListedBefore(repos, b, a);
  }

  /** After discard and expiry a repository is lost without a copy only if it lay inside a retired worktree. */
  lemma LossKeepsCopy(c: Census, order: seq<Repo>, s: State, log: seq<Start>, a: Answers, copies: map<Copy, int>,
                      left: map<Copy, int>, final: map<Copy, int>, now: int, retainDays: nat, q: Repo)
    requires DistinctPaths(c.repos) && Inv(c, order, |order|, s, log) && q in c.repos && q.path !in s.present
    requires CopiesAtEnd(s, a, copies, left, final, now, retainDays)
    ensures Mine(q.path) in final || (InsideRetired(c, s, q) && !a.scopedCopy(q.path))
  {
    hide Contains, Closed, DistinctPaths;
    LossesWereSaved(c, order, s, log, q);
  }

  /** And everything that lies inside a worktree retired whole is lost so. */
  lemma InsideRetiredLosesCopy(c: Census, order: seq<Repo>, s: State, log: seq<Start>, a: Answers,
                               copies: map<Copy, int>, left: map<Copy, int>, final: map<Copy, int>, now: int,
                               retainDays: nat, w: Repo, q: Repo)
    requires DistinctPaths(c.repos) && Inv(c, order, |order|, s, log) && w in c.repos && q in c.repos
    requires w.path in s.gone && CloneInWorktree(w, q) && !a.scopedCopy(q.path)
    requires CopiesAtEnd(s, a, copies, left, final, now, retainDays)
    ensures q.path !in s.present && Mine(q.path) !in final
  {
    hide Contains, Closed, DistinctPaths;
    LossesWereSaved(c, order, s, log, q);
    AllDealt(c, order, s, log);
  }

  /** The copies this run made, those left by discarding and those left by expiry. */
  ghost predicate CopiesAtEnd(s: State, a: Answers, copies: map<Copy, int>, left: map<Copy, int>, final: map<Copy, int>,
                              now: int, retainDays: nat)
  {
    && (forall p :: Mine(p) in copies <==> p in s.saved)
    && (forall p :: Mine(p) in copies ==> copies[Mine(p)] == now)
    && (forall k :: k in left <==>
          k in copies && !(k.Mine? && k.path in s.saved && k.path in s.keep && k.path !in s.removing
                           && !a.scopedCopy(k.path)))
    && (forall k :: k in left ==> left[k] == copies[k])
    && (forall k :: k in final ==> k in left)
    && (forall k :: k in left && left[k] >= now - retainDays * 86400 ==> k in final)
  }

  /** What a run promises about every repository: a loss keeps its copy or lay inside a retired worktree, what lies
      inside a worktree retired whole loses its copy, a worktree that stays keeps its clone unless that was taken before
      its turn, and what is held at its turn keeps no copy. */
  ghost predicate Guarantees(c: Census, s: State, a: Answers, final: map<Copy, int>) {
    && (forall q :: q in c.repos && q.path !in s.present ==>
          Mine(q.path) in final || (InsideRetired(c, s, q) && !a.scopedCopy(q.path)))
    && (forall w, q :: w in c.repos && q in c.repos && w.path in s.gone && CloneInWorktree(w, q) ==>
          a.scopedCopy(q.path) || (q.path !in s.present && Mine(q.path) !in final))
    && (forall w, q :: w in c.repos && q in c.repos && w.path in s.present && OfStore(w, q) ==>
          q.path in s.present || TakenBefore(c, s, w, q))
    && (forall r :: r in c.repos && a.recheck(r) ==> a.scopedCopy(r.path) || Mine(r.path) !in final)
  }

  predicate OfStore(w: Repo, q: Repo) { w.kind == Worktree && q.kind != Worktree && w.store == q.store }

  /** A run from the plan to the last expiry. */
  method RetireAll(c: Census, keep0: map<string, string>, a: Answers, older: map<string, int>, now: int,
                   retainDays: nat, scoped: Copy -> bool)
    returns (s: State, final: map<Copy, int>, plan: map<string, string>, ghost log: seq<Start>)
    requires DistinctPaths(c.repos)
    ensures IsClosure(c, keep0, plan) && plan.Keys <= s.keep.Keys
    ensures Logged(c, s, log) && Guarantees(c, s, a, final)
    ensures Promises(c, plan.Keys, a, s, final) && ClonePromises(c, plan.Keys, a, s)
    ensures forall p :: p in s.removing ==> p !in plan
    ensures forall n :: n in older ==> (Older(n) in final <==> older[n] >= now - retainDays * 86400 || scoped(Older(n)))
  {
    hide *;
    plan := Close(c, keep0);
    ClosureExtends(c, keep0, plan);
    var keep, saved := PreserveAll(c, plan, a);
    keep := KeepActive(c, keep, a);
    ghost var order;
    s, log, order := Retire(c, State(keep, saved, {}, {}, Paths(c.repos)), a);
    var copies := AllCopies(older, saved, now);
    var left := Discard(s, a, copies);
    final := Expire(left, now, retainDays, scoped);
    RunGuarantees(c, order, s, log, a, copies, left, final, now, retainDays);
    UnopposedIs(c, a);
    RunPromises(c, plan.Keys, a, s, final);
    GaveUpIs(c, plan.Keys, a, s);
    LossesOf(c, order, s, log);
    RunClonePromises(c, plan.Keys, a, s, final);
  }

  function AllCopies(older: map<string, int>, saved: set<string>, now: int): (copies: map<Copy, int>)
    ensures forall p :: Mine(p) in copies <==> p in saved
    ensures forall n :: Older(n) in copies <==> n in older
    ensures forall k :: k in copies ==> copies[k] == if k.Mine? then now else older[k.name]
  {
    (map n | n in older :: Older(n) := older[n]) + (map p | p in saved :: Mine(p) := now)
  }

  lemma RunGuarantees(c: Census, order: seq<Repo>, s: State, log: seq<Start>, a: Answers, copies: map<Copy, int>,
                      left: map<Copy, int>, final: map<Copy, int>, now: int, retainDays: nat)
    requires OrderOk(c, order) && Inv(c, order, |order|, s, log)
    requires forall r :: r in c.repos && a.recheck(r) ==> r.path !in s.removing
    requires forall p :: Mine(p) in copies <==> p in s.saved
    requires forall p :: Mine(p) in copies ==> copies[Mine(p)] == now
    requires forall k :: k in left <==>
               k in copies && !(k.Mine? && k.path in s.saved && k.path in s.keep && k.path !in s.removing
                                && !a.scopedCopy(k.path))
    requires forall k :: k in left ==> left[k] == copies[k]
    requires forall k :: k in final ==> k in left
    requires forall k :: k in left && left[k] >= now - retainDays * 86400 ==> k in final
    ensures Logged(c, s, log) && Guarantees(c, s, a, final)
  {
    hide Inv, DistinctPaths, Ordered, Stable, Contains, InsideRetired, TakenBefore, CloneInWorktree, Logged;
    assert CopiesAtEnd(s, a, copies, left, final, now, retainDays);
    hide CopiesAtEnd;
    forall q | q in c.repos && q.path !in s.present
      ensures Mine(q.path) in final || (InsideRetired(c, s, q) && !a.scopedCopy(q.path))
    {
      LossKeepsCopy(c, order, s, log, a, copies, left, final, now, retainDays, q);
    }
    forall w, q | w in c.repos && q in c.repos && w.path in s.gone && CloneInWorktree(w, q)
      ensures a.scopedCopy(q.path) || (q.path !in s.present && Mine(q.path) !in final)
    {
      if !a.scopedCopy(q.path) {
        InsideRetiredLosesCopy(c, order, s, log, a, copies, left, final, now, retainDays, w, q);
      }
    }
    forall w, q | w in c.repos && q in c.repos && w.path in s.present && OfStore(w, q)
      ensures q.path in s.present || TakenBefore(c, s, w, q)
    {
      HeldWorktreeKeepsClone(c, order, s, log, w, q);
    }
    forall r | r in c.repos && a.recheck(r) ensures a.scopedCopy(r.path) || Mine(r.path) !in final {
      if !a.scopedCopy(r.path) { HeldLosesCopy(c, order, s, log, a, copies, left, final, now, retainDays, r); }
    }
    LogOf(c, order, s, log);
  }

  /** What is held at its turn, or is kept before it, keeps no copy. */
  lemma HeldLosesCopy(c: Census, order: seq<Repo>, s: State, log: seq<Start>, a: Answers, copies: map<Copy, int>,
                      left: map<Copy, int>, final: map<Copy, int>, now: int, retainDays: nat, r: Repo)
    requires Inv(c, order, |order|, s, log) && CopiesAtEnd(s, a, copies, left, final, now, retainDays)
    requires r in c.repos && r.path !in s.removing && !a.scopedCopy(r.path)
    ensures Mine(r.path) !in final
  {
    hide Closed, Losses, Logged;
    AllDealt(c, order, s, log);
  }

  lemma LogOf(c: Census, order: seq<Repo>, s: State, log: seq<Start>)
    requires Inv(c, order, |order|, s, log)
    ensures Logged(c, s, log)
  {
  }

  lemma LossesOf(c: Census, order: seq<Repo>, s: State, log: seq<Start>)
    requires Inv(c, order, |order|, s, log)
    ensures Losses(c, s)
  {
  }

  // ---------- When every loss keeps its copy ----------

  /** Everything is preserved, nothing becomes active, and no answer stands in the way of a removal. */
  ghost predicate Unopposed(c: Census, a: Answers) {
    (forall r :: r in c.repos ==> a.preserve(r)) && (forall r :: r in c.repos ==> !a.active(r)) && Willing(c, a)
  }

  /** Every repository that is gone has its copy. */
  ghost predicate KeepsCopies(c: Census, s: State, final: map<Copy, int>) {
    forall q :: q in c.repos && q.path !in s.present ==> Mine(q.path) in final
  }

  /** A clone or bare repository, its copy not under a declared scope, inside a worktree that the plan gives up. */
  ghost predicate Exposed(c: Census, plan: set<string>, scopedCopy: string -> bool, w: Repo, q: Repo) {
    w in c.repos && q in c.repos && w.path !in plan && CloneInWorktree(w, q) && !scopedCopy(q.path)
  }

  /** What a run owes the plan: with nothing exposed every loss keeps its copy, and unopposed it takes away whatever is
      exposed, copy and all. */
  ghost predicate Promises(c: Census, plan: set<string>, a: Answers, s: State, final: map<Copy, int>) {
    && ((forall w, q :: !Exposed(c, plan, a.scopedCopy, w, q)) ==> KeepsCopies(c, s, final))
    && (Unopposed(c, a) ==>
          forall w, q :: Exposed(c, plan, a.scopedCopy, w, q) ==> q.path !in s.present && Mine(q.path) !in final)
  }

  lemma UnopposedIs(c: Census, a: Answers)
    ensures Unopposed(c, a) ==>
              (forall r :: r in c.repos ==> a.preserve(r)) && (forall r :: r in c.repos ==> !a.active(r))
                && Willing(c, a)
  {
    hide Willing;
  }

  lemma RunPromises(c: Census, plan: set<string>, a: Answers, s: State, final: map<Copy, int>)
    requires Guarantees(c, s, a, final) && forall p :: p in s.removing ==> p !in plan
    requires Unopposed(c, a) ==> forall w :: w in c.repos && w.kind == Worktree && w.path !in plan ==> w.path in s.gone
    ensures Promises(c, plan, a, s, final)
  {
    hide Contains, Unopposed;
    if forall w, q :: !Exposed(c, plan, a.scopedCopy, w, q) {
      forall q | q in c.repos && q.path !in s.present ensures Mine(q.path) in final {
        InsideIsExposed(c, plan, a, s, q);
      }
    }
  }

  lemma InsideIsExposed(c: Census, plan: set<string>, a: Answers, s: State, q: Repo)
    requires q in c.repos && forall p :: p in s.removing ==> p !in plan
    ensures InsideRetired(c, s, q) && !a.scopedCopy(q.path) ==> exists w :: Exposed(c, plan, a.scopedCopy, w, q)
  {
    hide CloneInWorktree;
    if InsideRetired(c, s, q) && !a.scopedCopy(q.path) {
      var w :| w in c.repos && w.path in s.removing && CloneInWorktree(w, q);
      assert Exposed(c, plan, a.scopedCopy, w, q);
    }
  }

  /** Over all the answers a run may get, every loss keeps its copy exactly when the plan leaves nothing exposed. */
  lemma CopiesKeptExactly(c: Census, plan: set<string>, scopedCopy: string -> bool,
                          run: Answers -> (State, map<Copy, int>))
    requires forall a: Answers :: Promises(c, plan, a, run(a).0, run(a).1)
    ensures (forall a: Answers :: a.scopedCopy == scopedCopy ==> KeepsCopies(c, run(a).0, run(a).1))
            <==> (forall w, q :: !Exposed(c, plan, scopedCopy, w, q))
  {
    hide CloneInWorktree;
    if w, q :| Exposed(c, plan, scopedCopy, w, q) {
      var a := Answers((r: Repo) => true, (r: Repo) => false, (r: Repo) => false, (r: Repo) => Gone, scopedCopy);
      assert Unopposed(c, a) && Promises(c, plan, a, run(a).0, run(a).1);
      assert a.scopedCopy == scopedCopy && !KeepsCopies(c, run(a).0, run(a).1);
    }
  }

  // ---------- When every worktree that stays keeps its clone ----------

  /** Every worktree still there has the clone or bare repository of its store. */
  ghost predicate KeepsClones(c: Census, s: State) {
    forall w, q :: w in c.repos && q in c.repos && w.path in s.present && OfStore(w, q) ==> q.path in s.present
  }

  /** The clone of `w` lies inside a worktree that the plan gives up and that comes no later than `w`. */
  ghost predicate Threatened(c: Census, plan: set<string>, v: Repo, w: Repo, q: Repo) {
    && v in c.repos && w in c.repos && q in c.repos && v.path !in plan
    && CloneInWorktree(v, q) && OfStore(w, q) && Leads(c.repos, v, w)
  }

  /** Nothing but `w` stands in the way: it is held at its turn, or its removal stops when it has taken `q`. */
  ghost predicate OpposedBy(c: Census, a: Answers, w: Repo, q: Repo) {
    && (forall r :: r in c.repos ==> a.preserve(r)) && (forall r :: r in c.repos ==> !a.active(r))
    && WillingBut(c, a, w)
    && if Contains(w.path, q.path) then !a.recheck(w) && a.remove(w) == Partial({q.path}) else a.recheck(w)
  }

  /** What a run owes the plan: only a threatened worktree stays without its clone, and one that alone stands in the way
      does. */
  ghost predicate ClonePromises(c: Census, plan: set<string>, a: Answers, s: State) {
    && (forall w, q :: w in c.repos && q in c.repos && w.path in s.present && OfStore(w, q) && q.path !in s.present ==>
          exists v :: Threatened(c, plan, v, w, q))
    && (forall v, w, q :: Threatened(c, plan, v, w, q) && OpposedBy(c, a, w, q) ==>
          w.path in s.present && q.path !in s.present && (v == w || v.path in s.gone))
  }

  lemma OpposedIs(c: Census, a: Answers, w: Repo, q: Repo)
    ensures OpposedBy(c, a, w, q) ==>
              && (forall r :: r in c.repos ==> a.preserve(r)) && (forall r :: r in c.repos ==> !a.active(r))
              && WillingBut(c, a, w) && Stays(a, w) && (Contains(w.path, q.path) ==> Takes(a, w, q.path))
  {
    hide WillingBut;
    if Contains(w.path, q.path) { ContainedIsDeeper(w.path, q.path); }
  }

  /** The run gave up exactly what the plan does, if nothing failed and nothing became active. */
  ghost predicate GaveUp(c: Census, plan: set<string>, a: Answers, s: State) {
    (forall r :: r in c.repos ==> a.preserve(r)) && (forall r :: r in c.repos ==> !a.active(r)) ==>
      forall v, w :: v in c.repos && w in c.repos && v.path !in plan && w.path !in plan ==> Spared(c, s, a, v, w)
  }

  lemma GaveUpIs(c: Census, plan: set<string>, a: Answers, s: State)
    requires (forall r :: r in c.repos ==> a.preserve(r)) && (forall r :: r in c.repos ==> !a.active(r)) ==>
               forall v, w :: v in c.repos && w in c.repos && v.path !in plan && w.path !in plan ==>
                 Spared(c, s, a, v, w)
    ensures GaveUp(c, plan, a, s)
  {
    hide Spared;
  }

  lemma RunClonePromises(c: Census, plan: set<string>, a: Answers, s: State, final: map<Copy, int>)
    requires DistinctPaths(c.repos) && Closed(c, plan) && GaveUp(c, plan, a, s) && Losses(c, s)
    requires Guarantees(c, s, a, final) && forall p :: p in s.removing ==> p !in plan
    ensures ClonePromises(c, plan, a, s)
  {
    hide Closed, Contains, Leads, DistinctPaths, OpposedBy, GaveUp, Losses;
    forall w, q | w in c.repos && q in c.repos && w.path in s.present && OfStore(w, q) && q.path !in s.present
      ensures exists v :: Threatened(c, plan, v, w, q)
    {
      var v :| v in c.repos && v.path in s.removing && CloneInWorktree(v, q) && Leads(c.repos, v, w);
      assert Threatened(c, plan, v, w, q);
    }
    forall v, w, q | Threatened(c, plan, v, w, q) && OpposedBy(c, a, w, q)
      ensures w.path in s.present && q.path !in s.present && (v == w || v.path in s.gone)
    {
      ThreatCarriedOut(c, plan, a, s, v, w, q);
    }
  }

  lemma ThreatCarriedOut(c: Census, plan: set<string>, a: Answers, s: State, v: Repo, w: Repo, q: Repo)
    requires Closed(c, plan) && GaveUp(c, plan, a, s) && Losses(c, s)
    requires Threatened(c, plan, v, w, q) && OpposedBy(c, a, w, q)
    ensures w.path in s.present && q.path !in s.present && (v == w || v.path in s.gone)
  {
    hide Contains, Leads, Closed, OpposedBy, Stays, Takes, WillingBut;
    OpposedIs(c, a, w, q);
    ThreatenedGivenUp(c, plan, v, w, q);
    assert Spared(c, s, a, v, w);
  }

  /** The plan gives up the worktree too: keeping it would keep its clone, and so whatever contains that. */
  lemma ThreatenedGivenUp(c: Census, plan: set<string>, v: Repo, w: Repo, q: Repo)
    requires Closed(c, plan) && Threatened(c, plan, v, w, q)
    ensures w.path !in plan
  {
    hide Contains, Leads, Owners;
    assert w.path in plan ==> HasKeptWorktree(c.repos, plan, q);
    assert q.path in plan ==> ContainsKept(c.repos, plan, v);
  }

  /** Over all the answers a run may get, every worktree that stays keeps its clone exactly when the plan leaves none
      threatened. */
  lemma ClonesKeptExactly(c: Census, plan: set<string>, run: Answers -> (State, map<Copy, int>))
    requires forall a: Answers :: ClonePromises(c, plan, a, run(a).0)
    ensures (forall a: Answers :: KeepsClones(c, run(a).0)) <==> (forall v, w, q :: !Threatened(c, plan, v, w, q))
  {
    hide CloneInWorktree, Leads, Contains, OfStore;
    if v, w, q :| Threatened(c, plan, v, w, q) {
      var a := Opposing(w, q);
      OpposingOpposes(c, w, q);
      assert ClonePromises(c, plan, a, run(a).0);
      assert !KeepsClones(c, run(a).0);
    }
  }

  ghost function Opposing(w: Repo, q: Repo): Answers {
    var inside := Contains(w.path, q.path);
    Answers((r: Repo) => true, (r: Repo) => false, (r: Repo) => r == w && !inside,
            (r: Repo) => if r == w && inside then Partial({q.path}) else Gone, (p: string) => false)
  }

  lemma OpposingOpposes(c: Census, w: Repo, q: Repo)
    ensures OpposedBy(c, Opposing(w, q), w, q)
  {
    hide Contains;
  }

  /** A whole run that leaves a worktree without its clone: the clone is taken by the worktree around it, the other
      worktree is then held because its store is missing, and both copies are discarded. */
  method HeldWorktreeIsStranded(now: int, retainDays: nat, scoped: Copy -> bool)
    returns (s: State, final: map<Copy, int>)
    ensures "/h/x" in s.present && "/h/v/q" !in s.present
    ensures Mine("/h/x") !in final && Mine("/h/v/q") !in final
  {
    var v, q, w := Repo("/h/v", Worktree, Some("s")), Repo("/h/v/q", Clone, Some("t")),
      Repo("/h/x", Worktree, Some("t"));
    var c := Census([v, q, w], map[], true);
    var a := Answers((r: Repo) => true, (r: Repo) => false, (r: Repo) => r == w, (r: Repo) => Gone,
                     (p: string) => false);
    StrandedPlan(v, q, w, c);
    var plan;
    ghost var log;
    s, final, plan, log := RetireAll(c, map[], a, map[], now, retainDays, scoped);
    NothingKept(c, plan);
    StrandedHere(c, plan.Keys, a, v, q, w, s, final);
  }

  lemma StrandedPlan(v: Repo, q: Repo, w: Repo, c: Census)
    requires v == Repo("/h/v", Worktree, Some("s")) && q == Repo("/h/v/q", Clone, Some("t"))
    requires w == Repo("/h/x", Worktree, Some("t")) && c == Census([v, q, w], map[], true)
    ensures DistinctPaths(c.repos) && Closed(c, {}) && CloneInWorktree(v, q) && OfStore(w, q) && Leads(c.repos, v, w)
    ensures !Contains(w.path, q.path)
  {
    hide Closed, DistinctPaths, Slashes;
    assert "/h/v" + "/" <= "/h/v/q" && (w.path + "/")[3] == 'x' && q.path[3] == 'v';
    assert |v.path| < |q.path| && v.path[3] == 'v';
    DistinctThree(v, q, w);
    ClosedWithoutLending(c);
    DepthTwo('v');
    DepthTwo('x');
    assert v.path == "/h/" + ['v'] && w.path == "/h/" + ['x'];
    assert c.repos[0] == v && c.repos[2] == w && ListedBefore(c.repos, v, w);
  }

  lemma DistinctThree(a: Repo, b: Repo, c: Repo)
    requires a.path != b.path && a.path != c.path && b.path != c.path
    ensures DistinctPaths([a, b, c])
  {
    assert [a, b, c][1..] == [b, c] && [b, c][1..] == [c] && [c][1..] == [];
    assert DistinctPaths([c]);
    assert DistinctPaths([b, c]);
  }

  lemma ClosedWithoutLending(c: Census)
    requires c.borrowers == map[] && c.lendersOk
    ensures Closed(c, {})
  {
    hide Owners;
    forall r | r in c.repos ensures !Forced(c, Owners(c.repos), {}, r) {}
  }

  lemma DepthTwo(name: char)
    requires name != '/'
    ensures Slashes("/h/" + [name]) == 2
  {
    SlashesAppend("/h/", [name]);
    SlashesAppend("/h", "/");
    SlashesAppend("/", "h");
    assert "/"[1..] == "" && "h"[1..] == "" && [name][1..] == "";
  }

  lemma StrandedHere(c: Census, plan: set<string>, a: Answers, v: Repo, q: Repo, w: Repo, s: State,
                     final: map<Copy, int>)
    requires v in c.repos && q in c.repos && w in c.repos && v.path !in plan && v != w && !Contains(w.path, q.path)
    requires CloneInWorktree(v, q) && OfStore(w, q) && Leads(c.repos, v, w) && ClonePromises(c, plan, a, s)
    requires forall r :: a.preserve(r) && !a.active(r) && a.recheck(r) == (r == w) && a.remove(r).Gone?
    requires Guarantees(c, s, a, final) && forall p :: !a.scopedCopy(p)
    ensures w.path in s.present && q.path !in s.present && Mine(w.path) !in final && Mine(q.path) !in final
  {
    hide CloneInWorktree, Leads, Contains, OfStore;
    assert OpposedBy(c, a, w, q);
    assert Threatened(c, plan, v, w, q);
  }

  /** With no clone or bare repository inside a worktree, every repository deleted still has its copy, and every
      worktree that stays keeps its clone. */
  lemma CleanLayout(c: Census, s: State, a: Answers, final: map<Copy, int>, q: Repo)
    requires Guarantees(c, s, a, final) && q in c.repos
    requires forall w :: w in c.repos ==> !CloneInWorktree(w, q)
    ensures q.path !in s.present ==> Mine(q.path) in final
    ensures q.path !in s.present ==> forall w :: w in c.repos && OfStore(w, q) ==> w.path !in s.present
  {
    hide CloneInWorktree, Leads;
  }

  /** A whole run that loses one: retiring this worktree takes the clone inside it along, the clone is then held because
      it is missing, and its copy is discarded. */
  method NestedCloneIsLost(now: int, retainDays: nat, scoped: Copy -> bool) returns (s: State, final: map<Copy, int>)
    ensures "/w/c" !in s.present && Mine("/w/c") !in final
  {
    var w, q := Repo("/w", Worktree, Some("s")), Repo("/w/c", Clone, Some("t"));
    var c := Census([w, q], map[], true);
    var a := Answers((r: Repo) => true, (r: Repo) => false, (r: Repo) => false, (r: Repo) => Gone,
                     (p: string) => false);
    NestedPlan(w, q, c);
    UnopposedHere(c, a);
    var plan;
    ghost var log;
    s, final, plan, log := RetireAll(c, map[], a, map[], now, retainDays, scoped);
    NothingKept(c, plan);
    ExposedHere(c, plan.Keys, a, w, q, s, final);
  }

  lemma NestedPlan(w: Repo, q: Repo, c: Census)
    requires w == Repo("/w", Worktree, Some("s")) && q == Repo("/w/c", Clone, Some("t"))
             && c == Census([w, q], map[], true)
    ensures DistinctPaths(c.repos) && Closed(c, {}) && CloneInWorktree(w, q)
  {
    assert c.repos[1..] == [q] && [q][1..] == [];
    assert "/w" + "/" <= "/w/c";
    ClosedWithoutLending(c);
  }

  lemma UnopposedHere(c: Census, a: Answers)
    requires forall r :: a.preserve(r) && !a.active(r) && !a.recheck(r) && a.remove(r).Gone?
    ensures Unopposed(c, a)
  {
  }

  lemma NothingKept(c: Census, plan: map<string, string>)
    requires Closed(c, {}) && IsClosure(c, map[], plan)
    ensures plan.Keys == {}
  {
    hide Closed;
    var nothing: map<string, string> := map[];
    assert nothing.Keys == {};
    ClosureIdempotent(c, nothing, plan);
  }

  lemma ExposedHere(c: Census, plan: set<string>, a: Answers, w: Repo, q: Repo, s: State, final: map<Copy, int>)
    requires Promises(c, plan, a, s, final) && Unopposed(c, a)
    requires w in c.repos && q in c.repos && w.path !in plan && CloneInWorktree(w, q) && !a.scopedCopy(q.path)
    ensures q.path !in s.present && Mine(q.path) !in final
  {
    hide CloneInWorktree, Unopposed;
    assert Exposed(c, plan, a.scopedCopy, w, q);
  }
}
