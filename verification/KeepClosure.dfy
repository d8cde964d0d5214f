/** Growing the keep set until no deletion would break a kept repository. */
module KeepClosure {
  import opened Wrappers

  datatype Kind = Worktree | Clone | Bare

  /** `store` is the object store a checkout belongs to, once it is known. */
  datatype Repo = Repo(path: string, kind: Kind, store: Option<string>)

  /** For each lending store, the stores that borrow from it. */
  type Borrowers = map<string, set<string>>

  predicate OwnsStore(r: Repo) { r.kind != Worktree && r.store.Some? }

  /** Which repository owns each store; the last one listed wins. */
  function Owners(repos: seq<Repo>): (owner: map<string, Repo>)
    ensures forall s :: s in owner ==> owner[s] in repos && OwnsStore(owner[s]) && owner[s].store == Some(s)
    ensures forall r :: r in repos && OwnsStore(r) ==> r.store.value in owner
  {
    if repos == [] then map[]
    else
      var last := repos[|repos| - 1];
      var before := Owners(repos[..|repos| - 1]);
      assert forall r :: r in repos ==> r in repos[..|repos| - 1] || r == last;
      if OwnsStore(last) then before[last.store.value := last] else before
  }

  predicate Contains(outer: string, inner: string) { outer + "/" <= inner }

  // ---------- The rules ----------

  /** What a run knows when it closes its keep set. */
  datatype Census = Census(repos: seq<Repo>, borrowers: Borrowers, lendersOk: bool)

  predicate HasKeptWorktree(repos: seq<Repo>, keep: set<string>, r: Repo) {
    exists w :: w in repos && w.kind == Worktree && w.store == r.store && w.path in keep
  }

  predicate LendsToKept(owner: map<string, Repo>, borrowers: Borrowers, keep: set<string>, r: Repo) {
    r.store.Some? && r.store.value in borrowers
    && exists b :: b in borrowers[r.store.value] && (b in owner ==> owner[b].path in keep)
  }

  predicate ContainsKept(repos: seq<Repo>, keep: set<string>, r: Repo) {
    exists q :: q in repos && q.path in keep && Contains(r.path, q.path)
  }

  /** Some rule keeps `r` once the paths in `keep` are kept. */
  predicate Forced(c: Census, owner: map<string, Repo>, keep: set<string>, r: Repo) {
    || (r.kind != Worktree
        && (!c.lendersOk || HasKeptWorktree(c.repos, keep, r) || LendsToKept(owner, c.borrowers, keep, r)))
    || ContainsKept(c.repos, keep, r)
  }

  ghost predicate ClosedUnder(c: Census, owner: map<string, Repo>, keep: set<string>) {
    forall r :: r in c.repos && Forced(c, owner, keep, r) ==> r.path in keep
  }

  ghost predicate Closed(c: Census, keep: set<string>) { ClosedUnder(c, Owners(c.repos), keep) }

  lemma ForcedMonotone(c: Census, owner: map<string, Repo>, keep: set<string>, more: set<string>, r: Repo)
    requires keep <= more && Forced(c, owner, keep, r)
    ensures Forced(c, owner, more, r)
  {
  }

  /** The reason that is recorded, none if no rule applies. */
  function Why(c: Census, owner: map<string, Repo>, keep: set<string>, r: Repo): (why: string)
    ensures why != "" <==> Forced(c, owner, keep, r)
  {
    if r.kind != Worktree && !c.lendersOk then "lender-unverified"
    else if r.kind != Worktree && HasKeptWorktree(c.repos, keep, r) then "has-kept-worktree"
    else if r.kind != Worktree && LendsToKept(owner, c.borrowers, keep, r) then "lends-objects-to-kept"
    else if ContainsKept(c.repos, keep, r) then "contains-kept"
    else ""
  }

  // ---------- The fixpoint ----------

  function Paths(repos: seq<Repo>): set<string> { set r | r in repos :: r.path }

  /** `keep` holds nothing that a closed superset of `start` could leave out. */
  ghost predicate Needed(c: Census, start: set<string>, keep: set<string>) {
    forall all :: start <= all && Closed(c, all) ==> keep <= all
  }

  /** `kept` extends `keep`, reasons included, by nothing that a closure could leave out. */
  ghost predicate Grown(c: Census, keep: map<string, string>, kept: map<string, string>) {
    && (forall p :: p in keep ==> p in kept && kept[p] == keep[p])
    && Needed(c, keep.Keys, kept.Keys) && kept.Keys <= keep.Keys + Paths(c.repos)
  }

  /** `kept` extends `keep` to the least closed superset of its paths. */
  ghost predicate IsClosure(c: Census, keep: map<string, string>, kept: map<string, string>) {
    Grown(c, keep, kept) && Closed(c, kept.Keys)
  }

  ghost function Left(c: Census, keep: map<string, string>): nat { |Paths(c.repos) - keep.Keys| }

  ghost predicate Settled(c: Census, keep: map<string, string>, n: nat)
    requires n <= |c.repos|
  {
    forall j :: 0 <= j < n && Forced(c, Owners(c.repos), keep.Keys, c.repos[j]) ==> c.repos[j].path in keep
  }

  method Close(c: Census, keep: map<string, string>) returns (kept: map<string, string>)
    ensures IsClosure(c, keep, kept)
  {
    hide *;
    StartGrown(c, keep);
    var owner := Owners(c.repos);
    kept := keep;
    var changed := true;
    while changed
      invariant Grown(c, keep, kept) && (!changed ==> Closed(c, kept.Keys))
      decreases Left(c, kept), changed
    {
      kept, changed := Sweep(c, owner, kept, keep);
    }
    AsClosure(c, keep, kept);
  }

  /** One look at every repository. */
  method Sweep(c: Census, owner: map<string, Repo>, before: map<string, string>, ghost start: map<string, string>)
    returns (kept: map<string, string>, changed: bool)
    requires owner == Owners(c.repos) && Grown(c, start, before)
    ensures Grown(c, start, kept)
    ensures if changed then Left(c, kept) < Left(c, before) else Closed(c, kept.Keys) && kept == before
  {
    hide *;
    kept, changed := before, false;
    NothingSettled(c, kept);
    for i := 0 to |c.repos|
      invariant Grown(c, start, kept)
      invariant if changed then Left(c, kept) < Left(c, before) else kept == before && Settled(c, kept, i)
    {
      var r := c.repos[i];
      var why := if r.path in kept then "" else Why(c, owner, kept.Keys, r);
      if why != "" {
        GrownBy(c, start, kept, r, why);
        kept := kept[r.path := why];
        changed := true;
      } else if !changed {
        SettledBy(c, kept, i);
      }
    }
    if !changed { AllSettled(c, kept); }
  }

  lemma StartGrown(c: Census, keep: map<string, string>)
    ensures Grown(c, keep, keep)
  {
  }

  lemma AsClosure(c: Census, keep: map<string, string>, kept: map<string, string>)
    requires Grown(c, keep, kept) && Closed(c, kept.Keys)
    ensures IsClosure(c, keep, kept)
  {
    hide Grown, Closed;
  }

  lemma NothingSettled(c: Census, keep: map<string, string>)
    ensures Settled(c, keep, 0)
  {
  }

  lemma SettledBy(c: Census, keep: map<string, string>, i: nat)
    requires i < |c.repos| && Settled(c, keep, i)
    requires c.repos[i].path in keep || Why(c, Owners(c.repos), keep.Keys, c.repos[i]) == ""
    ensures Settled(c, keep, i + 1)
  {
    hide Forced, Owners;
  }

  lemma AllSettled(c: Census, keep: map<string, string>)
    requires Settled(c, keep, |c.repos|)
    ensures Closed(c, keep.Keys)
  {
    hide Forced, Owners;
  }

  lemma GrownBy(c: Census, start: map<string, string>, keep: map<string, string>, r: Repo, why: string)
    requires Grown(c, start, keep) && r in c.repos && r.path !in keep && Forced(c, Owners(c.repos), keep.Keys, r)
    ensures Grown(c, start, keep[r.path := why]) && Left(c, keep[r.path := why]) < Left(c, keep)
  {
    hide Forced, Owners, Needed, Paths, Left;
    MoreKeys(keep, r.path, why);
    NeededGrows(c, start.Keys, keep.Keys, r);
    FewerLeft(c, keep.Keys, r);
    LeftAfter(c, keep, r, why);
    StillExtends(start, keep, r.path, why, start.Keys + Paths(c.repos));
  }

  lemma StillExtends(start: map<string, string>, keep: map<string, string>, path: string, why: string, all: set<string>)
    requires (forall p :: p in start ==> p in keep && keep[p] == start[p]) && path !in keep
    requires keep.Keys <= all && path in all
    ensures forall p :: p in start ==> p in keep[path := why] && keep[path := why][p] == start[p]
    ensures keep[path := why].Keys <= all
  {
  }

  lemma LeftAfter(c: Census, keep: map<string, string>, r: Repo, why: string)
    requires |Paths(c.repos) - (keep.Keys + {r.path})| < |Paths(c.repos) - keep.Keys|
    ensures Left(c, keep[r.path := why]) < Left(c, keep)
  {
    hide Paths;
    MoreKeys(keep, r.path, why);
  }

  lemma MoreKeys(keep: map<string, string>, path: string, why: string)
    ensures keep[path := why].Keys == keep.Keys + {path}
  {
  }

  lemma NeededGrows(c: Census, start: set<string>, keep: set<string>, r: Repo)
    requires Needed(c, start, keep) && r in c.repos && Forced(c, Owners(c.repos), keep, r)
    ensures Needed(c, start, keep + {r.path})
  {
    hide Forced, Owners;
    forall all | start <= all && Closed(c, all) ensures keep + {r.path} <= all {
      ForcedMonotone(c, Owners(c.repos), keep, all, r);
    }
  }

  lemma FewerLeft(c: Census, keep: set<string>, r: Repo)
    requires r in c.repos && r.path !in keep
    ensures |Paths(c.repos) - (keep + {r.path})| < |Paths(c.repos) - keep| && r.path in Paths(c.repos)
  {
    var less, more := Paths(c.repos) - (keep + {r.path}), Paths(c.repos) - keep;
    assert less == more - {r.path} && r.path in more;
  }

  /** Closing a closed set changes nothing. */
  lemma ClosureIdempotent(c: Census, keep: map<string, string>, kept: map<string, string>)
    requires Closed(c, keep.Keys) && IsClosure(c, keep, kept)
    ensures kept == keep
  {
    hide Closed;
    assert kept.Keys <= keep.Keys;
  }

  // ---------- The order of repositories ----------

  /** The same repositories in another order. */
  ghost predicate Reordered(c: Census, d: Census) {
    (forall r :: r in c.repos <==> r in d.repos) && c.borrowers == d.borrowers && c.lendersOk == d.lendersOk
  }

  /** Repositories that own one store stand or fall together: keeping either keeps the other even when nothing is
      lent. */
  ghost predicate Tied(repos: seq<Repo>) {
    forall r, q, keep ::
      (r in repos && q in repos && SameStore(r, q) && r.path in keep && Closed(Census(repos, map[], true), keep)) ==>
        q.path in keep
  }

  predicate SameStore(r: Repo, q: Repo) { OwnsStore(r) && OwnsStore(q) && r.store == q.store }

  /** In particular when each store has one owner. */
  lemma DistinctStoresTied(repos: seq<Repo>)
    requires forall r, q :: r in repos && q in repos && SameStore(r, q) ==> r == q
    ensures Tied(repos)
  {
    hide Closed;
  }

  lemma ForcedUnordered(c: Census, d: Census, owner: map<string, Repo>, keep: set<string>, r: Repo)
    requires (forall q :: q in c.repos <==> q in d.repos) && c.borrowers == d.borrowers && c.lendersOk == d.lendersOk
    ensures Forced(c, owner, keep, r) <==> Forced(d, owner, keep, r)
  {
    hide LendsToKept, Contains;
    if HasKeptWorktree(c.repos, keep, r) {
      var w :| w in c.repos && w.kind == Worktree && w.store == r.store && w.path in keep;
      assert w in d.repos;
    }
    if HasKeptWorktree(d.repos, keep, r) {
      var w :| w in d.repos && w.kind == Worktree && w.store == r.store && w.path in keep;
      assert w in c.repos;
    }
    if ContainsKept(c.repos, keep, r) {
      var q :| q in c.repos && q.path in keep && Contains(r.path, q.path);
      assert q in d.repos;
    }
    if ContainsKept(d.repos, keep, r) {
      var q :| q in d.repos && q.path in keep && Contains(r.path, q.path);
      assert q in c.repos;
    }
  }

  lemma LendsUnordered(c: Census, d: Census, keep: set<string>, r: Repo)
    requires Reordered(c, d) && Tied(c.repos) && Closed(Census(c.repos, map[], true), keep)
    requires LendsToKept(Owners(d.repos), c.borrowers, keep, r)
    ensures LendsToKept(Owners(c.repos), c.borrowers, keep, r)
  {
    hide Owners, Closed;
    var x, y := Owners(c.repos), Owners(d.repos);
    var b :| b in c.borrowers[r.store.value] && (b in y ==> y[b].path in keep);
    if b in x { assert y[b] in c.repos && SameStore(y[b], x[b]); }
  }

  /** A set closed in one order is closed in any other. */
  lemma ClosedUnordered(c: Census, d: Census, keep: set<string>)
    requires Reordered(c, d) && Tied(c.repos) && Closed(c, keep)
    ensures Closed(d, keep)
  {
    hide Owners, Tied, HasKeptWorktree, ContainsKept, LendsToKept;
    NothingLent(c, keep);
    forall r | r in d.repos && Forced(d, Owners(d.repos), keep, r) ensures r.path in keep {
      ForcedUnordered(c, d, Owners(d.repos), keep, r);
      if LendsToKept(Owners(d.repos), c.borrowers, keep, r) { LendsUnordered(c, d, keep, r); }
      assert Forced(c, Owners(c.repos), keep, r);
    }
  }

  lemma NothingLent(c: Census, keep: set<string>)
    requires Closed(c, keep)
    ensures Closed(Census(c.repos, map[], true), keep)
  {
    hide Owners, HasKeptWorktree, ContainsKept;
  }

  lemma TiedUnordered(a: seq<Repo>, b: seq<Repo>)
    requires Tied(a) && forall r :: r in a <==> r in b
    ensures Tied(b)
  {
    hide Closed;
    var c, d := Census(a, map[], true), Census(b, map[], true);
    forall keep | Closed(d, keep) ensures Closed(c, keep) {
      WithoutLending(d, c, keep);
    }
  }

  /** With nothing lent the order is of no account. */
  lemma WithoutLending(c: Census, d: Census, keep: set<string>)
    requires Reordered(c, d) && c.borrowers == map[] && Closed(c, keep)
    ensures Closed(d, keep)
  {
    hide Owners, HasKeptWorktree, ContainsKept;
    forall r | r in d.repos && Forced(d, Owners(d.repos), keep, r) ensures r.path in keep {
      ForcedUnordered(c, d, Owners(d.repos), keep, r);
      assert Forced(c, Owners(c.repos), keep, r);
    }
  }

  /** When the owners of a store are tied, the kept paths do not depend on the order of the repositories. */
  lemma ClosureUnordered(c: Census, d: Census, keep: map<string, string>, kept: map<string, string>,
                         kept': map<string, string>)
    requires Reordered(c, d) && Tied(c.repos) && IsClosure(c, keep, kept) && IsClosure(d, keep, kept')
    ensures kept.Keys == kept'.Keys
  {
    hide Closed, Tied;
    TiedUnordered(c.repos, d.repos);
    ClosedUnordered(c, d, kept.Keys);
    ClosedUnordered(d, c, kept'.Keys);
  }

  /** And only then: given otherwise two orders of the same repositories, the function keeps different ones. */
  lemma UntiedMakesOrderMatter(repos: seq<Repo>) returns (c: Census, d: Census, keep: map<string, string>)
    requires !Tied(repos)
    ensures multiset(c.repos) == multiset(d.repos) == multiset(repos) && c.borrowers == d.borrowers
            && c.lendersOk == d.lendersOk
    ensures forall kept, kept' :: IsClosure(c, keep, kept) && IsClosure(d, keep, kept') ==> kept.Keys != kept'.Keys
  {
    hide Closed, Owners, Last, IsClosure;
    var r, q, least :| r in repos && q in repos && SameStore(r, q) && r.path in least
      && Closed(Census(repos, map[], true), least) && q.path !in least;
    var store := r.store.value;
    keep := map[r.path := "active"];
    c := Census(Last(repos, r), map[store := {store}], true);
    d := Census(Last(repos, q), map[store := {store}], true);
    LastOwns(repos, r);
    LastOwns(repos, q);
    StillClosed(repos, d, least, store, q);
    forall kept, kept' | IsClosure(c, keep, kept) && IsClosure(d, keep, kept') ensures kept.Keys != kept'.Keys {
      ClosureParts(c, keep, kept, r.path);
      LentToItself(c, kept.Keys, r, q);
      ClosureWithin(d, keep, kept', least);
    }
  }

  lemma ClosureParts(c: Census, keep: map<string, string>, kept: map<string, string>, path: string)
    requires IsClosure(c, keep, kept) && path in keep
    ensures Closed(c, kept.Keys) && path in kept.Keys
  {
    hide Closed;
  }

  lemma ClosureWithin(c: Census, keep: map<string, string>, kept: map<string, string>, all: set<string>)
    requires IsClosure(c, keep, kept) && keep.Keys <= all && Closed(c, all)
    ensures kept.Keys <= all
  {
    hide Closed;
  }

  /** `repos` with one `r` moved to the end. */
  function Last(repos: seq<Repo>, r: Repo): (moved: seq<Repo>)
    requires r in repos
    ensures multiset(moved) == multiset(repos) && moved != [] && moved[|moved| - 1] == r
  {
    if repos[0] == r then
      assert repos == [r] + repos[1..];
      repos[1..] + [r]
    else
      assert repos == [repos[0]] + repos[1..];
      [repos[0]] + Last(repos[1..], r)
  }

  lemma LastOwns(repos: seq<Repo>, r: Repo)
    requires r in repos && OwnsStore(r)
    ensures r.store.value in Owners(Last(repos, r)) && Owners(Last(repos, r))[r.store.value] == r
    ensures forall q :: q in Last(repos, r) <==> q in repos
  {
    hide Last;
    forall q ensures q in Last(repos, r) <==> q in repos {
      assert q in Last(repos, r) <==> q in multiset(Last(repos, r));
      assert q in repos <==> q in multiset(repos);
    }
  }

  /** The owner last listed is not kept, so lending adds nothing. */
  lemma StillClosed(repos: seq<Repo>, d: Census, least: set<string>, lender: string, q: Repo)
    requires Closed(Census(repos, map[], true), least) && (forall r :: r in repos <==> r in d.repos) && d.lendersOk
    requires q.store.Some? && d.borrowers == map[lender := {q.store.value}] && q.path !in least
    requires q.store.value in Owners(d.repos) && Owners(d.repos)[q.store.value] == q
    ensures Closed(d, least)
  {
    hide Owners, HasKeptWorktree, ContainsKept;
    var bare := Census(repos, map[], true);
    forall r | r in d.repos && Forced(d, Owners(d.repos), least, r) ensures r.path in least {
      assert !LendsToKept(Owners(d.repos), d.borrowers, least, r);
      ForcedUnordered(bare, Census(d.repos, map[], true), Owners(d.repos), least, r);
      assert Forced(bare, Owners(bare.repos), least, r);
    }
  }

  lemma LentToItself(c: Census, kept: set<string>, r: Repo, q: Repo)
    requires Closed(c, kept) && SameStore(r, q) && q in c.repos && r.path in kept
    requires c.borrowers == map[r.store.value := {r.store.value}]
    requires r.store.value in Owners(c.repos) && Owners(c.repos)[r.store.value] == r
    ensures q.path in kept
  {
    hide Owners, HasKeptWorktree, ContainsKept;
    assert r.store.value in c.borrowers[q.store.value];
    assert LendsToKept(Owners(c.repos), c.borrowers, kept, q);
  }

  // ---------- The lenders of kept repositories ----------

  predicate Lends(c: Census, r: Repo, q: Repo) {
    OwnsStore(r) && OwnsStore(q) && r.store.value in c.borrowers && q.store.value in c.borrowers[r.store.value]
  }

  /** Whatever lends objects to a kept repository is kept. */
  ghost predicate LendersKept(c: Census, keep: set<string>) {
    forall q, r :: q in c.repos && r in c.repos && q.path in keep && Lends(c, r, q) ==> r.path in keep
  }

  /** No store is its own lender. */
  ghost predicate LentApart(borrowers: Borrowers) { forall t :: t in borrowers ==> t !in borrowers[t] }

  /** Even when nothing is lent, keeping a repository but not the one on record for its store keeps the owner of every
      other store. */
  ghost predicate OwnerFollows(repos: seq<Repo>) {
    forall q, r, keep :: !LeftOut(repos, q, r, keep)
  }

  /** `q` is kept in a set closed without any lending, but neither is the repository on record for its store nor `r`,
      the owner of another. */
  ghost predicate LeftOut(repos: seq<Repo>, q: Repo, r: Repo, keep: set<string>) {
    && q in repos && r in repos && OwnsStore(q) && OwnsStore(r) && q.store != r.store && q.path in keep
    && r.path !in keep
    && Closed(Census(repos, map[], true), keep) && Owners(repos)[q.store.value].path !in keep
  }

  /** For repositories in the order they are listed, whatever one store lends to another: a closed keep set always
      holds the lenders of what it keeps exactly when `OwnerFollows`. */
  lemma LendersKeptExactly(repos: seq<Repo>)
    ensures (forall borrowers: Borrowers, keep ::
               LentApart(borrowers) && Closed(Census(repos, borrowers, true), keep) ==>
                 LendersKept(Census(repos, borrowers, true), keep))
            <==> OwnerFollows(repos)
  {
    hide *;
    if OwnerFollows(repos) {
      forall borrowers: Borrowers, keep | LentApart(borrowers) && Closed(Census(repos, borrowers, true), keep)
        ensures LendersKept(Census(repos, borrowers, true), keep)
      {
        OwnersKeepLenders(repos, borrowers, keep);
      }
    } else {
      var borrowers, keep := OwnerLeftOut(repos);
    }
  }

  lemma OwnersKeepLenders(repos: seq<Repo>, borrowers: Borrowers, keep: set<string>)
    requires OwnerFollows(repos) && LentApart(borrowers) && Closed(Census(repos, borrowers, true), keep)
    ensures LendersKept(Census(repos, borrowers, true), keep)
  {
    hide Owners, HasKeptWorktree, ContainsKept;
    var c := Census(repos, borrowers, true);
    NothingLent(c, keep);
    forall q, r | q in repos && r in repos && q.path in keep && Lends(c, r, q) ensures r.path in keep {
      var b := q.store.value;
      assert !LeftOut(repos, q, r, keep);
      assert b in borrowers[r.store.value]
             && (Owners(repos)[b].path in keep ==> LendsToKept(Owners(repos), borrowers, keep, r));
      assert LendsToKept(Owners(repos), borrowers, keep, r) ==> Forced(c, Owners(repos), keep, r);
    }
  }

  lemma OwnerLeftOut(repos: seq<Repo>) returns (borrowers: Borrowers, keep: set<string>)
    requires !OwnerFollows(repos)
    ensures LentApart(borrowers)
    ensures var c := Census(repos, borrowers, true); Closed(c, keep) && !LendersKept(c, keep)
  {
    hide Owners, Closed;
    var q, r;
    q, r, keep :| LeftOut(repos, q, r, keep);
    borrowers := map[r.store.value := {q.store.value}];
    var c := Census(repos, borrowers, true);
    StillClosed(repos, c, keep, r.store.value, Owners(repos)[q.store.value]);
    assert q in c.repos && r in c.repos && Lends(c, r, q);
  }

  /** A plain case, in the order a census lists them: two clones share a store, only the first is kept, and the lender
      they borrow from is not. */
  lemma SharedStoreLosesLender(c: Census)
    requires var r1, r2 := Repo("/a", Clone, Some("s")), Repo("/b", Clone, Some("s"));
             c == Census([r1, r2, Repo("/l", Clone, Some("t"))], map["t" := {"s"}], true)
    ensures Closed(c, {"/a"}) && !LendersKept(c, {"/a"})
  {
    hide Closed;
    var r1, r2, lender := c.repos[0], c.repos[1], c.repos[2];
    OnlyTheActive(r1, r2, lender);
    assert r1 in c.repos && lender in c.repos && Lends(c, lender, r1);
  }

  /** Two clones that share a store make the order matter: whether their lender is kept depends on which is listed
      last. */
  lemma SharedStoreMakesOrderMatter(c: Census, d: Census, keep: map<string, string>, kept: map<string, string>,
                                    kept': map<string, string>)
    requires var r1, r2 := Repo("/a", Clone, Some("s")), Repo("/b", Clone, Some("s"));
             var lender := Repo("/l", Clone, Some("t"));
             && c == Census([r1, r2, lender], map["t" := {"s"}], true)
             && d == Census([r2, r1, lender], map["t" := {"s"}], true)
             && keep == map["/a" := "active"]
    requires IsClosure(c, keep, kept) && IsClosure(d, keep, kept')
    ensures "/l" !in kept && "/l" in kept'
  {
    hide Owners, Forced, Closed, Contains;
    var r1, r2 := Repo("/a", Clone, Some("s")), Repo("/b", Clone, Some("s"));
    var lender := Repo("/l", Clone, Some("t"));
    OnlyTheActive(r1, r2, lender);
    assert kept.Keys <= {"/a"};
    LenderKept(r1, r2, lender, kept');
  }

  lemma OnlyTheActive(r1: Repo, r2: Repo, lender: Repo)
    requires r1 == Repo("/a", Clone, Some("s")) && r2 == Repo("/b", Clone, Some("s"))
             && lender == Repo("/l", Clone, Some("t"))
    ensures Closed(Census([r1, r2, lender], map["t" := {"s"}], true), {"/a"})
  {
    hide Owners;
    var c := Census([r1, r2, lender], map["t" := {"s"}], true);
    OwnersOfThree(r1, r2, lender);
    forall r | r in c.repos && r.path != "/a" ensures !Forced(c, Owners(c.repos), {"/a"}, r) {
      assert !Contains(r.path, "/a") by { assert |r.path + "/"| == 3; }
    }
  }

  lemma LenderKept(r1: Repo, r2: Repo, lender: Repo, kept: map<string, string>)
    requires r1 == Repo("/a", Clone, Some("s")) && r2 == Repo("/b", Clone, Some("s"))
             && lender == Repo("/l", Clone, Some("t"))
    requires "/a" in kept && Closed(Census([r2, r1, lender], map["t" := {"s"}], true), kept.Keys)
    ensures "/l" in kept
  {
    hide Owners;
    var d := Census([r2, r1, lender], map["t" := {"s"}], true);
    OwnersOfThree(r2, r1, lender);
    assert "s" in d.borrowers["t"];
    assert LendsToKept(Owners(d.repos), d.borrowers, kept.Keys, lender);
    assert lender in d.repos && Forced(d, Owners(d.repos), kept.Keys, lender);
  }

  lemma OwnersOfThree(a: Repo, b: Repo, lender: Repo)
    requires a.kind == b.kind == lender.kind == Clone && a.store == b.store == Some("s") && lender.store == Some("t")
    ensures Owners([a, b, lender]) == map["s" := b, "t" := lender]
  {
    assert [a, b, lender][..2] == [a, b] && [a, b][..1] == [a] && [a][..0] == [];
    assert Owners([a]) == map["s" := a];
    assert Owners([a, b]) == map["s" := b];
  }
}
