/** From observations to the counts the fit works on, and when their order makes no difference. */
module AbilityObservations {
  import opened SortedStrings
  import opened AbilityMap

  datatype Observation = Observation(model: string, role: string, task: string, success: bool)

  /** What the fit is given: the sorted names and the counted triples. */
  datatype Counted = Counted(models: seq<string>, roles: seq<string>, tasks: seq<string>, triples: seq<Triple>)

  /** The key triples are counted and sorted under. */
  function TripleKey(o: Observation): string { o.model + "\0" + (o.role + "\0" + o.task) }

  // ---------- What is counted ----------

  ghost function Count(obs: seq<Observation>, p: Observation -> bool): nat {
    if obs == [] then 0 else Count(obs[..|obs| - 1], p) + if p(obs[|obs| - 1]) then 1 else 0
  }

  ghost function Under(key: string): Observation -> bool { (o: Observation) => TripleKey(o) == key }
  ghost function WonUnder(key: string): Observation -> bool { (o: Observation) => TripleKey(o) == key && o.success }

  ghost predicate Occurs(obs: seq<Observation>, key: string) { exists o :: o in obs && TripleKey(o) == key }

  /** The first observation under a key: its names are the ones the triple carries. */
  ghost predicate IsFirst(obs: seq<Observation>, key: string, i: nat) {
    i < |obs| && TripleKey(obs[i]) == key && forall j :: 0 <= j < i ==> TripleKey(obs[j]) != key
  }

  function IndexOf(keys: seq<string>, key: string): (i: nat)
    requires key in keys
    ensures i < |keys| && keys[i] == key
  {
    if keys[0] == key then 0 else 1 + IndexOf(keys[1..], key)
  }

  ghost predicate IsTriple(triple: Triple, c: Counted, obs: seq<Observation>, key: string) {
    && triple.attempts == Count(obs, Under(key)) && triple.successes == Count(obs, WonUnder(key))
    && exists i: nat :: IsFirst(obs, key, i) && Names(triple, c, obs[i])
  }

  ghost predicate Names(triple: Triple, c: Counted, o: Observation) {
    && o.model in c.models && o.role in c.roles && o.task in c.tasks
    && triple.model == IndexOf(c.models, o.model) && triple.role == |c.models| + IndexOf(c.roles, o.role)
    && triple.task == IndexOf(c.tasks, o.task)
  }

  ghost predicate NamesSorted(c: Counted, obs: seq<Observation>) {
    && SortedKeys(c.models, set o | o in obs :: o.model) && SortedKeys(c.roles, set o | o in obs :: o.role)
    && SortedKeys(c.tasks, set o | o in obs :: o.task)
  }

  /** The counts of some observations, by definition; `keys` are the keys of the triples in order. */
  ghost predicate IsCount(c: Counted, keys: seq<string>, obs: seq<Observation>) {
    && NamesSorted(c, obs) && SortedKeys(keys, set o | o in obs :: TripleKey(o)) && |c.triples| == |keys|
    && forall i :: 0 <= i < |keys| ==> IsTriple(c.triples[i], c, obs, keys[i])
  }

  // ---------- Counting ----------

  /** The triples met so far, under their keys. */
  ghost predicate Collected(found: map<string, Triple>, c: Counted, obs: seq<Observation>) {
    forall key :: (key in found <==> Occurs(obs, key)) && (key in found ==> IsTriple(found[key], c, obs, key))
  }

  method CountAll(obs: seq<Observation>) returns (c: Counted, keys: seq<string>)
    ensures IsCount(c, keys, obs)
  {
    hide *;
    var models := Sorted(Values(obs, (o: Observation) => o.model));
    var roles := Sorted(Values(obs, (o: Observation) => o.role));
    var tasks := Sorted(Values(obs, (o: Observation) => o.task));
    c := Counted(models, roles, tasks, []);
    NamesAre(c, obs);
    var found := Collect(c, obs);
    keys := Sorted(Values(obs, TripleKey));
    KeysAre(keys, obs, found, c);
    c := c.(triples := seq(|keys|, i requires 0 <= i < |keys| => found[keys[i]]));
    AsCount(c, keys, obs, found);
  }

  method Collect(c: Counted, obs: seq<Observation>) returns (found: map<string, Triple>)
    requires NamesSorted(c, obs)
    ensures Collected(found, c, obs)
  {
    hide *;
    found := map[];
    NothingCollected(c);
    for n := 0 to |obs|
      invariant Collected(found, c, obs[..n])
    {
      var o := obs[n];
      Prefix(obs, n);
      NamedHere(c, obs, n);
      KnownIfFound(found, c, obs[..n], TripleKey(o));
      var before := if TripleKey(o) in found then found[TripleKey(o)]
                    else Triple(IndexOf(c.models, o.model), |c.models| + IndexOf(c.roles, o.role),
                                IndexOf(c.tasks, o.task), 0, 0);
      var after := before.(attempts := before.attempts + 1, successes := before.successes + if o.success then 1 else 0);
      OneMore(found, c, obs[..n], o, after);
      found := found[TripleKey(o) := after];
    }
    assert obs[..|obs|] == obs;
  }

  lemma Prefix(obs: seq<Observation>, n: nat)
    requires n < |obs|
    ensures obs[..n + 1] == obs[..n] + [obs[n]]
  {
  }

  lemma NamesAre(c: Counted, obs: seq<Observation>)
    requires SortedKeys(c.models, Members(Values(obs, (o: Observation) => o.model)))
    requires SortedKeys(c.roles, Members(Values(obs, (o: Observation) => o.role)))
    requires SortedKeys(c.tasks, Members(Values(obs, (o: Observation) => o.task)))
    ensures NamesSorted(c, obs)
  {
    hide InOrder;
    ValuesAre(obs, (o: Observation) => o.model);
    ValuesAre(obs, (o: Observation) => o.role);
    ValuesAre(obs, (o: Observation) => o.task);
  }

  function Values(obs: seq<Observation>, f: Observation -> string): (values: seq<string>)
    ensures |values| == |obs| && forall i :: 0 <= i < |obs| ==> values[i] == f(obs[i])
  {
    seq(|obs|, i requires 0 <= i < |obs| => f(obs[i]))
  }

  lemma ValuesAre(obs: seq<Observation>, f: Observation -> string)
    ensures forall v :: v in Values(obs, f) <==> v in set o | o in obs :: f(o)
  {
    hide Values;
    var values := Values(obs, f);
    forall v ensures v in values <==> v in set o | o in obs :: f(o) {
      if v in values {
        var i :| 0 <= i < |values| && values[i] == v;
        assert obs[i] in obs && f(obs[i]) == v;
      }
      if o :| o in obs && f(o) == v {
        var i :| 0 <= i < |obs| && obs[i] == o;
        assert values[i] == v;
      }
    }
  }

  lemma NothingCollected(c: Counted)
    ensures Collected(map[], c, [])
  {
  }

  lemma NamedHere(c: Counted, obs: seq<Observation>, n: nat)
    requires NamesSorted(c, obs) && n < |obs|
    ensures obs[n].model in c.models && obs[n].role in c.roles && obs[n].task in c.tasks
  {
    hide InOrder;
    assert obs[n] in obs;
  }

  lemma KnownIfFound(found: map<string, Triple>, c: Counted, obs: seq<Observation>, key: string)
    requires Collected(found, c, obs)
    ensures key in found <==> Occurs(obs, key)
    ensures key in found ==> IsTriple(found[key], c, obs, key)
  {
    hide IsTriple, Occurs;
  }

  /** One more observation touches the triple of its key alone. */
  lemma OneMore(found: map<string, Triple>, c: Counted, obs: seq<Observation>, o: Observation, after: Triple)
    requires Collected(found, c, obs) && o.model in c.models && o.role in c.roles && o.task in c.tasks
    requires var before := if TripleKey(o) in found then found[TripleKey(o)]
                           else Triple(IndexOf(c.models, o.model), |c.models| + IndexOf(c.roles, o.role),
                                       IndexOf(c.tasks, o.task), 0, 0);
             after == before.(attempts := before.attempts + 1,
                              successes := before.successes + if o.success then 1 else 0)
    ensures Collected(found[TripleKey(o) := after], c, obs + [o])
  {
    hide IsTriple, Occurs, TripleKey, IndexOf;
    var found' := found[TripleKey(o) := after];
    forall key ensures key in found' <==> Occurs(obs + [o], key) { OccursMore(obs, o, key); }
    forall key | key in found' ensures IsTriple(found'[key], c, obs + [o], key) {
      OccursMore(obs, o, key);
      if key != TripleKey(o) {
        OtherTriple(found[key], c, obs, o, key);
      } else if key in found {
        SameTriple(found[key], after, c, obs, o, key);
      } else {
        NewTriple(after, c, obs, o, key);
      }
    }
  }

  lemma OccursMore(obs: seq<Observation>, o: Observation, key: string)
    ensures Occurs(obs + [o], key) <==> Occurs(obs, key) || TripleKey(o) == key
  {
    hide TripleKey;
    if Occurs(obs, key) {
      var p :| p in obs && TripleKey(p) == key;
      assert p in obs + [o];
    }
    assert o in obs + [o];
  }

  lemma CountMore(obs: seq<Observation>, o: Observation, p: Observation -> bool)
    ensures Count(obs + [o], p) == Count(obs, p) + if p(o) then 1 else 0
  {
    assert (obs + [o])[..|obs|] == obs;
  }

  lemma FirstStays(obs: seq<Observation>, o: Observation, key: string, i: nat)
    requires IsFirst(obs, key, i)
    ensures IsFirst(obs + [o], key, i) && (obs + [o])[i] == obs[i]
  {
    hide TripleKey;
  }

  lemma OtherTriple(triple: Triple, c: Counted, obs: seq<Observation>, o: Observation, key: string)
    requires IsTriple(triple, c, obs, key) && TripleKey(o) != key
    ensures IsTriple(triple, c, obs + [o], key)
  {
    hide TripleKey, Names, Count;
    CountMore(obs, o, Under(key));
    CountMore(obs, o, WonUnder(key));
    var i: nat :| IsFirst(obs, key, i) && Names(triple, c, obs[i]);
    FirstStays(obs, o, key, i);
  }

  lemma SameTriple(triple: Triple, after: Triple, c: Counted, obs: seq<Observation>, o: Observation, key: string)
    requires IsTriple(triple, c, obs, key) && TripleKey(o) == key
    requires after ==
               triple.(attempts := triple.attempts + 1, successes := triple.successes + if o.success then 1 else 0)
    ensures IsTriple(after, c, obs + [o], key)
  {
    hide TripleKey, Count, IndexOf;
    CountMore(obs, o, Under(key));
    CountMore(obs, o, WonUnder(key));
    var i: nat :| IsFirst(obs, key, i) && Names(triple, c, obs[i]);
    FirstStays(obs, o, key, i);
    assert Names(after, c, (obs + [o])[i]);
  }

  lemma NewTriple(after: Triple, c: Counted, obs: seq<Observation>, o: Observation, key: string)
    requires !Occurs(obs, key) && TripleKey(o) == key && o.model in c.models && o.role in c.roles && o.task in c.tasks
    requires after ==
               Triple(IndexOf(c.models, o.model), |c.models| + IndexOf(c.roles, o.role), IndexOf(c.tasks, o.task), 1,
                      if o.success then 1 else 0)
    ensures IsTriple(after, c, obs + [o], key)
  {
    hide TripleKey, Count, IndexOf;
    CountMore(obs, o, Under(key));
    CountMore(obs, o, WonUnder(key));
    NoneCounted(obs, key);
    forall j | 0 <= j < |obs| ensures TripleKey(obs[j]) != key { assert obs[j] in obs; }
    assert IsFirst(obs + [o], key, |obs|) && Names(after, c, (obs + [o])[|obs|]);
  }

  lemma {:induction false} NoneCounted(obs: seq<Observation>, key: string)
    requires !Occurs(obs, key)
    ensures Count(obs, Under(key)) == 0 == Count(obs, WonUnder(key))
  {
    hide TripleKey;
    if obs != [] {
      var before := obs[..|obs| - 1];
      assert obs[|obs| - 1] in obs && forall o :: o in before ==> o in obs;
      NoneCounted(before, key);
    }
  }

  lemma KeysAre(keys: seq<string>, obs: seq<Observation>, found: map<string, Triple>, c: Counted)
    requires SortedKeys(keys, Members(Values(obs, TripleKey)))
    requires Collected(found, c, obs)
    ensures SortedKeys(keys, set o | o in obs :: TripleKey(o))
    ensures forall k :: k in keys ==> k in found
  {
    hide InOrder, TripleKey, IsTriple;
    ValuesAre(obs, TripleKey);
  }

  lemma AsCount(c: Counted, keys: seq<string>, obs: seq<Observation>, found: map<string, Triple>)
    requires NamesSorted(c.(triples := []), obs) && SortedKeys(keys, set o | o in obs :: TripleKey(o))
    requires Collected(found, c.(triples := []), obs) && |c.triples| == |keys|
    requires forall i :: 0 <= i < |keys| ==> keys[i] in found && c.triples[i] == found[keys[i]]
    ensures IsCount(c, keys, obs)
  {
    hide SortedKeys, TripleKey, Count, IndexOf, Occurs;
    forall i | 0 <= i < |keys| ensures IsTriple(c.triples[i], c, obs, keys[i]) {
      SameNames(c, obs, c.triples[i], keys[i]);
    }
  }

  lemma SameNames(c: Counted, obs: seq<Observation>, triple: Triple, key: string)
    requires IsTriple(triple, c.(triples := []), obs, key)
    ensures IsTriple(triple, c, obs, key)
  {
    hide TripleKey, Count, IndexOf;
    var i: nat :| IsFirst(obs, key, i) && Names(triple, c.(triples := []), obs[i]);
    assert Names(triple, c, obs[i]);
  }

  /** The counts fit the fit: indices in range, and never more successes than attempts. */
  lemma CountFits(c: Counted, keys: seq<string>, obs: seq<Observation>)
    requires IsCount(c, keys, obs)
    ensures Fits(c.triples, |c.models| + |c.roles|, |c.tasks|)
    ensures forall i :: 0 <= i < |c.triples| ==> c.triples[i].successes <= c.triples[i].attempts
  {
    hide SortedKeys, TripleKey, Count, NamesSorted, Under, WonUnder;
    forall i | 0 <= i < |c.triples|
      ensures c.triples[i].model < |c.models| + |c.roles| && c.triples[i].role < |c.models| + |c.roles|
      ensures c.triples[i].task < |c.tasks| && c.triples[i].successes <= c.triples[i].attempts
    {
      assert IsTriple(c.triples[i], c, obs, keys[i]);
      FewerWon(obs, keys[i]);
    }
  }

  lemma {:induction false} FewerWon(obs: seq<Observation>, key: string)
    ensures Count(obs, WonUnder(key)) <= Count(obs, Under(key))
  {
    if obs != [] { FewerWon(obs[..|obs| - 1], key); }
  }

  // ---------- The order of the observations ----------

  /** No two triples of names share a key. */
  ghost predicate KeysTellApart(obs: seq<Observation>) {
    forall o, p :: o in obs && p in obs && TripleKey(o) == TripleKey(p) ==> SameTripleOf(o, p)
  }

  predicate SameTripleOf(o: Observation, p: Observation) { o.model == p.model && o.role == p.role && o.task == p.task }

  /** They do when no model and no role has a NUL in its name. */
  lemma PlainNamesTellApart(obs: seq<Observation>)
    requires forall o :: o in obs ==> '\0' !in o.model && '\0' !in o.role
    ensures KeysTellApart(obs)
  {
    forall o, p | o in obs && p in obs && TripleKey(o) == TripleKey(p) ensures SameTripleOf(o, p) {
      SplitOnce(o.model, o.role + "\0" + o.task, p.model, p.role + "\0" + p.task);
      SplitOnce(o.role, o.task, p.role, p.task);
    }
  }

  /** With a NUL they may not. */
  lemma NulSharesKey(o: Observation, p: Observation)
    requires o == Observation("a\0b", "c", "t", true) && p == Observation("a", "b\0c", "t", true)
    ensures !KeysTellApart([o, p])
  {
    assert TripleKey(o) == "a\0b\0c\0t" == TripleKey(p);
    assert o in [o, p] && p in [o, p] && |o.model| == 3 && |p.model| == 1;
  }

  lemma {:induction false} CountAt(obs: seq<Observation>, i: nat, p: Observation -> bool)
    requires i < |obs|
    ensures Count(obs, p) == Count(obs[..i] + obs[i + 1..], p) + if p(obs[i]) then 1 else 0
  {
    var last, init := obs[|obs| - 1], obs[..|obs| - 1];
    if i == |obs| - 1 {
      assert obs[..i] + obs[i + 1..] == init;
    } else {
      CountAt(init, i, p);
      assert obs[..i] + obs[i + 1..] == (init[..i] + init[i + 1..]) + [last];
      CountMore(init[..i] + init[i + 1..], last, p);
    }
  }

  lemma {:induction false} CountUnordered(a: seq<Observation>, b: seq<Observation>, p: Observation -> bool)
    requires multiset(a) == multiset(b)
    ensures Count(a, p) == Count(b, p)
    decreases |a|
  {
    hide Count;
    if a == [] {
      assert |multiset(b)| == |b| == 0;
      assert b == a;
    } else {
      var last := |a| - 1;
      SameMembers(a, b);
      assert a[last] in b;
      var i :| 0 <= i < |b| && b[i] == a[last];
      Removed(a, last);
      Removed(b, i);
      CountUnordered(a[..last] + a[last + 1..], b[..i] + b[i + 1..], p);
      CountAt(a, last, p);
      CountAt(b, i, p);
    }
  }

  lemma Removed(obs: seq<Observation>, i: nat)
    requires i < |obs|
    ensures multiset(obs[..i] + obs[i + 1..]) == multiset(obs) - multiset{obs[i]}
  {
    assert obs == obs[..i] + [obs[i]] + obs[i + 1..];
  }

  lemma SameMembers(a: seq<Observation>, b: seq<Observation>)
    requires multiset(a) == multiset(b)
    ensures forall o :: o in a <==> o in b
  {
    forall o ensures o in a <==> o in b { assert (o in a <==> o in multiset(a)) && (o in b <==> o in multiset(b)); }
  }

  lemma SameSorted(a: seq<string>, b: seq<string>, all: set<string>, all': set<string>)
    requires SortedKeys(a, all) && SortedKeys(b, all') && all == all'
    ensures a == b
  {
    hide InOrder;
    SortedKeysUnique(a, b);
  }

  /** The same observations in any order have the same names and the same keys. */
  lemma NamesUnordered(c: Counted, keys: seq<string>, obs: seq<Observation>, c': Counted, keys': seq<string>,
                       obs': seq<Observation>)
    requires IsCount(c, keys, obs) && IsCount(c', keys', obs') && multiset(obs) == multiset(obs')
    ensures c.models == c'.models && c.roles == c'.roles && c.tasks == c'.tasks && keys == keys'
  {
    hide SortedKeys, IsTriple, TripleKey;
    SameMembers(obs, obs');
    SameSorted(c.models, c'.models, set o | o in obs :: o.model, set o | o in obs' :: o.model);
    SameSorted(c.roles, c'.roles, set o | o in obs :: o.role, set o | o in obs' :: o.role);
    SameSorted(c.tasks, c'.tasks, set o | o in obs :: o.task, set o | o in obs' :: o.task);
    SameSorted(keys, keys', set o | o in obs :: TripleKey(o), set o | o in obs' :: TripleKey(o));
  }

  /** When keys tell the triples apart, the order of the observations makes no difference to what is fitted. */
  lemma OrderMakesNoDifference(c: Counted, keys: seq<string>, obs: seq<Observation>, c': Counted, keys': seq<string>,
                               obs': seq<Observation>)
    requires IsCount(c, keys, obs) && IsCount(c', keys', obs') && multiset(obs) == multiset(obs') && KeysTellApart(obs)
    ensures c == c'
  {
    hide NamesSorted, SortedKeys, IsTriple, KeysTellApart;
    NamesUnordered(c, keys, obs, c', keys', obs');
    forall i | 0 <= i < |keys| ensures c.triples[i] == c'.triples[i] {
      TripleUnordered(c.triples[i], c, obs, c'.triples[i], c', obs', keys[i]);
    }
  }

  lemma TripleUnordered(triple: Triple, c: Counted, obs: seq<Observation>, triple': Triple, c': Counted,
                        obs': seq<Observation>, key: string)
    requires IsTriple(triple, c, obs, key) && IsTriple(triple', c', obs', key) && multiset(obs) == multiset(obs')
    requires KeysTellApart(obs) && c.models == c'.models && c.roles == c'.roles && c.tasks == c'.tasks
    ensures triple == triple'
  {
    hide TripleKey, Count, IndexOf, Under, WonUnder;
    CountUnordered(obs, obs', Under(key));
    CountUnordered(obs, obs', WonUnder(key));
    SameMembers(obs, obs');
    var i: nat :| IsFirst(obs, key, i) && Names(triple, c, obs[i]);
    var j: nat :| IsFirst(obs', key, j) && Names(triple', c', obs'[j]);
    assert obs[i] in obs && obs'[j] in obs && SameTripleOf(obs[i], obs'[j]);
  }

  /** And only then: two triples of names under one key are told apart by which comes first. */
  lemma SharedKeyMakesOrderMatter(obs: seq<Observation>) returns (x: seq<Observation>, y: seq<Observation>)
    requires !KeysTellApart(obs)
    ensures multiset(x) == multiset(y) == multiset(obs)
    ensures forall c, keys, c', keys' :: IsCount(c, keys, x) && IsCount(c', keys', y) ==> c != c'
  {
    hide TripleKey, IsCount, SameTripleOf;
    var o, p :| o in obs && p in obs && TripleKey(o) == TripleKey(p) && !SameTripleOf(o, p);
    x, y := First(obs, o), First(obs, p);
    forall c, keys, c', keys' | IsCount(c, keys, x) && IsCount(c', keys', y) ensures c != c' {
      FirstDecides(c, keys, x, c', keys', y, o, p);
    }
  }

  /** `obs` with one `o` moved to the front. */
  function First(obs: seq<Observation>, o: Observation): (moved: seq<Observation>)
    requires o in obs
    ensures multiset(moved) == multiset(obs) && moved != [] && moved[0] == o
  {
    if obs[|obs| - 1] == o then
      assert obs == obs[..|obs| - 1] + [o];
      [o] + obs[..|obs| - 1]
    else
      assert obs == obs[..|obs| - 1] + [obs[|obs| - 1]];
      First(obs[..|obs| - 1], o) + [obs[|obs| - 1]]
  }

  lemma FirstDecides(c: Counted, keys: seq<string>, x: seq<Observation>, c': Counted, keys': seq<string>,
                     y: seq<Observation>, o: Observation, p: Observation)
    requires IsCount(c, keys, x) && IsCount(c', keys', y) && multiset(x) == multiset(y)
    requires x != [] && y != [] && x[0] == o && y[0] == p && TripleKey(o) == TripleKey(p) && !SameTripleOf(o, p)
    ensures c != c'
  {
    hide TripleKey, NamesSorted, IsTriple, InOrder;
    NamesUnordered(c, keys, x, c', keys', y);
    var key := TripleKey(o);
    assert o in x && key in keys;
    var i :| 0 <= i < |keys| && keys[i] == key;
    NamedByFirst(c.triples[i], c, x, key);
    NamedByFirst(c'.triples[i], c', y, key);
    if c.triples[i] == c'.triples[i] { SameIndices(c.triples[i], c, c', o, p); }
  }

  lemma NamedByFirst(triple: Triple, c: Counted, obs: seq<Observation>, key: string)
    requires IsTriple(triple, c, obs, key) && obs != [] && TripleKey(obs[0]) == key
    ensures Names(triple, c, obs[0])
  {
    hide TripleKey, Names, Count;
    var i: nat :| IsFirst(obs, key, i) && Names(triple, c, obs[i]);
  }

  lemma SameIndices(triple: Triple, c: Counted, c': Counted, o: Observation, p: Observation)
    requires Names(triple, c, o) && Names(triple, c', p)
    requires c.models == c'.models && c.roles == c'.roles && c.tasks == c'.tasks
    ensures SameTripleOf(o, p)
  {
  }
}
