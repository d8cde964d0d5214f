/** Strings in code-unit order, lists of keys kept in that order, and keys joined from names. */
module SortedStrings {
  predicate StringLe(a: string, b: string) {
    a == "" || (b != "" && (a[0] < b[0] || (a[0] == b[0] && StringLe(a[1..], b[1..]))))
  }

  lemma {:induction false} StringLeAntisymmetric(a: string, b: string)
    requires StringLe(a, b) && StringLe(b, a)
    ensures a == b
  {
    if a != "" && b != "" {
      StringLeAntisymmetric(a[1..], b[1..]);
      assert a == [a[0]] + a[1..] && b == [b[0]] + b[1..];
    }
  }

  lemma {:induction false} StringLeTotal(a: string, b: string)
    ensures StringLe(a, b) || StringLe(b, a)
  {
    if a != "" && b != "" { StringLeTotal(a[1..], b[1..]); }
  }

  lemma {:induction false} StringLeTransitive(a: string, b: string, c: string)
    requires StringLe(a, b) && StringLe(b, c)
    ensures StringLe(a, c)
  {
    if a != "" && b != "" && c != "" && a[0] == b[0] == c[0] { StringLeTransitive(a[1..], b[1..], c[1..]); }
  }

  predicate InOrder(keys: seq<string>) {
    forall i, j :: 0 <= i < j < |keys| ==> keys[i] != keys[j] && StringLe(keys[i], keys[j])
  }

  /** The keys of a set in order, each once. */
  ghost predicate SortedKeys(keys: seq<string>, all: set<string>) {
    InOrder(keys) && forall k :: k in keys <==> k in all
  }

  /** A set of keys has one such list. */
  lemma {:induction false} SortedKeysUnique(a: seq<string>, b: seq<string>)
    requires InOrder(a) && InOrder(b) && forall k :: k in a <==> k in b
    ensures a == b
  {
    hide StringLe;
    assert a != [] ==> a[0] in a;
    assert b != [] ==> b[0] in b;
    if a != [] {
      FirstKeys(a, b);
      forall k ensures k in a[1..] <==> k in b[1..] {
        if k in a[1..] { NotFirst(a, k); assert k in a; }
        if k in b[1..] { NotFirst(b, k); assert k in b; }
      }
      TailInOrder(a);
      TailInOrder(b);
      SortedKeysUnique(a[1..], b[1..]);
      assert a == [a[0]] + a[1..] && b == [b[0]] + b[1..];
    }
  }

  lemma TailInOrder(a: seq<string>)
    requires InOrder(a) && a != []
    ensures InOrder(a[1..])
  {
    hide StringLe;
    var t := a[1..];
    forall i, j | 0 <= i < j < |t| ensures t[i] != t[j] && StringLe(t[i], t[j]) {
      assert t[i] == a[i + 1] && t[j] == a[j + 1];
    }
  }

  lemma NotFirst(a: seq<string>, k: string)
    requires InOrder(a) && a != [] && k in a[1..]
    ensures k != a[0]
  {
    hide StringLe;
    var i :| 0 <= i < |a[1..]| && a[1..][i] == k;
    assert a[i + 1] == k;
  }

  lemma FirstKeys(a: seq<string>, b: seq<string>)
    requires InOrder(a) && InOrder(b) && a != [] && b != [] && a[0] in b && b[0] in a
    ensures a[0] == b[0]
  {
    hide StringLe;
    var i :| 0 <= i < |b| && b[i] == a[0];
    var j :| 0 <= j < |a| && a[j] == b[0];
    if i > 0 && j > 0 { StringLeAntisymmetric(a[0], b[0]); }
  }

  function InsertKey(k: string, keys: seq<string>): seq<string> {
    if keys == [] || StringLe(k, keys[0]) then [k] + keys else [keys[0]] + InsertKey(k, keys[1..])
  }

  lemma {:induction false} InsertInOrder(k: string, keys: seq<string>)
    requires InOrder(keys) && k !in keys
    ensures InOrder(InsertKey(k, keys)) && forall x :: x in InsertKey(k, keys) <==> x == k || x in keys
  {
    hide StringLe;
    if keys == [] {
    } else if StringLe(k, keys[0]) {
      ConsInOrder(k, keys);
    } else {
      TailInOrder(keys);
      InsertInOrder(k, keys[1..]);
      StringLeTotal(k, keys[0]);
      var r := InsertKey(k, keys[1..]);
      forall x | x in r ensures x != keys[0] && StringLe(keys[0], x) {
        if x != k {
          NotFirst(keys, x);
          var i :| 0 <= i < |keys[1..]| && keys[1..][i] == x;
          assert keys[i + 1] == x;
        }
      }
      HeadInOrder(keys[0], r);
      assert InsertKey(k, keys) == [keys[0]] + r;
    }
  }

  lemma HeadInOrder(k: string, keys: seq<string>)
    requires InOrder(keys) && forall x :: x in keys ==> x != k && StringLe(k, x)
    ensures InOrder([k] + keys)
  {
    hide StringLe;
    var r := [k] + keys;
    forall i, j | 0 <= i < j < |r| ensures r[i] != r[j] && StringLe(r[i], r[j]) {
      assert r[j] == keys[j - 1] && r[j] in keys;
      if i > 0 { assert r[i] == keys[i - 1]; }
    }
  }

  lemma ConsInOrder(k: string, keys: seq<string>)
    requires InOrder(keys) && k !in keys && keys != [] && StringLe(k, keys[0])
    ensures InOrder([k] + keys)
  {
    hide StringLe;
    forall x | x in keys ensures x != k && StringLe(k, x) {
      var i :| 0 <= i < |keys| && keys[i] == x;
      if i > 0 { StringLeTransitive(k, keys[0], x); }
    }
    HeadInOrder(k, keys);
  }

  ghost function Members(values: seq<string>): (all: set<string>)
    ensures forall v :: v in all <==> v in values
  {
    set v | v in values
  }

  /** A list of keys built by insertion. */
  method Sorted(values: seq<string>) returns (keys: seq<string>)
    ensures SortedKeys(keys, Members(values))
  {
    hide InOrder, InsertKey;
    keys := [];
    NothingInOrder();
    for i := 0 to |values|
      invariant InOrder(keys) && forall k :: k in keys <==> k in values[..i]
    {
      assert values[..i + 1] == values[..i] + [values[i]];
      if values[i] !in keys {
        InsertInOrder(values[i], keys);
        keys := InsertKey(values[i], keys);
      }
    }
    assert values[..|values|] == values;
  }

  lemma NothingInOrder()
    ensures InOrder([])
  {
  }

  // ---------- Joining with NUL ----------

  lemma SplitOnce(a: string, b: string, c: string, d: string)
    requires '\0' !in a && '\0' !in c && a + "\0" + b == c + "\0" + d
    ensures a == c && b == d
  {
    var x, y := a + "\0" + b, c + "\0" + d;
    assert x[|a|] == '\0' && y[|c|] == '\0';
    assert |a| == |c|;
    assert a == x[..|a|] && c == y[..|c|] && b == x[|a| + 1..] && d == y[|c| + 1..];
  }
}
