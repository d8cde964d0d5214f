/** The bounded checkpoint of directory observations: prefix-coded, least recently used first, exactly sized. */
module DirectoryProgress {
  import opened Wrappers

  const MAX_PROGRESS_BYTES: nat := 16 * 1024 * 1024
  const MAX_EXPANDED: nat := 4 * MAX_PROGRESS_BYTES

  /** A directory observed whole: its identity and the names in it that are directories or links. */
  datatype Entry = Entry(path: string, identity: seq<int>, names: seq<string>)

  /** An entry as written: how much of the path before it is shared, then the rest of its own. */
  datatype Packed = Packed(prefix: int, suffix: string, identity: seq<int>, names: seq<string>)

  /** The canonical text of the scalars, the scope and the authentication code. */
  datatype Encoding = Encoding(number: int -> string, text: string -> string, scope: string, mac: string -> string) {
    ghost predicate Ok() { forall s :: |mac(s)| == 64 }
  }

  // ---------- Prefix coding ----------

  function CommonPrefix(a: string, b: string): (n: nat)
    ensures n <= |a| && n <= |b| && a[..n] == b[..n]
    ensures n < |a| && n < |b| ==> a[n] != b[n]
  {
    if a == "" || b == "" || a[0] != b[0] then 0 else 1 + CommonPrefix(a[1..], b[1..])
  }

  function PackRecord(previous: string, e: Entry): Packed {
    var prefix := CommonPrefix(previous, e.path);
    Packed(prefix, e.path[prefix..], e.identity, e.names)
  }

  function Unshared(e: Entry): Packed { Packed(0, e.path, e.identity, e.names) }

  function Pack(records: seq<Entry>, previous: string): (packed: seq<Packed>)
    ensures |packed| == |records|
  {
    if records == [] then [] else [PackRecord(previous, records[0])] + Pack(records[1..], records[0].path)
  }

  // ---------- The text that is saved ----------

  function Join(parts: seq<string>): string {
    if parts == [] then "" else if |parts| == 1 then parts[0] else parts[0] + "," + Join(parts[1..])
  }

  function Numbers(enc: Encoding, ns: seq<int>): seq<string> {
    seq(|ns|, i requires 0 <= i < |ns| => enc.number(ns[i]))
  }

  function Strings(enc: Encoding, ss: seq<string>): seq<string> {
    seq(|ss|, i requires 0 <= i < |ss| => enc.text(ss[i]))
  }

  function PackedText(enc: Encoding, p: Packed): string {
    "[" + enc.number(p.prefix) + "," + enc.text(p.suffix) + ",[" + Join(Numbers(enc, p.identity)) + "],["
    + Join(Strings(enc, p.names)) + "]]"
  }

  function Texts(enc: Encoding, packed: seq<Packed>): (texts: seq<string>)
    ensures |texts| == |packed| && forall i :: 0 <= i < |packed| ==> texts[i] == PackedText(enc, packed[i])
  {
    seq(|packed|, i requires 0 <= i < |packed| => PackedText(enc, packed[i]))
  }

  /** Keys in sorted order. */
  function PayloadText(enc: Encoding, cursor: Option<string>, packed: seq<Packed>): string {
    "{\"candidateCursor\":" + (if cursor.Some? then enc.text(cursor.value) else "null")
    + ",\"records\":[" + Join(Texts(enc, packed)) + "],\"scope\":" + enc.scope + "}"
  }

  function FileText(enc: Encoding, cursor: Option<string>, packed: seq<Packed>): string {
    var payload := PayloadText(enc, cursor, packed);
    "{\"mac\":\"" + enc.mac(payload) + "\",\"payload\":" + payload + "}"
  }

  // ---------- Sizes ----------

  ghost function Size(enc: Encoding, cursor: Option<string>, records: seq<Entry>): nat {
    |FileText(enc, cursor, Pack(records, ""))|
  }

  function Expanded(records: seq<Entry>): nat {
    if records == [] then 0 else |records[0].path| + Expanded(records[1..])
  }

  ghost predicate Fits(enc: Encoding, cursor: Option<string>, records: seq<Entry>) {
    Size(enc, cursor, records) <= MAX_PROGRESS_BYTES && Expanded(records) <= MAX_EXPANDED
  }

  function Compact(enc: Encoding, previous: string, e: Entry): nat { |PackedText(enc, PackRecord(previous, e))| }

  function Full(enc: Encoding, e: Entry): nat { |PackedText(enc, Unshared(e))| }

  function Commas(n: nat): nat { if n == 0 then 0 else n - 1 }

  function CompactTotal(enc: Encoding, records: seq<Entry>, previous: string): nat {
    if records == [] then 0
    else Compact(enc, previous, records[0]) + CompactTotal(enc, records[1..], records[0].path)
  }

  lemma {:induction false} JoinLength(enc: Encoding, records: seq<Entry>, previous: string)
    ensures |Join(Texts(enc, Pack(records, previous)))| == CompactTotal(enc, records, previous) + Commas(|records|)
  {
    hide PackedText, PackRecord;
    if records != [] {
      var packed := Pack(records, previous);
      var rest := Pack(records[1..], records[0].path);
      assert packed[1..] == rest;
      assert Texts(enc, packed)[1..] == Texts(enc, rest);
      JoinLength(enc, records[1..], records[0].path);
    }
  }

  /** The 85 characters of the envelope, the empty payload, the records and the commas between them. */
  lemma SizeIs(enc: Encoding, cursor: Option<string>, records: seq<Entry>)
    requires enc.Ok()
    ensures Size(enc, cursor, records) ==
              |PayloadText(enc, cursor, [])| + 85 + CompactTotal(enc, records, "") + Commas(|records|)
  {
    hide PackedText, PackRecord, Texts, Join, Pack, CompactTotal;
    JoinLength(enc, records, "");
    JoinLength(enc, [], "");
    NothingToJoin(enc);
    PayloadLength(enc, cursor, Pack(records, ""));
    PayloadLength(enc, cursor, []);
    EnvelopeLength(enc, cursor, Pack(records, ""));
  }

  lemma NothingToJoin(enc: Encoding)
    ensures Join(Texts(enc, [])) == ""
  {
  }

  lemma PayloadLength(enc: Encoding, cursor: Option<string>, packed: seq<Packed>)
    ensures |PayloadText(enc, cursor, packed)| ==
              |if cursor.Some? then enc.text(cursor.value) else "null"| + |Join(Texts(enc, packed))| + |enc.scope| + 42
  {
    hide Texts, Join;
  }

  lemma EnvelopeLength(enc: Encoding, cursor: Option<string>, packed: seq<Packed>)
    requires enc.Ok()
    ensures |FileText(enc, cursor, packed)| == |PayloadText(enc, cursor, packed)| + 85
  {
    hide PayloadText;
  }

  /** Dropping the oldest record: the next one loses the path it shared. */
  lemma SizeWithoutOldest(enc: Encoding, cursor: Option<string>, records: seq<Entry>)
    requires enc.Ok() && records != []
    ensures Size(enc, cursor, records[1..]) == Size(enc, cursor, records) - Full(enc, records[0])
              + (if |records| > 1 then Full(enc, records[1]) - Compact(enc, records[0].path, records[1]) - 1 else 0)
    ensures Expanded(records[1..]) == Expanded(records) - |records[0].path|
  {
    hide PackedText, Size, PayloadText;
    SizeIs(enc, cursor, records);
    SizeIs(enc, cursor, records[1..]);
    FirstSharesNothing(enc, records[0]);
    if |records| > 1 { FirstSharesNothing(enc, records[1]); }
  }

  lemma FirstSharesNothing(enc: Encoding, e: Entry)
    ensures PackRecord("", e) == Unshared(e) && Compact(enc, "", e) == Full(enc, e)
  {
  }

  // ---------- Ordered records ----------

  ghost predicate Distinct(records: seq<Entry>) {
    records == [] || ((forall e :: e in records[1..] ==> e.path != records[0].path) && Distinct(records[1..]))
  }

  function Without(records: seq<Entry>, path: string): (r: seq<Entry>)
    ensures forall e :: e in r ==> e in records && e.path != path
  {
    if records == [] then []
    else if records[0].path == path then Without(records[1..], path)
    else [records[0]] + Without(records[1..], path)
  }

  function Find(records: seq<Entry>, path: string): (r: Option<Entry>)
    ensures r.Some? ==> r.value in records && r.value.path == path
    ensures r.None? ==> forall e :: e in records ==> e.path != path
  {
    if records == [] then None else if records[0].path == path then Some(records[0]) else Find(records[1..], path)
  }

  lemma {:induction false} WithoutDistinct(records: seq<Entry>, path: string)
    requires Distinct(records)
    ensures Distinct(Without(records, path))
    ensures forall e :: e in records && e.path != path ==> e in Without(records, path)
  {
    if records != [] {
      WithoutDistinct(records[1..], path);
      var r := Without(records, path);
      if records[0].path != path { assert r[1..] == Without(records[1..], path); }
    }
  }

  lemma {:induction false} WithoutAbsent(records: seq<Entry>, path: string)
    requires forall e :: e in records ==> e.path != path
    ensures Without(records, path) == records
  {
    if records != [] { WithoutAbsent(records[1..], path); }
  }

  lemma WithoutOldest(records: seq<Entry>)
    requires Distinct(records) && records != []
    ensures Without(records, records[0].path) == records[1..] && Distinct(records[1..])
  {
    WithoutAbsent(records[1..], records[0].path);
  }

  lemma {:induction false} AppendDistinct(records: seq<Entry>, e: Entry)
    requires Distinct(records) && forall r :: r in records ==> r.path != e.path
    ensures Distinct(records + [e])
  {
    if records != [] {
      AppendDistinct(records[1..], e);
      assert (records + [e])[1..] == records[1..] + [e];
    }
  }

  // ---------- What the reader accepts ----------

  predicate GoodName(name: string) {
    name != "" && name != "." && name != ".." && '/' !in name && '\0' !in name
  }

  predicate GoodNames(names: seq<string>) {
    (forall i :: 0 <= i < |names| ==> GoodName(names[i]))
    && forall i, j :: 0 <= i < j < |names| ==> names[i] != names[j]
  }

  /** An entry as the scan makes it; `physical` holds of absolute paths already in their plainest form. */
  predicate Good(physical: string -> bool, e: Entry) {
    physical(e.path) && |e.identity| == 8 && GoodNames(e.names)
  }

  /** Reading records back one after another, refusing the whole at the first fault. */
  function Unpack(physical: string -> bool, packed: seq<Packed>, loaded: seq<Entry>, previous: string, expanded: nat):
    Option<seq<Entry>>
    decreases |packed|
  {
    if packed == [] then Some(loaded)
    else
      var p := packed[0];
      if !(0 <= p.prefix <= |previous|) || |p.identity| != 8 then None
      else if expanded + p.prefix + |p.suffix| > MAX_EXPANDED then None
      else
        var path := previous[..p.prefix] + p.suffix;
        if !physical(path) || Find(loaded, path).Some? || !GoodNames(p.names) then None
        else Unpack(physical, packed[1..], loaded + [Entry(path, p.identity, p.names)], path,
                    expanded + p.prefix + |p.suffix|)
  }

  lemma {:induction false} UnpackRest(physical: string -> bool, loaded: seq<Entry>, rest: seq<Entry>, previous: string,
                                      expanded: nat)
    requires Distinct(rest) && forall l, e :: l in loaded && e in rest ==> l.path != e.path
    requires expanded + Expanded(rest) <= MAX_EXPANDED && forall e :: e in rest ==> Good(physical, e)
    ensures Unpack(physical, Pack(rest, previous), loaded, previous, expanded) == Some(loaded + rest)
    decreases |rest|
  {
    hide Unpack, Good, PackRecord;
    if rest == [] {
      NothingLeft(physical, loaded, previous, expanded);
      assert loaded + rest == loaded;
    } else {
      var e, tail := rest[0], rest[1..];
      UnpackOne(physical, loaded, e, Pack(tail, e.path), previous, expanded);
      StillApart(loaded, e, tail, rest);
      UnpackRest(physical, loaded + [e], tail, e.path, expanded + |e.path|);
    }
  }

  lemma NothingLeft(physical: string -> bool, loaded: seq<Entry>, previous: string, expanded: nat)
    ensures Unpack(physical, [], loaded, previous, expanded) == Some(loaded)
  {
  }

  lemma StillApart(loaded: seq<Entry>, e: Entry, tail: seq<Entry>, rest: seq<Entry>)
    requires rest == [e] + tail && (forall t :: t in tail ==> t.path != e.path)
    requires forall l, t :: l in loaded && t in rest ==> l.path != t.path
    ensures forall l, t :: l in loaded + [e] && t in tail ==> l.path != t.path
    ensures (loaded + [e]) + tail == loaded + rest
  {
    assert forall t :: t in tail ==> t in rest;
  }

  /** The record written for an entry reads back as that entry. */
  lemma UnpackOne(physical: string -> bool, loaded: seq<Entry>, e: Entry, rest: seq<Packed>, previous: string,
                  expanded: nat)
    requires Good(physical, e) && expanded + |e.path| <= MAX_EXPANDED && forall l :: l in loaded ==> l.path != e.path
    ensures Unpack(physical, [PackRecord(previous, e)] + rest, loaded, previous, expanded)
              == Unpack(physical, rest, loaded + [e], e.path, expanded + |e.path|)
  {
    hide Good, GoodNames, Find;
    var p := PackRecord(previous, e);
    var packed := [p] + rest;
    assert packed[0] == p && packed[1..] == rest;
    assert previous[..p.prefix] + p.suffix == e.path;
    GoodParts(physical, e);
  }

  lemma GoodParts(physical: string -> bool, e: Entry)
    requires Good(physical, e)
    ensures physical(e.path) && |e.identity| == 8 && GoodNames(e.names)
  {
  }

  /** Loading what was saved gives the same records in the same order. */
  lemma RoundTrip(physical: string -> bool, records: seq<Entry>)
    requires Distinct(records) && Expanded(records) <= MAX_EXPANDED && forall e :: e in records ==> Good(physical, e)
    ensures Unpack(physical, Pack(records, ""), [], "", 0) == Some(records)
  {
    var nothing: seq<Entry> := [];
    assert nothing + records == records;
    UnpackRest(physical, nothing, records, "", 0);
  }

  /** Whatever the reader accepts keeps every promise the rest of the run relies on. */
  lemma {:induction false} UnpackSound(physical: string -> bool, packed: seq<Packed>, loaded: seq<Entry>,
                                       previous: string, expanded: nat)
    requires Distinct(loaded) && (forall e :: e in loaded ==> Good(physical, e)) && Expanded(loaded) == expanded
    requires expanded <= MAX_EXPANDED
    ensures var r := Unpack(physical, packed, loaded, previous, expanded);
            r.Some? ==> && Distinct(r.value) && Expanded(r.value) <= MAX_EXPANDED
                        && (forall e :: e in r.value ==> Good(physical, e)) && |r.value| == |loaded| + |packed|
    decreases |packed|
  {
    if packed != [] && Unpack(physical, packed, loaded, previous, expanded).Some? {
      var p := packed[0];
      var e := Entry(previous[..p.prefix] + p.suffix, p.identity, p.names);
      AppendDistinct(loaded, e);
      ExpandedAppend(loaded, e);
      UnpackSound(physical, packed[1..], loaded + [e], e.path, expanded + p.prefix + |p.suffix|);
    }
  }

  lemma {:induction false} ExpandedAppend(records: seq<Entry>, e: Entry)
    ensures Expanded(records + [e]) == Expanded(records) + |e.path|
  {
    if records != [] {
      assert (records + [e])[1..] == records[1..] + [e];
      ExpandedAppend(records[1..], e);
    }
  }

  // ---------- The object ----------

  class Progress {
    const encoding: Encoding
    const physical: string -> bool
    var records: seq<Entry>
    var cursor: Option<string>

    constructor (encoding: Encoding, physical: string -> bool, cursor: Option<string>)
      ensures this.encoding == encoding && this.physical == physical && this.cursor == cursor && records == []
    {
      this.encoding, this.physical, this.cursor, records := encoding, physical, cursor, [];
    }

    ghost predicate Valid()
      reads this
    {
      encoding.Ok() && Distinct(records) && forall e :: e in records ==> Good(physical, e)
    }

    /** The names last seen at `path`, if its identity is unchanged; a changed record is forgotten. */
    method Lookup(path: string, identity: seq<int>) returns (names: Option<seq<string>>)
      requires Valid()
      modifies `records
      ensures Valid()
      ensures var found := Find(old(records), path);
              if found.Some? && found.value.identity == identity
              then names == Some(found.value.names) && records == Without(old(records), path) + [found.value]
              else names == None && records == Without(old(records), path)
    {
      var record := Find(records, path);
      WithoutDistinct(records, path);
      records := Without(records, path);
      names := None;
      if record.Some? && record.value.identity == identity {
        AppendDistinct(records, record.value);
        records := records + [record.value];
        names := Some(record.value.names);
      }
    }

    method Remember(path: string, identity: seq<int>, names: seq<string>)
      requires Valid() && Good(physical, Entry(path, identity, names))
      modifies `records
      ensures Valid() && records == Without(old(records), path) + [Entry(path, identity, names)]
    {
      WithoutDistinct(records, path);
      AppendDistinct(Without(records, path), Entry(path, identity, names));
      records := Without(records, path) + [Entry(path, identity, names)];
    }

    /** Evicts the oldest records until both bounds hold and gives the records as written; nothing is written when
        even the empty state is too long. */
    method Save() returns (saved: Option<seq<Packed>>)
      requires Valid()
      modifies `records
      ensures Valid()
      ensures exists k :: KeptFrom(old(records), k)
      ensures saved.None? <==> Size(encoding, cursor, []) > MAX_PROGRESS_BYTES
      ensures saved.Some? ==>
                && |FileText(encoding, cursor, saved.value)| <= MAX_PROGRESS_BYTES
                && Unpack(physical, saved.value, [], "", 0) == Some(records)
    {
      ghost var before := records;
      Evict();
      ghost var k :| KeptFrom(before, k);
      var packed := PackAll();
      assert KeptFrom(before, k);
      SmallestSize(encoding, cursor, records);
      if |FileText(encoding, cursor, packed)| > MAX_PROGRESS_BYTES {
        assert records == [];
        return None;
      }
      RoundTrip(physical, records);
      saved := Some(packed);
    }

    method Evict()
      requires Valid()
      modifies `records
      ensures Valid() && exists k :: KeptFrom(old(records), k)
    {
      hide PackedText, PayloadText, Size, Compact, Full, CompactTotal, Good, Expanded, Distinct, Without;
      ghost var before := records;
      var sizes, expanded, total := Measure();
      var size := |PayloadText(encoding, cursor, [])| + 85 + total + (if |sizes| == 0 then 0 else |sizes| - 1);
      SizeIs(encoding, cursor, records);
      assert before[0..] == before;
      var index := 0;
      while index < |sizes| && !(size <= MAX_PROGRESS_BYTES && expanded <= MAX_EXPANDED)
        invariant 0 <= index <= |sizes| && Valid() && records == before[index..]
        invariant size == Size(encoding, cursor, records) && expanded == Expanded(records)
        invariant forall j :: 0 <= j < index ==> !Fits(encoding, cursor, before[j..])
      {
        SizeWithoutOldest(encoding, cursor, records);
        WithoutOldest(records);
        assert before[index..][1..] == before[index + 1..];
        assert sizes[index] == SizesOf(encoding, before, index);
        records := Without(records, sizes[index].path);
        expanded := expanded - |sizes[index].path|;
        size := size - sizes[index].full;
        if index + 1 < |sizes| {
          assert sizes[index + 1] == SizesOf(encoding, before, index + 1);
          size := size + sizes[index + 1].full - sizes[index + 1].compact - 1;
        }
        index := index + 1;
      }
      assert KeptFrom(before, index);
    }

    /** The records are the longest recent part of `before` that fits, starting at `k`. */
    ghost predicate KeptFrom(before: seq<Entry>, k: nat)
      reads this
    {
      && k <= |before| && records == before[k..]
      && (forall j :: 0 <= j < k ==> !Fits(encoding, cursor, before[j..]))
      && (k == |before| || Fits(encoding, cursor, records))
    }

    method Measure() returns (sizes: seq<Sizes>, expanded: nat, total: nat)
      ensures |sizes| == |records| && expanded == Expanded(records) && total == CompactTotal(encoding, records, "")
      ensures forall i :: 0 <= i < |records| ==> sizes[i] == SizesOf(encoding, records, i)
    {
      hide PackedText, PackRecord, Compact, Full;
      sizes, expanded, total := [], 0, 0;
      var previous := "";
      assert records[0..] == records;
      for i := 0 to |records|
        invariant |sizes| == i && previous == PathBefore(records, i)
        invariant forall j :: 0 <= j < i ==> sizes[j] == SizesOf(encoding, records, j)
        invariant expanded + Expanded(records[i..]) == Expanded(records)
        invariant total + CompactTotal(encoding, records[i..], previous) == CompactTotal(encoding, records, "")
      {
        var e := records[i];
        var compact := |PackedText(encoding, PackRecord(previous, e))|;
        var full := |PackedText(encoding, Unshared(e))|;
        Measured(encoding, previous, e, compact, full);
        sizes := sizes + [Sizes(e.path, compact, full)];
        assert records[i..][1..] == records[i + 1..];
        previous := e.path;
        expanded := expanded + |e.path|;
        total := total + compact;
      }
    }

    method PackAll() returns (packed: seq<Packed>)
      ensures packed == Pack(records, "")
    {
      packed := [];
      var previous := "";
      assert records[0..] == records;
      for i := 0 to |records|
        invariant packed + Pack(records[i..], previous) == Pack(records, "")
      {
        assert records[i..][1..] == records[i + 1..];
        packed := packed + [PackRecord(previous, records[i])];
        previous := records[i].path;
      }
    }

    /** Reads the records of an authenticated state of the same scope; an unreadable one leaves nothing behind. */
    method Load(packed: seq<Packed>) returns (ok: bool)
      requires encoding.Ok()
      modifies `records
      ensures var r := Unpack(physical, packed, [], "", 0);
              ok == r.Some? && (if ok then Valid() && records == r.value else records == old(records))
    {
      var loaded: seq<Entry>, previous, expanded: nat := [], "", 0;
      assert packed[0..] == packed;
      for i := 0 to |packed|
        invariant Unpack(physical, packed[i..], loaded, previous, expanded) == Unpack(physical, packed, [], "", 0)
        invariant records == old(records)
      {
        assert packed[i..][1..] == packed[i + 1..];
        var p := packed[i];
        if !(0 <= p.prefix <= |previous|) || |p.identity| != 8 { return false; }
        expanded := expanded + p.prefix + |p.suffix|;
        if expanded > MAX_EXPANDED { return false; }
        var path := previous[..p.prefix] + p.suffix;
        if !physical(path) || Find(loaded, path).Some? || !GoodNames(p.names) { return false; }
        loaded := loaded + [Entry(path, p.identity, p.names)];
        previous := path;
      }
      UnpackSound(physical, packed, [], "", 0);
      records := loaded;
      ok := true;
    }
  }

  datatype Sizes = Sizes(path: string, compact: nat, full: nat)

  function PathBefore(records: seq<Entry>, i: nat): string
    requires i <= |records|
  {
    if i == 0 then "" else records[i - 1].path
  }

  function SizesOf(enc: Encoding, records: seq<Entry>, i: nat): Sizes
    requires i < |records|
  {
    Sizes(records[i].path, Compact(enc, PathBefore(records, i), records[i]), Full(enc, records[i]))
  }

  lemma Measured(enc: Encoding, previous: string, e: Entry, compact: nat, full: nat)
    requires compact == |PackedText(enc, PackRecord(previous, e))| && full == |PackedText(enc, Unshared(e))|
    ensures compact == Compact(enc, previous, e) && full == Full(enc, e)
  {
    hide PackedText;
  }

  /** Nothing is shorter than the empty state. */
  lemma SmallestSize(enc: Encoding, cursor: Option<string>, records: seq<Entry>)
    requires enc.Ok()
    ensures Size(enc, cursor, []) <= Size(enc, cursor, records)
  {
    hide PackedText, PayloadText, Size;
    SizeIs(enc, cursor, records);
    SizeIs(enc, cursor, []);
  }
}
