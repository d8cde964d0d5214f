/** Read-only, paginated discovery of an actor's admitted actions that have no verified completion receipt. */
module ActionDiscovery {
  import opened Wrappers
  import opened SortedStrings

  // ---------- Claims and receipts ----------

  /** A field of a parsed record. */
  datatype Value = Absent | Null | Text(s: string) | Nested | OtherValue

  datatype ClaimRecord = ClaimRecord(version: Value, actionId: Value, action: Value, actorHash: Value, instance: Value,
                                     repository: Value, submittedAt: Value, fingerprint: Value)

  datatype ReceiptRecord = ReceiptRecord(status: Value, actionId: Value, action: Value, instance: Value,
                                         repository: Value, evidenceRef: Value, result: Value)

  /** What reading one file gives, when it is not too large. */
  datatype Content<T> = Gone | Changed | Unreadable | NotJson(bytes: nat) | NotRecord(bytes: nat)
    | Parsed(bytes: nat, record: T)

  datatype File<T> = File(size: nat, content: Content<T>)

  /** A store held still: its claim files, its receipt files, the digest that names a claim file, and which texts are
      times. */
  datatype Store = Store(claims: string -> File<ClaimRecord>, receipts: string -> File<ReceiptRecord>,
                         claimKey: string -> string, isTime: string -> bool)

  datatype Claim = Claim(actionId: string, action: string, actorHash: string, instance: string,
                         repository: Option<string>, submittedAt: string)

  datatype Verdict = V2(claim: Claim) | Legacy(actorHash: string, instance: string, repository: Value) | Unsupported
    | Unverifiable

  predicate IsHex64(s: string) { |s| == 64 && forall i :: 0 <= i < 64 ==> '0' <= s[i] <= '9' || 'a' <= s[i] <= 'f' }

  predicate IsActionId(s: string) {
    8 <= |s| <= 128
    && forall i :: 0 <= i < |s| ==>
         'A' <= s[i] <= 'Z' || 'a' <= s[i] <= 'z' || '0' <= s[i] <= '9' || s[i] in {'.', '_', ':', '-'}
  }

  predicate IsVerb(s: string) { s == "pause" || s == "resume" || s == "stop" }

  function Classify(store: Store, v: ClaimRecord, key: string): (r: Verdict)
    ensures r.V2? ==>
              && store.claimKey(r.claim.actionId) == key && IsActionId(r.claim.actionId) && IsVerb(r.claim.action)
                      && IsHex64(r.claim.actorHash) && r.claim.instance != "" && store.isTime(r.claim.submittedAt)
  {
    if v.version == Absent then
      if v.fingerprint.Text? && v.actorHash.Text? && v.instance.Text?
      then Legacy(v.actorHash.s, v.instance.s, v.repository) else Unverifiable
    else if v.version != Text("assistant-claim-v2") then Unsupported
    else if !v.actionId.Text? || !IsActionId(v.actionId.s) || store.claimKey(v.actionId.s) != key then Unverifiable
    else if !v.action.Text? || !IsVerb(v.action.s) then Unverifiable
    else if !v.actorHash.Text? || !IsHex64(v.actorHash.s) then Unverifiable
    else if !v.instance.Text? || v.instance.s == "" || !(v.repository.Null? || v.repository.Text?) then Unverifiable
    else if !v.submittedAt.Text? || !store.isTime(v.submittedAt.s) then Unverifiable
    else if !v.fingerprint.Text? || !IsHex64(v.fingerprint.s) then Unverifiable
    else V2(Claim(v.actionId.s, v.action.s, v.actorHash.s, v.instance.s,
                  if v.repository.Text? then Some(v.repository.s) else None, v.submittedAt.s))
  }

  predicate IsExactReceipt(v: ReceiptRecord, c: Claim) {
    && v.status == Text("completed") && v.actionId == Text(c.actionId) && v.action == Text(c.action)
    && v.instance == Text(c.instance)
    && v.repository == (if c.repository.Some? then Text(c.repository.value) else Absent)
    && v.evidenceRef.Text? && "ledger:" <= v.evidenceRef.s && v.result.Nested?
  }

  // ---------- What one claim file means for a request ----------

  datatype Scope = Scope(actorHash: string, instance: string, repository: Option<string>, maxFileBytes: nat)

  datatype Status = ClaimedUnknown | ReceiptUnverified
  datatype Action = Action(claim: Claim, status: Status)

  datatype Limitation =
    | LegacyClaims | UnreadableEntries | OversizedEntries | UnsupportedEntries | UnverifiableEntries | CorpusChanged
    | CorpusOverListingBound | FileBudget | ByteBudget | TimeBudget | PageSize | StoreUnavailable

  predicate Mine(scope: Scope, c: Claim) {
    c.actorHash == scope.actorHash && c.instance == scope.instance && c.repository == scope.repository
  }

  predicate MineLegacy(scope: Scope, v: Verdict)
    requires v.Legacy?
  {
    && v.actorHash == scope.actorHash && v.instance == scope.instance
    && match scope.repository
       case Some(r) => v.repository == Text(r)
       case None => v.repository.Null? || v.repository.Absent?
  }

  /** The claim a file holds, if it is certified and of this actor and target. */
  ghost function MyClaim(store: Store, scope: Scope, key: string): Option<Claim> {
    var f := store.claims(key);
    if f.size > scope.maxFileBytes || !f.content.Parsed? then None
    else
      var v := Classify(store, f.content.record, key);
      if v.V2? && Mine(scope, v.claim) then Some(v.claim) else None
  }

  ghost predicate Completed(store: Store, scope: Scope, key: string, c: Claim) {
    var f := store.receipts(key);
    f.size <= scope.maxFileBytes && f.content.Parsed? && IsExactReceipt(f.content.record, c)
  }

  /** The action a key stands for in the answer: its own claim without an exact receipt. */
  ghost function FoundAt(store: Store, scope: Scope, key: string): seq<Action> {
    var c := MyClaim(store, scope, key);
    if c.None? || Completed(store, scope, key, c.value) then []
    else
      var f := store.receipts(key);
      [Action(c.value, if f.content.Gone? then ClaimedUnknown else ReceiptUnverified)]
  }

  /** What keeps a claim file from being certified for this request. */
  ghost function GapAt(store: Store, scope: Scope, key: string): set<Limitation> {
    var f := store.claims(key);
    if f.content.Gone? then {CorpusChanged}
    else if f.size > scope.maxFileBytes then {OversizedEntries}
    else
      match f.content
      case Changed => {CorpusChanged}
      case Unreadable => {UnreadableEntries}
      case NotJson(_) => {UnreadableEntries}
      case NotRecord(_) => {UnverifiableEntries}
      case Parsed(_, record) =>
        var v := Classify(store, record, key);
        match v
        case V2(_) => {}
        case Legacy(_, _, _) => if MineLegacy(scope, v) then {LegacyClaims} else {}
        case Unsupported => {UnsupportedEntries}
        case Unverifiable => {UnverifiableEntries}
  }

  ghost function Found(store: Store, scope: Scope, keys: seq<string>): seq<Action> {
    if keys == [] then [] else Found(store, scope, keys[..|keys| - 1]) + FoundAt(store, scope, keys[|keys| - 1])
  }

  ghost function Gaps(store: Store, scope: Scope, keys: seq<string>): set<Limitation> {
    if keys == [] then {} else Gaps(store, scope, keys[..|keys| - 1]) + GapAt(store, scope, keys[|keys| - 1])
  }

  function BytesOf<T>(f: File<T>): nat {
    match f.content
    case NotJson(b) => b
    case NotRecord(b) => b
    case Parsed(b, _) => b
    case _ => 0
  }

  /** Reads one claim file, and its receipt when the claim is this actor's for this target. */
  method Examine(store: Store, scope: Scope, key: string) returns (gap: set<Limitation>, found: seq<Action>, bytes: nat)
    ensures gap == GapAt(store, scope, key) && found == FoundAt(store, scope, key) && |found| <= 1
  {
    hide Classify, IsExactReceipt;
    gap, found, bytes := {}, [], 0;
    var f := store.claims(key);
    if f.content.Gone? { return {CorpusChanged}, [], 0; }
    if f.size > scope.maxFileBytes { return {OversizedEntries}, [], 0; }
    if f.content.Changed? { return {CorpusChanged}, [], 0; }
    if f.content.Unreadable? { return {UnreadableEntries}, [], 0; }
    bytes := BytesOf(f);
    if f.content.NotJson? { return {UnreadableEntries}, [], bytes; }
    if f.content.NotRecord? { return {UnverifiableEntries}, [], bytes; }
    var verdict := Classify(store, f.content.record, key);
    match verdict {
      case Unsupported => gap := {UnsupportedEntries};
      case Unverifiable => gap := {UnverifiableEntries};
      case Legacy(_, _, _) => if MineLegacy(scope, verdict) { gap := {LegacyClaims}; }
      case V2(claim) =>
        if Mine(scope, claim) {
          var r := store.receipts(key);
          if r.content.Gone? {
            found := [Action(claim, ClaimedUnknown)];
          } else if r.size > scope.maxFileBytes || r.content.Changed? || r.content.Unreadable? {
            found := [Action(claim, ReceiptUnverified)];
          } else {
            bytes := bytes + BytesOf(r);
            if !(r.content.Parsed? && IsExactReceipt(r.content.record, claim)) {
              found := [Action(claim, ReceiptUnverified)];
            }
          }
        }
    }
  }

  // ---------- Listing ----------

  datatype Name = ClaimName(key: string) | ReceiptName | TempName | Foreign

  /** What opening the store directory gives: the root is no directory, there is no store yet, it cannot be read, or its
      entries in some order. */
  datatype Listing = NoRoot | NoStore | Failing | Entries(names: seq<Name>)

  ghost function KeysIn(names: seq<Name>): set<string> { set n | n in names && n.ClaimName? :: n.key }

  // ---------- Requests and answers ----------

  datatype Budget = Budget(maxListed: nat, maxFiles: nat, maxTotalBytes: nat, maxElapsedMs: int)

  /** A continuation as a client presents it. */
  datatype Token = Malformed | Token(binding: string, position: string)

  /** The digests that bind a continuation to an actor and target and hide the key it stands for. */
  datatype Codec = Codec(binding: (string, string, Option<string>) -> string, position: (string, string) -> string) {
    ghost predicate Injective() {
      && (forall a, b, c, a', b', c' :: binding(a, b, c) == binding(a', b', c') ==> a == a' && b == b' && c == c')
      && (forall b, k, b', k' :: position(b, k) == position(b', k') ==> b == b' && k == k')
    }

    function BindingOf(scope: Scope): string { binding(scope.actorHash, scope.instance, scope.repository) }

    function Encode(scope: Scope, key: string): Token {
      Token(Prefix(BindingOf(scope)), position(BindingOf(scope), key))
    }
  }

  function Prefix(s: string): string { if |s| < 16 then s else s[..16] }

  /** One request: what it asks for, its budgets, the clock as it will read it, and what it finds at the store. */
  datatype Request = Request(scope: Scope, budget: Budget, limit: Option<int>, continuation: Option<Token>,
                             clock: nat -> int, listing: Listing, stampChanged: bool)

  datatype Completeness = Complete | Partial | Unavailable

  datatype Answer = Answer(completeness: Completeness, limitations: set<Limitation>, pending: seq<Action>,
                           continuation: Option<Token>, verifiedEmpty: bool)

  datatype Refusal = InvalidContinuation

  const MAX_PAGE := 100
  const DEFAULT_PAGE := 50

  function PageLimit(req: Request): (n: nat)
    ensures 1 <= n <= MAX_PAGE
  {
    var asked := if req.limit.Some? then req.limit.value else DEFAULT_PAGE;
    if asked < 1 then 1 else if asked > MAX_PAGE then MAX_PAGE else asked
  }

  predicate Late(req: Request, tick: nat) { req.clock(tick) - req.clock(0) >= req.budget.maxElapsedMs }

  // ---------- Listing within bounds ----------

  ghost predicate DistinctClaims(names: seq<Name>) {
    forall i, j :: 0 <= i < j < |names| && names[i].ClaimName? && names[j].ClaimName? ==> names[i] != names[j]
  }

  /** The listing ends before either of its bounds. */
  ghost predicate ListsAll(req: Request)
    requires req.listing.Entries?
  {
    |req.listing.names| <= req.budget.maxListed && forall t :: 1 <= t <= |req.listing.names| ==> !Late(req, t)
  }

  method List(req: Request) returns (keys: seq<string>, limits: set<Limitation>, tick: nat)
    requires req.listing.Entries? && DistinctClaims(req.listing.names)
    ensures InOrder(keys) && forall k :: k in keys ==> k in KeysIn(req.listing.names)
    ensures limits <= {CorpusOverListingBound, TimeBudget, UnverifiableEntries}
    ensures ListsAll(req) ==> forall k :: k in keys <==> k in KeysIn(req.listing.names)
    ensures ListsAll(req) ==> limits == if Foreign in req.listing.names then {UnverifiableEntries} else {}
    ensures !ListsAll(req) ==>
              UnverifiableEntries in limits && (CorpusOverListingBound in limits || TimeBudget in limits)
  {
    var names := req.listing.names;
    keys, limits, tick := [], {}, 1;
    var i := 0;
    while i < |names|
      invariant 0 <= i <= |names| && tick == i + 1 && i <= req.budget.maxListed
      invariant InOrder(keys) && forall k :: k in keys <==> k in KeysIn(names[..i])
      invariant limits == if Foreign in names[..i] then {UnverifiableEntries} else {}
      invariant forall t :: 1 <= t <= i ==> !Late(req, t)
    {
      hide StringLe, InOrder;
      KeysGrow(names, i);
      if i >= req.budget.maxListed {
        limits := limits + {CorpusOverListingBound, UnverifiableEntries};
        SomeKeys(names, i);
        return;
      }
      tick := tick + 1;
      if Late(req, tick - 1) {
        limits := limits + {TimeBudget, UnverifiableEntries};
        SomeKeys(names, i);
        return;
      }
      if names[i].ClaimName? {
        NewKey(names, i);
        InsertInOrder(names[i].key, keys);
        keys := InsertKey(names[i].key, keys);
      } else if names[i].Foreign? {
        limits := limits + {UnverifiableEntries};
      }
      i := i + 1;
    }
    assert names[..|names|] == names;
  }

  lemma KeysGrow(names: seq<Name>, i: nat)
    requires i < |names|
    ensures KeysIn(names[..i + 1]) == KeysIn(names[..i]) + if names[i].ClaimName? then {names[i].key} else {}
    ensures Foreign in names[..i + 1] <==> Foreign in names[..i] || names[i].Foreign?
  {
    assert names[..i + 1] == names[..i] + [names[i]];
  }

  lemma SomeKeys(names: seq<Name>, i: nat)
    requires i <= |names|
    ensures KeysIn(names[..i]) <= KeysIn(names)
  {
  }

  lemma NewKey(names: seq<Name>, i: nat)
    requires DistinctClaims(names) && i < |names| && names[i].ClaimName?
    ensures names[i].key !in KeysIn(names[..i])
  {
  }

  // ---------- Scanning from a position ----------

  /** Which budget, if any, stops a scan that has examined some entries. */
  function StopReason(req: Request, examined: nat, bytes: nat, found: nat, tick: nat): Option<Limitation> {
    if examined == 0 then None
    else if examined >= req.budget.maxFiles then Some(FileBudget)
    else if bytes >= req.budget.maxTotalBytes then Some(ByteBudget)
    else if Late(req, tick) then Some(TimeBudget)
    else if found >= PageLimit(req) then Some(PageSize)
    else None
  }

  lemma Unstopped(req: Request, examined: nat, bytes: nat, found: nat, tick: nat)
    ensures var reason := StopReason(req, examined, bytes, found, tick);
            && (reason.None? && examined > 0 ==> found < PageLimit(req))
            && (reason.Some? ==> examined > 0 && reason.value in {FileBudget, ByteBudget, TimeBudget, PageSize})
            && (reason == Some(FileBudget) ==> examined >= req.budget.maxFiles)
            && (reason == Some(ByteBudget) ==> bytes >= req.budget.maxTotalBytes)
            && (reason == Some(PageSize) ==> found >= PageLimit(req))
  {
    hide PageLimit, Late;
  }

  lemma FoundGrows(store: Store, scope: Scope, keys: seq<string>, start: nat, stop: nat)
    requires start <= stop < |keys|
    ensures Found(store, scope, keys[start..stop + 1]) ==
              Found(store, scope, keys[start..stop]) + FoundAt(store, scope, keys[stop])
    ensures Gaps(store, scope, keys[start..stop + 1]) ==
              Gaps(store, scope, keys[start..stop]) + GapAt(store, scope, keys[stop])
  {
    hide GapAt, FoundAt;
    var part := keys[start..stop + 1];
    assert part[..|part| - 1] == keys[start..stop] && part[|part| - 1] == keys[stop];
  }

  lemma NothingFound(store: Store, scope: Scope, keys: seq<string>, start: nat)
    requires start <= |keys|
    ensures Found(store, scope, keys[start..start]) == [] && Gaps(store, scope, keys[start..start]) == {}
  {
  }

  /** Examines claims from `start` on; at least one if there is one, then until a budget stops it. */
  method Scan(store: Store, req: Request, keys: seq<string>, start: nat, tick0: nat)
    returns (pending: seq<Action>, stop: nat, limits: set<Limitation>, reason: Option<Limitation>)
    requires start <= |keys|
    ensures start <= stop <= |keys| && (start < |keys| ==> start < stop) && (stop < |keys| <==> reason.Some?)
    ensures pending == Found(store, req.scope, keys[start..stop]) && |pending| <= PageLimit(req)
    ensures limits == Gaps(store, req.scope, keys[start..stop]) + if reason.Some? then {reason.value} else {}
    ensures reason.Some? ==> reason.value in {FileBudget, ByteBudget, TimeBudget, PageSize}
    ensures reason == Some(FileBudget) ==> stop - start >= req.budget.maxFiles
    ensures reason == Some(PageSize) ==> |pending| == PageLimit(req)
  {
    hide *;
    pending, stop, limits, reason := [], start, {}, None;
    NothingFound(store, req.scope, keys, start);
    var bytes, tick := 0, tick0;
    while stop < |keys|
      invariant start <= stop <= |keys| && reason.None?
      invariant pending == Found(store, req.scope, keys[start..stop]) && |pending| <= PageLimit(req)
      invariant stop == start ==> pending == []
      invariant limits == Gaps(store, req.scope, keys[start..stop])
    {
      Unstopped(req, stop - start, bytes, |pending|, tick);
      reason := StopReason(req, stop - start, bytes, |pending|, tick);
      if reason.Some? {
        limits := limits + {reason.value};
        return;
      }
      tick := tick + 1;
      FoundGrows(store, req.scope, keys, start, stop);
      var gap, found, read := Examine(store, req.scope, keys[stop]);
      limits, pending, bytes, stop := limits + gap, pending + found, bytes + read, stop + 1;
    }
  }

  // ---------- One request ----------

  /** The token stands for the position after `key` in this actor's and target's answers. */
  ghost predicate StandsFor(codec: Codec, scope: Scope, token: Token, key: string) { token == codec.Encode(scope, key) }

  predicate Acceptable(codec: Codec, scope: Scope, token: Token) {
    token.Token? && token.binding == Prefix(codec.BindingOf(scope))
  }

  lemma StandsForIs(codec: Codec, scope: Scope, token: Token, key: string)
    ensures StandsFor(codec, scope, token, key) <==>
              Acceptable(codec, scope, token) && token.position == codec.position(codec.BindingOf(scope), key)
  {
  }

  /** A token made for one actor and target is refused for any other: it stands for no key there. */
  lemma BoundToScope(codec: Codec, scope: Scope, other: Scope, key: string, key': string)
    requires codec.Injective() && StandsFor(codec, other, codec.Encode(scope, key), key')
    ensures key == key' && scope.actorHash == other.actorHash && scope.instance == other.instance
            && scope.repository == other.repository
  {
  }

  /** Where a request resumes: after the key its continuation stands for. */
  method Resume(codec: Codec, scope: Scope, token: Token, keys: seq<string>) returns (start: Option<nat>)
    ensures start.Some? ==> 0 < start.value <= |keys| && StandsFor(codec, scope, token, keys[start.value - 1])
    ensures start.None? ==> forall k :: k in keys ==> !StandsFor(codec, scope, token, k)
  {
    hide StandsFor;
    if !Acceptable(codec, scope, token) {
      forall k | k in keys ensures !StandsFor(codec, scope, token, k) { StandsForIs(codec, scope, token, k); }
      return None;
    }
    var bind := codec.BindingOf(scope);
    for i := 0 to |keys|
      invariant forall j :: 0 <= j < i ==> !StandsFor(codec, scope, token, keys[j])
    {
      StandsForIs(codec, scope, token, keys[i]);
      if codec.position(bind, keys[i]) == token.position { return Some(i + 1); }
    }
    start := None;
  }

  /** The part of the store an answer is about: its keys in order, and where the scan started and stopped. */
  datatype Page = Page(keys: seq<string>, start: nat, stop: nat)

  ghost predicate IsPage(codec: Codec, store: Store, req: Request, p: Page, a: Answer) {
    && p.start <= p.stop <= |p.keys| && (p.start < |p.keys| ==> p.start < p.stop)
    && a.pending == Found(store, req.scope, p.keys[p.start..p.stop]) && |a.pending| <= PageLimit(req)
    && Gaps(store, req.scope, p.keys[p.start..p.stop]) <= a.limitations
    && a.continuation == (if p.stop < |p.keys| then Some(codec.Encode(req.scope, p.keys[p.stop - 1])) else None)
    && match req.continuation
       case None => p.start == 0
       case Some(token) => p.start > 0 && StandsFor(codec, req.scope, token, p.keys[p.start - 1])
  }

  ghost predicate IsVerified(req: Request, a: Answer)
    requires req.listing.Entries?
  {
    && a.verifiedEmpty == (req.continuation.None? && a.limitations == {} && a.continuation.None? && a.pending == [])
    && (a.limitations == {} ==> ListsAll(req) && Foreign !in req.listing.names)
    && (a.completeness == Complete ==> a.limitations == {} && a.continuation.None?)
  }

  /** The answer to a request whose store could be listed. */
  method Answered(codec: Codec, store: Store, req: Request) returns (r: Result<Answer, Refusal>, page: Page)
    requires req.listing.Entries? && DistinctClaims(req.listing.names)
    ensures ListsAll(req) ==> SortedKeys(page.keys, KeysIn(req.listing.names))
    ensures r.Success? ==> IsPage(codec, store, req, page, r.value) && IsVerified(req, r.value)
    ensures r.Failure? ==>
              req.continuation.Some?
              && forall k :: k in page.keys ==> !StandsFor(codec, req.scope, req.continuation.value, k)
  {
    hide Found, Gaps, InOrder, KeysIn, StandsFor, PageLimit, ListsAll;
    var keys, listed, tick := List(req);
    page := Page(keys, 0, 0);
    var start := 0;
    if req.continuation.Some? {
      var at := Resume(codec, req.scope, req.continuation.value, keys);
      if at.None? { return Failure(InvalidContinuation), page; }
      start := at.value;
    }
    var pending, stop, limits, reason := Scan(store, req, keys, start, tick);
    page := Page(keys, start, stop);
    limits := limits + listed;
    if req.stampChanged { limits := limits + {CorpusChanged}; }
    var continuation := if stop < |keys| then Some(codec.Encode(req.scope, keys[stop - 1])) else None;
    var completeness := if stop < |keys| || limits != {} then Partial else Complete;
    r := Success(Answer(completeness, limits, pending, continuation,
                        stop == |keys| && limits == {} && req.continuation.None? && pending == []));
  }

  /** Any request: a store that was never made has admitted nothing, one that cannot be read says nothing. */
  method ReadDiscovery(codec: Codec, store: Store, req: Request) returns (r: Result<Answer, Refusal>, page: Page)
    requires req.listing.Entries? ==> DistinctClaims(req.listing.names)
    ensures req.listing.Entries? && ListsAll(req) ==> SortedKeys(page.keys, KeysIn(req.listing.names))
    ensures req.listing.Entries? && r.Success? ==> IsPage(codec, store, req, page, r.value) && IsVerified(req, r.value)
    ensures req.listing.Entries? && r.Failure? ==>
              req.continuation.Some?
                && forall k :: k in page.keys ==> !StandsFor(codec, req.scope, req.continuation.value, k)
    ensures !req.listing.Entries? && r.Success? ==>
              && r.value.pending == [] && r.value.continuation == None
              && (r.value.verifiedEmpty <==> req.listing.NoStore? && req.continuation.None?)
    ensures !req.listing.Entries? && r.Failure? ==>
              req.continuation.Some? && !Acceptable(codec, req.scope, req.continuation.value)
  {
    hide *;
    page := Page([], 0, 0);
    if req.listing.Entries? {
      r, page := Answered(codec, store, req);
      return;
    }
    if req.continuation.Some? && !Acceptable(codec, req.scope, req.continuation.value) {
      return Failure(InvalidContinuation), page;
    }
    if req.listing.NoStore? && req.continuation.None? {
      r := Success(Answer(Complete, {}, [], None, true));
    } else {
      r := Success(Answer(Unavailable, {StoreUnavailable}, [], None, false));
    }
  }

  // ---------- What a verified empty answer means ----------

  lemma {:induction false} FoundNothing(store: Store, scope: Scope, keys: seq<string>, k: string)
    requires Found(store, scope, keys) == [] && Gaps(store, scope, keys) == {} && k in keys
    ensures FoundAt(store, scope, k) == [] && GapAt(store, scope, k) == {}
  {
    hide FoundAt, GapAt;
    var last := keys[|keys| - 1];
    assert |FoundAt(store, scope, last)| == 0;
    assert GapAt(store, scope, last) <= Gaps(store, scope, keys);
    if k != last {
      assert Gaps(store, scope, keys[..|keys| - 1]) <= Gaps(store, scope, keys);
      FoundNothing(store, scope, keys[..|keys| - 1], k);
    }
  }

  /** No claim of this actor and target lacks an exact receipt, and every claim file in the store was certified. */
  lemma VerifiedEmptyMeansNothingPending(codec: Codec, store: Store, req: Request, page: Page, a: Answer, k: string)
    requires req.listing.Entries? && IsPage(codec, store, req, page, a) && IsVerified(req, a) && a.verifiedEmpty
    requires ListsAll(req) ==> SortedKeys(page.keys, KeysIn(req.listing.names))
    requires k in KeysIn(req.listing.names)
    ensures GapAt(store, req.scope, k) == {}
    ensures var c := MyClaim(store, req.scope, k); c.Some? ==> Completed(store, req.scope, k, c.value)
  {
    hide Found, Gaps, MyClaim, Completed, GapAt, PageLimit, InOrder, KeysIn, ListsAll, StandsFor;
    assert page.keys[0..|page.keys|] == page.keys;
    FoundNothing(store, req.scope, page.keys, k);
  }

  // ---------- Following continuations ----------

  lemma FoundInNone(store: Store, scope: Scope)
    ensures Found(store, scope, []) == []
  {
  }

  lemma Associates(a: seq<Action>, b: seq<Action>, c: seq<Action>)
    ensures a + (b + c) == (a + b) + c
  {
  }

  lemma {:induction false} FoundSplit(store: Store, scope: Scope, keys: seq<string>, i: nat, j: nat)
    requires i <= j <= |keys|
    ensures Found(store, scope, keys[..i]) + Found(store, scope, keys[i..j]) == Found(store, scope, keys[..j])
    decreases j - i
  {
    hide *;
    if i == j {
      assert keys[i..j] == [];
      FoundInNone(store, scope);
    } else {
      FoundSplit(store, scope, keys, i, j - 1);
      FoundGrows(store, scope, keys, i, j - 1);
      FoundGrows(store, scope, keys, 0, j - 1);
      assert keys[0..j - 1] == keys[..j - 1] && keys[0..j] == keys[..j];
      Associates(Found(store, scope, keys[..i]), Found(store, scope, keys[i..j - 1]),
                 FoundAt(store, scope, keys[j - 1]));
    }
  }

  function Concat(pages: seq<seq<Action>>): seq<Action> {
    if pages == [] then [] else Concat(pages[..|pages| - 1]) + pages[|pages| - 1]
  }

  /** Every request of one client over one still store: same actor, target and file bound, the same claims however they
      are listed, and room to list them. */
  ghost predicate SameStore(requests: nat -> Request, scope: Scope, all: set<string>) {
    forall n: nat ::
      && requests(n).scope == scope && requests(n).listing.Entries? && DistinctClaims(requests(n).listing.names)
      && KeysIn(requests(n).listing.names) == all && ListsAll(requests(n))
  }

  /** Follows continuations to the end; each request has budgets and a page size of its own. */
  method Follow(codec: Codec, store: Store, requests: nat -> Request, ghost scope: Scope, ghost all: set<string>)
    returns (pages: seq<seq<Action>>, keys: seq<string>)
    requires codec.Injective() && SameStore(requests, scope, all)
    ensures SortedKeys(keys, all) && Concat(pages) == Found(store, scope, keys)
    ensures 1 <= |pages| <= if |keys| == 0 then 1 else |keys|
  {
    hide Found, Gaps, InOrder, KeysIn, PageLimit, ListsAll, DistinctClaims, IsVerified, Concat;
    var first := requests(0).(continuation := None);
    ListingKept(requests(0), None);
    var r, page := ReadDiscovery(codec, store, first);
    keys := page.keys;
    pages := [r.value.pending];
    var token := r.value.continuation;
    ghost var at := page.stop;
    FirstPage(pages, keys, store, scope, at);
    var n := 1;
    while token.Some?
      invariant SortedKeys(keys, all) && at <= |keys| && |pages| == n && n <= (if at == 0 then 1 else at)
      invariant Concat(pages) == Found(store, scope, keys[..at])
      invariant if token.Some? then 0 < at < |keys| && token == Some(codec.Encode(scope, keys[at - 1]))
                else at == |keys|
      decreases |keys| - at
    {
      var next := requests(n).(continuation := token);
      ListingKept(requests(n), token);
      r, page := ReadDiscovery(codec, store, next);
      SameKeys(keys, page.keys, all);
      Resumes(codec, scope, keys, at, token.value, r, page);
      NextPage(pages, r.value.pending, keys, store, scope, at, page.stop);
      pages := pages + [r.value.pending];
      token := r.value.continuation;
      at := page.stop;
      n := n + 1;
    }
    assert keys[..|keys|] == keys;
  }

  lemma ListingKept(req: Request, token: Option<Token>)
    requires req.listing.Entries?
    ensures ListsAll(req.(continuation := token)) <==> ListsAll(req)
  {
    forall t: nat ensures Late(req.(continuation := token), t) <==> Late(req, t) {}
  }

  lemma SameKeys(a: seq<string>, b: seq<string>, all: set<string>)
    requires SortedKeys(a, all) && SortedKeys(b, all)
    ensures a == b
  {
    hide InOrder;
    SortedKeysUnique(a, b);
  }

  /** The continuation of one page is accepted by the next request and resumes right after it. */
  lemma Resumes(codec: Codec, scope: Scope, keys: seq<string>, at: nat, token: Token, r: Result<Answer, Refusal>,
                page: Page)
    requires codec.Injective() && InOrder(keys) && page.keys == keys && 0 < at <= |keys|
             && StandsFor(codec, scope, token, keys[at - 1])
    requires r.Failure? ==> forall k :: k in keys ==> !StandsFor(codec, scope, token, k)
    requires r.Success? ==> 0 < page.start <= |keys| && StandsFor(codec, scope, token, keys[page.start - 1])
    ensures r.Success? && page.start == at
  {
    hide StringLe;
    assert keys[at - 1] in keys;
    if r.Success? {
      BoundToScope(codec, scope, scope, keys[at - 1], keys[page.start - 1]);
    }
  }

  lemma FirstPage(pages: seq<seq<Action>>, keys: seq<string>, store: Store, scope: Scope, at: nat)
    requires at <= |keys| && pages == [Found(store, scope, keys[0..at])]
    ensures Concat(pages) == Found(store, scope, keys[..at])
  {
    hide Found;
    assert pages[..0] == [] && keys[0..at] == keys[..at];
    assert Concat(pages[..0]) == [];
  }

  lemma NextPage(pages: seq<seq<Action>>, found: seq<Action>, keys: seq<string>, store: Store, scope: Scope, at: nat,
                 stop: nat)
    requires at <= stop <= |keys| && found == Found(store, scope, keys[at..stop])
             && Concat(pages) == Found(store, scope, keys[..at])
    ensures Concat(pages + [found]) == Found(store, scope, keys[..stop])
  {
    hide Found;
    FoundSplit(store, scope, keys, at, stop);
    var more := pages + [found];
    assert more[..|more| - 1] == pages && more[|more| - 1] == found;
  }
}
