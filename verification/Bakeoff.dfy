/** The deployment bake-off: claim before spending, publish once, recover after a crash between any two writes. */
module Bakeoff {
  import opened Wrappers

  /** A deployed model under its billing and name, with the digest of what it was deployed as, if known. */
  datatype Model = Model(key: string, digest: Option<string>)

  datatype Proposal = Proposal(id: string, summary: string)
  datatype Pending = Pending(id: string, models: seq<string>, proposal: Option<Proposal>)
  datatype TrialState = TrialState(trialed: set<string>, digests: map<string, string>, pending: Option<Pending>)

  datatype Row = Row(candidate: string, capacityShortfall: bool)

  /** What one sweep is given: the deployment, the keys the ledger shows as tried before any state was kept, the arms
      of each model, the paid replay (absent when not configured, failing or answering with rows), a fresh identifier,
      and how many writes it lives through. */
  datatype Input = Input(deployed: seq<Model>, history: set<string>, incumbent: string, arms: string -> seq<string>,
                         replay: Option<seq<string> -> Option<seq<Row>>>, uuid: string, writes: nat)

  // ---------- Which models are due ----------

  predicate Due(m: Model, trialed: set<string>, digests: map<string, string>) {
    m.key !in trialed || (m.digest.Some? && m.key in digests && digests[m.key] != m.digest.value)
  }

  ghost predicate FirstOfKey(deployed: seq<Model>, i: nat)
    requires i < |deployed|
  {
    forall j :: 0 <= j < i ==> deployed[j].key != deployed[i].key
  }

  ghost predicate DistinctKeys(models: seq<Model>) {
    forall i, j :: 0 <= i < j < |models| ==> models[i].key != models[j].key
  }

  method FindUntrialed(deployed: seq<Model>, trialed: set<string>, digests: map<string, string>)
    returns (models: seq<Model>)
    ensures DistinctKeys(models)
    ensures forall m :: m in models <==>
              exists i :: 0 <= i < |deployed| && deployed[i] == m && FirstOfKey(deployed, i) && Due(m, trialed, digests)
  {
    models := [];
    var seen: set<string> := {};
    for n := 0 to |deployed|
      invariant forall k :: k in seen <==> exists i :: 0 <= i < n && deployed[i].key == k
      invariant DistinctKeys(models) && forall m :: m in models ==> m.key in seen
      invariant forall m :: m in models <==>
                  exists i :: 0 <= i < n && deployed[i] == m && FirstOfKey(deployed, i) && Due(m, trialed, digests)
    {
      var m := deployed[n];
      if m.key !in seen {
        seen := seen + {m.key};
        if Due(m, trialed, digests) { models := models + [m]; }
      }
    }
  }

  /** A digest first seen for a model already tried is put on record. */
  method Adopt(deployed: seq<Model>, trialed: set<string>, before: map<string, string>)
    returns (digests: map<string, string>)
    ensures digests.Keys <= before.Keys + trialed
    ensures forall k :: k in before ==> k in digests && digests[k] == before[k]
    ensures forall m :: m in deployed && m.key in trialed && m.digest.Some? ==> m.key in digests
    ensures forall k :: k in digests && k !in before ==> Model(k, Some(digests[k])) in deployed
  {
    digests := before;
    for n := 0 to |deployed|
      invariant digests.Keys <= before.Keys + trialed
      invariant forall k :: k in before ==> k in digests && digests[k] == before[k]
      invariant forall i :: 0 <= i < n && deployed[i].key in trialed && deployed[i].digest.Some? ==>
                  deployed[i].key in digests
      invariant forall k :: k in digests && k !in before ==> Model(k, Some(digests[k])) in deployed
    {
      var m := deployed[n];
      if m.key in trialed && m.digest.Some? && m.key !in digests { digests := digests[m.key := m.digest.value]; }
    }
  }

  // ---------- What is claimed ----------

  /** One model claimed for a paid replay: the digest it was claimed with, the one on record before, and whether the
      replay turned out to be all capacity shortfall. */
  datatype Claim = Claim(id: string, key: string, digest: Option<string>, recorded: Option<string>, skipped: bool)

  /** `j` is the last claim of its key before `i`. */
  ghost predicate LastBefore(log: seq<Claim>, j: nat, i: nat)
    requires j < i <= |log|
  {
    forall k :: j < k < i ==> log[k].key != log[j].key
  }

  /** A key claimed again was skipped the last time, or carries another digest than the one on record since then. */
  ghost predicate Justified(log: seq<Claim>, i: nat)
    requires i < |log|
  {
    forall j :: 0 <= j < i && log[j].key == log[i].key && LastBefore(log, j, i) ==>
      || log[j].skipped
      || (log[i].digest.Some? && log[i].recorded.Some? && log[i].digest != log[i].recorded
          && (log[j].digest.Some? ==> log[i].recorded == log[j].digest))
  }

  /** Unless it was skipped, the last claim of a key is remembered with its digest. */
  ghost predicate Remembered(log: seq<Claim>, trialed: set<string>, digests: map<string, string>) {
    forall j :: 0 <= j < |log| && LastBefore(log, j, |log|) && !log[j].skipped ==>
      log[j].key in trialed
        && (log[j].digest.Some? ==> log[j].key in digests && Some(digests[log[j].key]) == log[j].digest)
  }

  ghost predicate AllJustified(log: seq<Claim>) {
    forall i :: 0 <= i < |log| ==> Justified(log, i)
  }

  ghost function Recorded(digests: map<string, string>, key: string): Option<string> {
    if key in digests then Some(digests[key]) else None
  }

  ghost function ClaimsOf(models: seq<Model>, id: string, digests: map<string, string>): (claims: seq<Claim>)
    ensures |claims| == |models|
    ensures forall i :: 0 <= i < |models| ==>
              claims[i] == Claim(id, models[i].key, models[i].digest, Recorded(digests, models[i].key), false)
  {
    seq(|models|, i requires 0 <= i < |models| =>
        Claim(id, models[i].key, models[i].digest, Recorded(digests, models[i].key), false))
  }

  function Keys(models: seq<Model>): set<string> { set m | m in models :: m.key }

  /** The digests after a claim: those of the models claimed replace what was on record. */
  function Claimed(models: seq<Model>, digests: map<string, string>): (after: map<string, string>)
    decreases |models|
  {
    if models == [] then digests
    else
      var last, before := models[|models| - 1], Claimed(models[..|models| - 1], digests);
      if last.digest.Some? then before[last.key := last.digest.value] else before
  }

  lemma {:induction false} ClaimedOther(models: seq<Model>, digests: map<string, string>, key: string)
    requires forall m :: m in models ==> m.key != key
    ensures Recorded(Claimed(models, digests), key) == Recorded(digests, key)
    decreases |models|
  {
    if models != [] {
      assert models[|models| - 1] in models;
      ClaimedOther(models[..|models| - 1], digests, key);
    }
  }

  lemma {:induction false} ClaimedOwn(models: seq<Model>, digests: map<string, string>, i: nat)
    requires DistinctKeys(models) && i < |models| && models[i].digest.Some?
    ensures Recorded(Claimed(models, digests), models[i].key) == models[i].digest
    decreases |models|
  {
    var init := models[..|models| - 1];
    if i < |models| - 1 {
      assert models[i].key != models[|models| - 1].key && init[i] == models[i];
      ClaimedOwn(init, digests, i);
    }
  }

  lemma {:induction false} ClaimedKeys(models: seq<Model>, digests: map<string, string>)
    ensures Claimed(models, digests).Keys <= digests.Keys + Keys(models)
    decreases |models|
  {
    if models != [] {
      ClaimedKeys(models[..|models| - 1], digests);
      assert models[|models| - 1] in models;
      forall m | m in models[..|models| - 1] ensures m in models {}
    }
  }

  /** Models that are due may be claimed. */
  lemma ClaimJustified(log: seq<Claim>, models: seq<Model>, id: string, trialed: set<string>,
                       digests: map<string, string>)
    requires AllJustified(log) && Remembered(log, trialed, digests) && DistinctKeys(models)
    requires forall m :: m in models ==> Due(m, trialed, digests)
    ensures AllJustified(log + ClaimsOf(models, id, digests))
  {
    var claims := ClaimsOf(models, id, digests);
    var log' := log + claims;
    forall i | 0 <= i < |log'| ensures Justified(log', i) {
      if i < |log| {
        assert Justified(log, i);
        EarlierStaysJustified(log, log', i);
      } else {
        ClaimOneJustified(log, log', models, claims, trialed, digests, i);
      }
    }
  }

  lemma EarlierStaysJustified(log: seq<Claim>, log': seq<Claim>, i: nat)
    requires log <= log' && i < |log| && Justified(log, i)
    ensures Justified(log', i)
  {
    forall j | 0 <= j < i && LastBefore(log', j, i) ensures LastBefore(log, j, i) {
      forall k | j < k < i ensures log[k].key != log[j].key { assert log'[k].key != log'[j].key; }
    }
  }

  lemma ClaimOneJustified(log: seq<Claim>, log': seq<Claim>, models: seq<Model>, claims: seq<Claim>,
                          trialed: set<string>, digests: map<string, string>, i: nat)
    requires Remembered(log, trialed, digests) && DistinctKeys(models) && log' == log + claims && |claims| == |models|
    requires forall n :: 0 <= n < |models| ==>
               claims[n] == Claim(claims[n].id, models[n].key, models[n].digest, Recorded(digests, models[n].key),
                                  false)
    requires forall m :: m in models ==> Due(m, trialed, digests)
    requires |log| <= i < |log'|
    ensures Justified(log', i)
  {
    var n := i - |log|;
    assert log'[i] == claims[n] && models[n] in models;
    forall j | 0 <= j < i && log'[j].key == log'[i].key && LastBefore(log', j, i)
      ensures log'[j].skipped || (log'[i].digest.Some? && log'[i].recorded.Some? && log'[i].digest != log'[i].recorded
                && (log'[j].digest.Some? ==> log'[i].recorded == log'[j].digest))
    {
      assert j >= |log| ==> log'[j].key == models[j - |log|].key;
      assert log'[j] == log[j];
      forall k | j < k < |log| ensures log[k].key != log[j].key { assert log'[k].key != log'[j].key; }
      assert LastBefore(log, j, |log|);
    }
  }

  lemma ClaimRemembered(log: seq<Claim>, models: seq<Model>, id: string, trialed: set<string>,
                        digests: map<string, string>)
    requires Remembered(log, trialed, digests) && DistinctKeys(models)
    ensures Remembered(log + ClaimsOf(models, id, digests), trialed + Keys(models), Claimed(models, digests))
  {
    hide Claimed;
    var claims, after := ClaimsOf(models, id, digests), Claimed(models, digests);
    var log' := log + claims;
    forall j | 0 <= j < |log'| && LastBefore(log', j, |log'|) && !log'[j].skipped
      ensures log'[j].key in trialed + Keys(models)
      ensures log'[j].digest.Some? ==> log'[j].key in after && Some(after[log'[j].key]) == log'[j].digest
    {
      if j < |log| {
        forall k | j < k < |log| ensures log[k].key != log[j].key { assert log'[k].key != log'[j].key; }
        assert LastBefore(log, j, |log|);
        forall m | m in models ensures m.key != log[j].key {
          var n :| 0 <= n < |models| && models[n] == m;
          assert log'[|log| + n].key != log'[j].key;
        }
        ClaimedOther(models, digests, log[j].key);
      } else {
        assert models[j - |log|] in models;
        if log'[j].digest.Some? { ClaimedOwn(models, digests, j - |log|); }
      }
    }
  }

  // ---------- Capacity refusals ----------

  function ArmsOf(candidates: seq<string>, key: string): seq<string> {
    if candidates == [] then []
    else (if key + ":" <= candidates[0] then [candidates[0]] else []) + ArmsOf(candidates[1..], key)
  }

  predicate ShortOn(rows: seq<Row>, candidate: string) {
    exists r :: r in rows && r.candidate == candidate && r.capacityShortfall
  }

  /** The model has arms, and every one of them was refused for capacity. */
  predicate AllShort(candidates: seq<string>, rows: seq<Row>, key: string) {
    ArmsOf(candidates, key) != [] && forall c :: c in ArmsOf(candidates, key) ==> ShortOn(rows, c)
  }

  function AllArms(models: seq<Model>, arms: string -> seq<string>): seq<string> {
    if models == [] then [] else arms(models[0].key) + AllArms(models[1..], arms)
  }

  /** The incumbent is replayed too, and counts among the arms of a model whose prefix it carries. */
  function Candidates(models: seq<Model>, input: Input): seq<string> { [input.incumbent] + AllArms(models, input.arms) }

  function Skipped(models: seq<Model>, candidates: seq<string>, rows: seq<Row>): set<string> {
    set m | m in models && AllShort(candidates, rows, m.key) :: m.key
  }

  /** The claims of a trial whose replay bought nothing. */
  ghost function Marked(log: seq<Claim>, id: string, skipped: set<string>): (after: seq<Claim>)
    ensures |after| == |log|
    ensures forall i :: 0 <= i < |log| ==>
              after[i] == if log[i].id == id && log[i].key in skipped then log[i].(skipped := true) else log[i]
  {
    seq(|log|, i requires 0 <= i < |log| =>
        if log[i].id == id && log[i].key in skipped then log[i].(skipped := true) else log[i])
  }

  /** The trial has the last claim of each of the keys. */
  ghost predicate Latest(log: seq<Claim>, id: string, keys: set<string>) {
    forall j :: 0 <= j < |log| && LastBefore(log, j, |log|) && log[j].key in keys ==> log[j].id == id
  }

  lemma ClaimLatest(log: seq<Claim>, models: seq<Model>, id: string, digests: map<string, string>)
    ensures Latest(log + ClaimsOf(models, id, digests), id, Keys(models))
  {
    var log' := log + ClaimsOf(models, id, digests);
    forall j | 0 <= j < |log'| && LastBefore(log', j, |log'|) && log'[j].key in Keys(models) ensures log'[j].id == id {
      var m :| m in models && m.key == log'[j].key;
      var n :| 0 <= n < |models| && models[n] == m;
      assert log'[|log| + n].key == m.key;
    }
  }

  lemma MarkedJustified(log: seq<Claim>, id: string, skipped: set<string>)
    requires AllJustified(log)
    ensures AllJustified(Marked(log, id, skipped))
  {
    var after := Marked(log, id, skipped);
    forall i | 0 <= i < |after| ensures Justified(after, i) {
      assert Justified(log, i);
      forall j | 0 <= j < i && LastBefore(after, j, i) ensures LastBefore(log, j, i) {
        forall k | j < k < i ensures log[k].key != log[j].key { assert after[k].key != after[j].key; }
      }
    }
  }

  lemma MarkedRemembered(log: seq<Claim>, id: string, skipped: set<string>, trialed: set<string>,
                         digests: map<string, string>)
    requires Remembered(log, trialed, digests) && Latest(log, id, skipped)
    ensures Remembered(Marked(log, id, skipped), trialed - skipped, digests - skipped)
  {
    var after := Marked(log, id, skipped);
    forall j | 0 <= j < |after| && LastBefore(after, j, |after|) && !after[j].skipped
      ensures after[j].key in trialed - skipped
      ensures after[j].digest.Some? ==>
                after[j].key in digests - skipped && Some((digests - skipped)[after[j].key]) == after[j].digest
    {
      forall k | j < k < |log| ensures log[k].key != log[j].key { assert after[k].key != after[j].key; }
      assert LastBefore(log, j, |log|);
    }
  }

  // ---------- The store ----------

  ghost predicate InRegistry(registry: seq<Proposal>, id: string) { exists p :: p in registry && p.id == id }

  ghost predicate DistinctIds(registry: seq<Proposal>) {
    forall i, j :: 0 <= i < j < |registry| ==> registry[i].id != registry[j].id
  }

  ghost predicate IsPending(file: Option<TrialState>, id: string) {
    file.Some? && file.value.pending.Some? && file.value.pending.value.id == id
  }

  /** The trial history on disk accounts for every claim. */
  ghost predicate History(file: Option<TrialState>, log: seq<Claim>) {
    && AllJustified(log)
    && match file
       case None => log == []
       case Some(s) => s.digests.Keys <= s.trialed && Remembered(log, s.trialed, s.digests)
  }

  /** Every claimed trial is proposed, once, or still pending. */
  ghost predicate Proposed(file: Option<TrialState>, registry: seq<Proposal>, claimed: set<string>) {
    && DistinctIds(registry)
    && (forall p :: p in registry ==> p.id in claimed)
    && (forall id :: id in claimed ==> InRegistry(registry, id) || IsPending(file, id))
    && (forall id :: IsPending(file, id) ==> id in claimed)
    && (file.Some? && file.value.pending.Some? && file.value.pending.value.proposal.Some? ==>
          file.value.pending.value.proposal.value.id == file.value.pending.value.id)
  }

  /** Once nothing is pending, every claimed trial has exactly one proposal. */
  lemma ClaimedProposedOnce(file: Option<TrialState>, registry: seq<Proposal>, claimed: set<string>, id: string)
    returns (i: nat)
    requires Proposed(file, registry, claimed) && id in claimed && !IsPending(file, id)
    ensures i < |registry| && registry[i].id == id && forall j :: 0 <= j < |registry| && registry[j].id == id ==> j == i
  {
    var p :| p in registry && p.id == id;
    i :| 0 <= i < |registry| && registry[i] == p;
  }

  /** Some deployed model has never been tried, as far as the history shows. */
  ghost predicate Untried(input: Input, file: Option<TrialState>) {
    exists i :: 0 <= i < |input.deployed|
      && input.deployed[i].key !in (if file.Some? then file.value.trialed else input.history)
  }

  lemma UntriedIsDue(input: Input, file: Option<TrialState>, trialed: set<string>, digests: map<string, string>,
                     models: seq<Model>)
    requires Untried(input, file) && trialed == if file.Some? then file.value.trialed else input.history
    requires forall m :: m in models <==>
               exists i :: 0 <= i < |input.deployed| && input.deployed[i] == m && FirstOfKey(input.deployed, i)
                 && Due(m, trialed, digests)
    ensures models != []
  {
    var i :| 0 <= i < |input.deployed| && input.deployed[i].key !in trialed;
    var first := FirstIndex(input.deployed, i);
    assert Due(input.deployed[first], trialed, digests);
    assert input.deployed[first] in models;
  }

  lemma {:induction false} FirstIndex(deployed: seq<Model>, i: nat) returns (first: nat)
    requires i < |deployed|
    ensures first <= i && deployed[first].key == deployed[i].key && FirstOfKey(deployed, first)
  {
    if FirstOfKey(deployed, i) {
      first := i;
    } else {
      var j :| 0 <= j < i && deployed[j].key == deployed[i].key;
      first := FirstIndex(deployed, j);
    }
  }

  /** The claims one sweep adds at the end are of deployed models, under its own id, and one is skipped only if the
      replay of these very models refused all its arms. */
  ghost predicate Extends(log: seq<Claim>, log': seq<Claim>, input: Input) {
    log <= log' && exists models :: ClaimsFor(log'[|log|..], models, input)
  }

  ghost predicate ClaimsFor(claims: seq<Claim>, models: seq<Model>, input: Input) {
    && |claims| == |models| && (forall m :: m in models ==> m in input.deployed)
    && forall i :: 0 <= i < |claims| ==>
         && claims[i].id == input.uuid && claims[i].key == models[i].key && claims[i].digest == models[i].digest
         && (claims[i].skipped ==> BoughtNothing(input, models, claims[i].key))
  }

  ghost predicate BoughtNothing(input: Input, models: seq<Model>, key: string) {
    && input.replay.Some?
    && var candidates := Candidates(models, input);
    && var rows := input.replay.value(candidates);
    rows.Some? && AllShort(candidates, rows.value, key)
  }

  lemma NothingClaimed(log: seq<Claim>, input: Input)
    ensures Extends(log, log, input)
  {
    assert ClaimsFor(log[|log|..], [], input);
  }

  lemma MarkedExtends(log: seq<Claim>, models: seq<Model>, digests: map<string, string>, input: Input,
                      skipped: set<string>, claimed: set<string>)
    requires (forall c :: c in log ==> c.id in claimed) && input.uuid !in claimed
             && forall m :: m in models ==> m in input.deployed
    requires forall k :: k in skipped ==> BoughtNothing(input, models, k)
    ensures Extends(log, Marked(log + ClaimsOf(models, input.uuid, digests), input.uuid, skipped), input)
    ensures forall c :: c in Marked(log + ClaimsOf(models, input.uuid, digests), input.uuid, skipped) ==>
              c.id in claimed + {input.uuid}
  {
    hide BoughtNothing;
    var after := Marked(log + ClaimsOf(models, input.uuid, digests), input.uuid, skipped);
    forall i | 0 <= i < |log| ensures after[i] == log[i] { assert log[i] in log; }
    assert log == after[..|log|];
    assert ClaimsFor(after[|log|..], models, input);
  }

  lemma NothingMarked(log: seq<Claim>, id: string)
    ensures Marked(log, id, {}) == log
  {
  }

  class Store {
    var file: Option<TrialState>
    var registry: seq<Proposal>
    /** Writes left before the process dies. */
    var writes: nat
    ghost var log: seq<Claim>
    ghost var claimed: set<string>

    ghost predicate Valid()
      reads this
    {
      History(file, log) && Proposed(file, registry, claimed) && forall c :: c in log ==> c.id in claimed
    }

    constructor ()
      ensures Valid() && file == None && log == [] && claimed == {}
    {
      file, registry, writes, log, claimed := None, [], 0, [], {};
    }

    method Save(state: TrialState) returns (alive: bool)
      modifies `file, `writes
      ensures alive == (old(writes) > 0)
      ensures if alive then file == Some(state) && writes == old(writes) - 1
              else file == old(file) && writes == old(writes)
    {
      alive := writes > 0;
      if alive {
        file := Some(state);
        writes := writes - 1;
      }
    }

    /** Adds the pending proposal to the registry unless it is there, then clears it. */
    method Publish(state: TrialState) returns (published: Option<Proposal>)
      requires Valid() && file == Some(state) && state.pending.Some?
      modifies `file, `registry, `writes
      ensures Valid()
      ensures published.Some? ==> published.value.id == state.pending.value.id && file == Some(state.(pending := None))
      ensures old(writes) >= 2 ==> published.Some?
    {
      var pending := state.pending.value;
      var proposal := if pending.proposal.Some? then pending.proposal.value
                      else Proposal(pending.id, "Deployment bake-off interrupted. No completed table is available.");
      if writes == 0 { return None; }
      writes := writes - 1;
      hide History;
      if forall p | p in registry :: p.id != proposal.id {
        PublishKeeps(file, registry, claimed, proposal);
        registry := registry + [proposal];
        assert proposal in registry;
      }
      assert InRegistry(registry, proposal.id);
      hide DistinctIds, InRegistry;
      ghost var before := file;
      var alive := Save(state.(pending := None));
      if !alive { return None; }
      ClearKeeps(before, registry, claimed, proposal.id);
      SameHistory(before, file, log);
      published := Some(proposal);
    }

    /** One sweep, dying after the given number of writes if it gets that far. */
    method Run(input: Input) returns (published: Option<Proposal>)
      requires Valid() && input.uuid !in claimed
      modifies this
      ensures Valid() && old(claimed) <= claimed <= old(claimed) + {input.uuid} && Extends(old(log), log, input)
      ensures published.Some? ==> file.Some? && file.value.pending.None? && published.value.id in claimed
      ensures old(file).Some? && old(file).value.pending.Some? && input.writes >= 2 ==>
                published.Some? && published.value.id == old(file).value.pending.value.id
      ensures (old(file).Some? ==> old(file).value.pending.None?) && input.replay.Some? && Untried(input, old(file)) ==>
                (input.writes >= 2 ==> input.uuid in claimed) && (input.writes >= 5 ==> published.Some?)
    {
      NothingClaimed(log, input);
      writes := input.writes;
      published := None;
      var missing := file.None?;
      var state := if missing then TrialState({}, map[], None) else file.value;
      if state.pending.Some? {
        published := Publish(state);
        return;
      }
      if input.replay.None? { return; }
      if missing { state := state.(trialed := state.trialed + input.history); }
      var digests := Adopt(input.deployed, state.trialed, state.digests);
      state := state.(digests := digests);
      var models := FindUntrialed(input.deployed, state.trialed, state.digests);
      if Untried(input, file) { UntriedIsDue(input, file, state.trialed, digests, models); }
      ghost var before := file;
      var alive := Save(state);
      if !alive { return; }
      AdoptKeeps(before, file, log, registry, claimed);
      if models == [] { return; }
      published := ClaimAndReplay(input, state, models);
    }

    method ClaimAndReplay(input: Input, state: TrialState, models: seq<Model>) returns (published: Option<Proposal>)
      requires Valid() && file == Some(state) && state.pending.None? && input.uuid !in claimed && input.replay.Some?
      requires DistinctKeys(models)
               && forall m :: m in models ==> m in input.deployed && Due(m, state.trialed, state.digests)
      modifies this
      ensures Valid() && old(claimed) <= claimed <= old(claimed) + {input.uuid} && Extends(old(log), log, input)
      ensures published.Some? ==> file.Some? && file.value.pending.None? && published.value.id in claimed
      ensures (old(writes) >= 1 ==> input.uuid in claimed) && (old(writes) >= 4 ==> published.Some?)
    {
      hide History, Proposed, Extends, ClaimsOf, Marked, Candidates, Claimed, AllShort, Due, DistinctKeys,
           BoughtNothing;
      var id := input.uuid;
      var keys := seq(|models|, i requires 0 <= i < |models| => models[i].key);
      var s := TrialState(state.trialed + Keys(models), Claimed(models, state.digests), Some(Pending(id, keys, None)));
      var alive := Save(s);
      if !alive {
        NothingClaimed(log, input);
        return None;
      }
      ClaimKeeps(state, s, log, registry, claimed, models, id);
      log, claimed := log + ClaimsOf(models, id, state.digests), claimed + {id};
      MarkedExtends(old(log), models, state.digests, input, {}, old(claimed));
      NothingMarked(log, id);
      // The paid replay.
      var candidates := Candidates(models, input);
      var rows := input.replay.value(candidates);
      var skipped: set<string> := {};
      var summary := "Deployment bake-off failed.";
      if rows.Some? {
        skipped := Skipped(models, candidates, rows.value);
        summary := "Deployment bake-off.";
      }
      ghost var claim := s;
      s := TrialState(s.trialed - skipped, s.digests - skipped, Some(Pending(id, keys, Some(Proposal(id, summary)))));
      alive := Save(s);
      if !alive { return None; }
      OutcomeKeeps(claim, s, log, registry, claimed, id, skipped, Keys(models));
      SkippedRefused(input, models, candidates, rows, skipped);
      MarkedExtends(old(log), models, state.digests, input, skipped, old(claimed));
      log := Marked(log, id, skipped);
      published := Publish(s);
    }
  }

  lemma SkippedRefused(input: Input, models: seq<Model>, candidates: seq<string>, rows: Option<seq<Row>>,
                       skipped: set<string>)
    requires candidates == Candidates(models, input) && input.replay.Some? && rows == input.replay.value(candidates)
    requires skipped == if rows.Some? then Skipped(models, candidates, rows.value) else {}
    ensures forall k :: k in skipped ==> BoughtNothing(input, models, k)
  {
    hide AllShort;
  }

  lemma SameHistory(file: Option<TrialState>, file': Option<TrialState>, log: seq<Claim>)
    requires History(file, log) && file.Some? && file' == Some(file.value.(pending := None))
    ensures History(file', log)
  {
  }

  lemma PublishKeeps(file: Option<TrialState>, registry: seq<Proposal>, claimed: set<string>, proposal: Proposal)
    requires Proposed(file, registry, claimed) && IsPending(file, proposal.id)
    requires forall p :: p in registry ==> p.id != proposal.id
    ensures Proposed(file, registry + [proposal], claimed)
  {
    var registry' := registry + [proposal];
    forall id | id in claimed ensures InRegistry(registry', id) || IsPending(file, id) {
      if InRegistry(registry, id) {
        var p :| p in registry && p.id == id;
        assert p in registry';
      }
    }
  }

  lemma ClearKeeps(file: Option<TrialState>, registry: seq<Proposal>, claimed: set<string>, id: string)
    requires Proposed(file, registry, claimed) && IsPending(file, id) && InRegistry(registry, id)
    ensures Proposed(Some(file.value.(pending := None)), registry, claimed)
  {
  }

  lemma AdoptKeeps(file: Option<TrialState>, file': Option<TrialState>, log: seq<Claim>, registry: seq<Proposal>,
                   claimed: set<string>)
    requires History(file, log) && Proposed(file, registry, claimed) && file'.Some? && file'.value.pending.None?
    requires file.Some? ==> file.value.pending.None? && file'.value.trialed == file.value.trialed
    requires file.Some? ==> forall k :: k in file.value.digests ==>
               k in file'.value.digests && file'.value.digests[k] == file.value.digests[k]
    requires file'.value.digests.Keys <= file'.value.trialed
    ensures History(file', log) && Proposed(file', registry, claimed)
  {
  }

  lemma ClaimKeeps(state: TrialState, s: TrialState, log: seq<Claim>, registry: seq<Proposal>, claimed: set<string>,
                   models: seq<Model>, id: string)
    requires History(Some(state), log) && Proposed(Some(state), registry, claimed) && state.pending.None?
             && id !in claimed
    requires DistinctKeys(models) && forall m :: m in models ==> Due(m, state.trialed, state.digests)
    requires s.trialed == state.trialed + Keys(models) && s.digests == Claimed(models, state.digests)
    requires s.pending.Some? && s.pending.value.id == id && s.pending.value.proposal.None?
    ensures History(Some(s), log + ClaimsOf(models, id, state.digests)) && Proposed(Some(s), registry, claimed + {id})
    ensures Latest(log + ClaimsOf(models, id, state.digests), id, Keys(models))
  {
    hide AllJustified, Remembered, Claimed, Keys, Due, DistinctKeys, Latest;
    ClaimJustified(log, models, id, state.trialed, state.digests);
    ClaimRemembered(log, models, id, state.trialed, state.digests);
    ClaimedKeys(models, state.digests);
    ClaimLatest(log, models, id, state.digests);
  }

  lemma OutcomeKeeps(claim: TrialState, s: TrialState, log: seq<Claim>, registry: seq<Proposal>, claimed: set<string>,
                     id: string, skipped: set<string>, keys: set<string>)
    requires History(Some(claim), log) && Proposed(Some(claim), registry, claimed) && IsPending(Some(claim), id)
    requires Latest(log, id, keys) && skipped <= keys
    requires s.trialed == claim.trialed - skipped && s.digests == claim.digests - skipped
    requires s.pending.Some? && s.pending.value.id == id && s.pending.value.proposal.Some?
    requires s.pending.value.proposal.value.id == id
    ensures History(Some(s), Marked(log, id, skipped)) && Proposed(Some(s), registry, claimed)
  {
    hide AllJustified, Remembered;
    MarkedJustified(log, id, skipped);
    MarkedRemembered(log, id, skipped, claim.trialed, claim.digests);
  }

  /** Any number of sweeps, each dying wherever it may. */
  method Sweeps(inputs: seq<Input>) returns (store: Store)
    requires forall i, j :: 0 <= i < j < |inputs| ==> inputs[i].uuid != inputs[j].uuid
    ensures store.Valid() && forall id :: id in store.claimed ==> exists i :: 0 <= i < |inputs| && inputs[i].uuid == id
  {
    store := new Store();
    for n := 0 to |inputs|
      invariant fresh(store) && store.Valid()
      invariant forall id :: id in store.claimed ==> exists i :: 0 <= i < n && inputs[i].uuid == id
    {
      var published := store.Run(inputs[n]);
    }
  }
}
