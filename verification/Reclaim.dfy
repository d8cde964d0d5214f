/** One reclaiming pass over the pending candidates, and what any number of budgeted passes reach. */
module Reclaim {
  import opened Wrappers
  import opened Discovery

  /** What inspecting a candidate finds; `signature` names the payload of a package directory. */
  datatype Inspection = OutOfBudget | Held | Eligible(signature: string)
  datatype RemovalAnswer = Done | Unverified | Refused | BudgetSpent

  type Inspect = Candidate -> Inspection
  type Remove = Candidate -> RemovalAnswer

  datatype End = Complete | Exhausted | RemovedUnverified

  /** `attempted` candidates were taken in rotated order, the last of them undecided when the pass was exhausted. */
  datatype Report = Report(end: End, attempted: nat, cursor: Option<string>, removed: seq<Candidate>,
                           anchors: map<string, Candidate>)

  ghost predicate DistinctTargets(pending: seq<Candidate>) {
    forall i, j :: 0 <= i < j < |pending| ==> pending[i].target != pending[j].target
  }

  function OffsetOf(pending: seq<Candidate>, cursor: Option<string>): (offset: nat)
    ensures pending != [] ==> offset < |pending|
    ensures pending == [] ==> offset == 0
    ensures cursor.None? ==> offset == 0
    ensures (exists i :: 0 <= i < |pending| && Some(pending[i].target) == cursor) ==>
              Some(pending[offset].target) == cursor
  {
    if pending == [] then 0
    else if Some(pending[0].target) == cursor then 0
    else
      var rest := OffsetOf(pending[1..], cursor);
      if pending[1..] != [] && Some(pending[1..][rest].target) == cursor then 1 + rest
      else assert forall i :: 1 <= i < |pending| ==> pending[i] == pending[1..][i - 1]; 0
  }

  function Rotated(pending: seq<Candidate>, offset: nat): (order: seq<Candidate>)
    requires offset <= |pending|
    ensures |order| == |pending|
  {
    pending[offset..] + pending[..offset]
  }

  /** `x` modulo `n`, for `x` less than twice `n`. */
  function Wrap(n: nat, x: nat): nat { if x < n then x else x - n }

  lemma RotatedAt(pending: seq<Candidate>, offset: nat, i: nat)
    requires offset < |pending| && i < |pending|
    ensures Rotated(pending, offset)[i] == pending[Wrap(|pending|, offset + i)]
  {
  }

  // ---------- What a pass should do ----------

  /** A package candidate earlier in the order that was eligible with the same payload. */
  ghost predicate HasAnchor(order: seq<Candidate>, inspect: Inspect, i: nat)
    requires i < |order| && inspect(order[i]).Eligible?
  {
    exists j :: 0 <= j < i && order[j].kind == Packages && inspect(order[j]) == inspect(order[i])
  }

  /** Removal of the candidate is tried. */
  ghost predicate Tried(order: seq<Candidate>, inspect: Inspect, apply: bool, i: nat)
    requires i < |order|
  {
    apply && inspect(order[i]).Eligible? && (order[i].kind == Packages ==> HasAnchor(order, inspect, i))
  }

  ghost predicate Exhausts(order: seq<Candidate>, inspect: Inspect, remove: Remove, apply: bool, i: nat)
    requires i < |order|
  {
    inspect(order[i]).OutOfBudget? || (Tried(order, inspect, apply, i) && remove(order[i]).BudgetSpent?)
  }

  ghost predicate Removes(order: seq<Candidate>, inspect: Inspect, remove: Remove, apply: bool, i: nat)
    requires i < |order|
  {
    Tried(order, inspect, apply, i) && (remove(order[i]).Done? || remove(order[i]).Unverified?)
  }

  /** The anchors after the first `n` of the order: each payload met so far has its first holder. */
  ghost predicate AnchorsOf(anchors: map<string, Candidate>, order: seq<Candidate>, inspect: Inspect, n: nat)
    requires n <= |order|
  {
    && (forall s :: s in anchors ==>
          exists j :: 0 <= j < n && order[j] == anchors[s] && order[j].kind == Packages
                      && inspect(order[j]) == Eligible(s) && !HasAnchor(order, inspect, j))
    && forall j :: 0 <= j < n && order[j].kind == Packages && inspect(order[j]).Eligible? ==>
         inspect(order[j]).signature in anchors
  }

  ghost predicate RemovedOf(removed: seq<Candidate>, order: seq<Candidate>, inspect: Inspect, remove: Remove,
                            apply: bool, n: nat)
    requires n <= |order|
  {
    && (forall c :: c in removed ==>
        exists j :: 0 <= j < n && order[j] == c && Removes(order, inspect, remove, apply, j))
    && forall j :: 0 <= j < n && Removes(order, inspect, remove, apply, j) ==> order[j] in removed
  }

  /** Where the next pass starts when this one stops at `i`. */
  ghost function Resume(order: seq<Candidate>, i: nat): Option<string>
    requires i < |order|
  {
    if i == 0 then Some(order[if 1 < |order| then 1 else 0].target) else Some(order[i].target)
  }

  ghost predicate Reports(r: Report, order: seq<Candidate>, inspect: Inspect, remove: Remove, apply: bool) {
    && r.attempted <= |order|
    && RemovedOf(r.removed, order, inspect, remove, apply, r.attempted)
    && AnchorsOf(r.anchors, order, inspect, r.attempted)
    && match r.end
       case Complete =>
         && r.attempted == |order| && r.cursor == None
         && (forall j :: 0 <= j < |order| ==> !Exhausts(order, inspect, remove, apply, j))
       case Exhausted =>
         && r.attempted > 0 && r.cursor == Resume(order, r.attempted - 1)
         && Exhausts(order, inspect, remove, apply, r.attempted - 1)
         && (forall j :: 0 <= j < r.attempted - 1 ==> !Exhausts(order, inspect, remove, apply, j))
       case RemovedUnverified =>
         && r.attempted > 0 && r.cursor == Some(order[r.attempted - 1].target)
         && (forall j :: 0 <= j < r.attempted ==> !Exhausts(order, inspect, remove, apply, j))
  }

  // ---------- The pass ----------

  /** The loop has decided the first `n` candidates. */
  ghost predicate Decided(anchors: map<string, Candidate>, removed: seq<Candidate>, order: seq<Candidate>,
                          inspect: Inspect, remove: Remove, apply: bool, n: nat)
    requires n <= |order|
  {
    && AnchorsOf(anchors, order, inspect, n) && RemovedOf(removed, order, inspect, remove, apply, n)
    && forall j :: 0 <= j < n ==> !Exhausts(order, inspect, remove, apply, j)
  }

  method ReclaimPass(pending: seq<Candidate>, cursor: Option<string>, inspect: Inspect, remove: Remove, apply: bool)
    returns (r: Report)
    ensures Reports(r, Rotated(pending, OffsetOf(pending, cursor)), inspect, remove, apply)
  {
    var offset := OffsetOf(pending, cursor);
    var order := pending[offset..] + pending[..offset];
    var next, removed: seq<Candidate>, anchors: map<string, Candidate> := cursor, [], map[];
    assert order == Rotated(pending, offset) && Decided(anchors, removed, order, inspect, remove, apply, 0);
    hide *;
    for i := 0 to |order|
      invariant Decided(anchors, removed, order, inspect, remove, apply, i)
    {
      var c := order[i];
      next := Some(c.target);
      var seen := inspect(c);
      StepDecides(anchors, removed, order, inspect, remove, apply, i);
      if seen.OutOfBudget? {
        if i == 0 { next := Some(order[if 1 < |order| then 1 else 0].target); }
        return Report(Exhausted, i + 1, next, removed, anchors);
      }
      if seen.Eligible? {
        if c.kind == Packages && seen.signature !in anchors {
          anchors := anchors[seen.signature := c];
        } else if apply {
          var answer := remove(c);
          if answer.BudgetSpent? {
            if i == 0 { next := Some(order[if 1 < |order| then 1 else 0].target); }
            return Report(Exhausted, i + 1, next, removed, anchors);
          }
          if answer.Unverified? { return Report(RemovedUnverified, i + 1, next, removed + [c], anchors); }
          if answer.Done? { removed := removed + [c]; }
        }
      }
      next := Some(order[if i + 1 < |order| then i + 1 else 0].target);
    }
    AllDecided(anchors, removed, order, inspect, remove, apply);
    r := Report(Complete, |order|, None, removed, anchors);
  }

  lemma AllDecided(anchors: map<string, Candidate>, removed: seq<Candidate>, order: seq<Candidate>,
                   inspect: Inspect, remove: Remove, apply: bool)
    requires Decided(anchors, removed, order, inspect, remove, apply, |order|)
    ensures Reports(Report(Complete, |order|, None, removed, anchors), order, inspect, remove, apply)
  {
    hide AnchorsOf, RemovedOf, Exhausts;
  }

  /** Every way one turn of the loop can go. */
  lemma StepDecides(anchors: map<string, Candidate>, removed: seq<Candidate>, order: seq<Candidate>,
                    inspect: Inspect, remove: Remove, apply: bool, i: nat)
    requires i < |order| && Decided(anchors, removed, order, inspect, remove, apply, i)
    ensures var c := order[i];
            var next := if i == 0 then Some(order[if 1 < |order| then 1 else 0].target) else Some(c.target);
            match inspect(c)
            case OutOfBudget => Reports(Report(Exhausted, i + 1, next, removed, anchors), order, inspect, remove, apply)
            case Held => Decided(anchors, removed, order, inspect, remove, apply, i + 1)
            case Eligible(s) =>
              if c.kind == Packages && s !in anchors then
                Decided(anchors[s := c], removed, order, inspect, remove, apply, i + 1)
              else if !apply then Decided(anchors, removed, order, inspect, remove, apply, i + 1)
              else
                match remove(c)
                case Done => Decided(anchors, removed + [c], order, inspect, remove, apply, i + 1)
                case Refused => Decided(anchors, removed, order, inspect, remove, apply, i + 1)
                case BudgetSpent =>
                  Reports(Report(Exhausted, i + 1, next, removed, anchors), order, inspect, remove, apply)
                case Unverified =>
                  Reports(Report(RemovedUnverified, i + 1, Some(c.target), removed + [c], anchors), order, inspect,
                          remove, apply)
  {
    hide AnchorsOf, RemovedOf, HasAnchor;
    AnchorStep(anchors, order, inspect, i);
    RemovedStep(removed, order, inspect, remove, apply, i);
  }

  lemma AnchorStep(anchors: map<string, Candidate>, order: seq<Candidate>, inspect: Inspect, i: nat)
    requires i < |order| && AnchorsOf(anchors, order, inspect, i)
    ensures inspect(order[i]).Eligible? ==> (HasAnchor(order, inspect, i) <==> inspect(order[i]).signature in anchors)
    ensures inspect(order[i]).Eligible? && order[i].kind == Packages && inspect(order[i]).signature !in anchors ==>
              AnchorsOf(anchors[inspect(order[i]).signature := order[i]], order, inspect, i + 1)
    ensures !(inspect(order[i]).Eligible? && order[i].kind == Packages && inspect(order[i]).signature !in anchors) ==>
              AnchorsOf(anchors, order, inspect, i + 1)
  {
  }

  lemma RemovedStep(removed: seq<Candidate>, order: seq<Candidate>, inspect: Inspect, remove: Remove, apply: bool,
                    i: nat)
    requires i < |order| && RemovedOf(removed, order, inspect, remove, apply, i)
    ensures Removes(order, inspect, remove, apply, i) ==>
              RemovedOf(removed + [order[i]], order, inspect, remove, apply, i + 1)
    ensures !Removes(order, inspect, remove, apply, i) ==> RemovedOf(removed, order, inspect, remove, apply, i + 1)
  {
    hide Removes;
  }

  // ---------- Anchors ----------

  /** A removed package directory leaves behind another one with the same payload, not removed in the pass. */
  lemma RemovedHasAnchor(r: Report, order: seq<Candidate>, inspect: Inspect, remove: Remove, apply: bool, c: Candidate)
    requires DistinctTargets(order) && Reports(r, order, inspect, remove, apply) && c in r.removed && c.kind == Packages
    ensures inspect(c).Eligible? && inspect(c).signature in r.anchors
    ensures var anchor := r.anchors[inspect(c).signature];
            anchor != c && anchor in order && anchor.kind == Packages && inspect(anchor) == inspect(c)
            && anchor !in r.removed
  {
    hide DistinctTargets;
    var j :| 0 <= j < r.attempted && order[j] == c && Removes(order, inspect, remove, apply, j);
    var s := inspect(c).signature;
    var k :| 0 <= k < r.attempted && order[k] == r.anchors[s] && order[k].kind == Packages
      && inspect(order[k]) == Eligible(s) && !HasAnchor(order, inspect, k);
    if order[k] in r.removed {
      var m :| 0 <= m < r.attempted && order[m] == order[k] && Removes(order, inspect, remove, apply, m);
      SameTarget(order, m, k);
    }
  }

  lemma SameTarget(order: seq<Candidate>, i: nat, j: nat)
    requires DistinctTargets(order) && i < |order| && j < |order| && order[i] == order[j]
    ensures i == j
  {
    assert order[i].target == order[j].target;
  }

  lemma RotatedDistinct(pending: seq<Candidate>, offset: nat)
    requires DistinctTargets(pending) && offset < |pending|
    ensures DistinctTargets(Rotated(pending, offset))
  {
    hide Rotated;
    var order := Rotated(pending, offset);
    forall i, j | 0 <= i < j < |order| ensures order[i].target != order[j].target {
      RotatedAt(pending, offset, i);
      RotatedAt(pending, offset, j);
      var a, b := Wrap(|pending|, offset + i), Wrap(|pending|, offset + j);
      assert a < b || b < a;
    }
  }

  // ---------- Rotation ----------

  /** How a pass over `n` candidates stopped: after the last, or exhausted at an index of its own order. */
  datatype Stop = Finished | At(index: nat)

  function StopOf(r: Report): Stop {
    if r.end.Complete? || r.attempted == 0 then Finished else At(r.attempted - 1)
  }

  function NextOffset(n: nat, offset: nat, stop: Stop): nat
    requires offset < n && (stop.At? ==> stop.index < n)
    ensures NextOffset(n, offset, stop) < n
  {
    match stop
    case Finished => 0
    case At(i) => Wrap(n, offset + if i == 0 then 1 else i)
  }

  /** How far into a pass that starts at `offset` candidate `c` comes. */
  function Distance(n: nat, offset: nat, c: nat): nat
    requires offset < n && c < n
  {
    if c >= offset then c - offset else c + n - offset
  }

  predicate Attempts(n: nat, offset: nat, stop: Stop, c: nat)
    requires offset < n && c < n
  {
    stop.Finished? || Distance(n, offset, c) <= stop.index
  }

  /** The candidate is decided, or had a whole pass's budget to itself. */
  predicate Settles(n: nat, offset: nat, stop: Stop, c: nat)
    requires offset < n && c < n
  {
    stop.Finished? || Distance(n, offset, c) < stop.index || Distance(n, offset, c) == 0
  }

  ghost predicate StopsFit(n: nat, stops: seq<Stop>) {
    forall k :: 0 <= k < |stops| ==> stops[k].At? ==> stops[k].index < n
  }

  /** Where pass `k` starts. */
  function Start(n: nat, offset: nat, stops: seq<Stop>, k: nat): (o: nat)
    requires offset < n && k <= |stops| && StopsFit(n, stops)
    ensures o < n
  {
    if k == 0 then offset else NextOffset(n, Start(n, offset, stops, k - 1), stops[k - 1])
  }

  /** An exhausted pass that misses a candidate leaves it strictly nearer. */
  lemma Nearer(n: nat, offset: nat, stop: Stop, c: nat)
    requires offset < n && c < n && (stop.At? ==> stop.index < n) && !Attempts(n, offset, stop, c)
    ensures Distance(n, NextOffset(n, offset, stop), c) < Distance(n, offset, c)
  {
  }

  lemma {:induction false} ReachedFrom(n: nat, offset: nat, stops: seq<Stop>, c: nat, k: nat) returns (m: nat)
    requires offset < n && c < n && StopsFit(n, stops) && k <= |stops|
    requires k + Distance(n, Start(n, offset, stops, k), c) < |stops|
    ensures k <= m <= k + Distance(n, Start(n, offset, stops, k), c)
    ensures Attempts(n, Start(n, offset, stops, m), stops[m], c)
    decreases Distance(n, Start(n, offset, stops, k), c)
  {
    hide Start, Attempts, Distance, NextOffset;
    var here := Start(n, offset, stops, k);
    if Attempts(n, here, stops[k], c) {
      m := k;
    } else {
      Nearer(n, here, stops[k], c);
      StartNext(n, offset, stops, k);
      m := ReachedFrom(n, offset, stops, c, k + 1);
    }
  }

  lemma StartNext(n: nat, offset: nat, stops: seq<Stop>, k: nat)
    requires offset < n && k < |stops| && StopsFit(n, stops)
    ensures Start(n, offset, stops, k + 1) == NextOffset(n, Start(n, offset, stops, k), stops[k])
  {
  }

  /** Any `n` consecutive passes reach every candidate, whatever exhausts them. */
  lemma EveryIndexAttempted(n: nat, offset: nat, stops: seq<Stop>, c: nat) returns (k: nat)
    requires offset < n && c < n && StopsFit(n, stops) && |stops| >= n
    ensures k < n && Attempts(n, Start(n, offset, stops, k), stops[k], c)
  {
    k := ReachedFrom(n, offset, stops, c, 0);
  }

  lemma EveryIndexSettled(n: nat, offset: nat, stops: seq<Stop>, c: nat) returns (k: nat)
    requires offset < n && c < n && StopsFit(n, stops) && |stops| >= n + 1
    ensures k <= n && Settles(n, Start(n, offset, stops, k), stops[k], c)
  {
    k := EveryIndexAttempted(n, offset, stops, c);
    var here := Start(n, offset, stops, k);
    if !Settles(n, here, stops[k], c) {
      StartNext(n, offset, stops, k);
      assert NextOffset(n, here, stops[k]) == c;
      k := k + 1;
    }
  }

  // ---------- Runs of passes ----------

  /** What the world answers in one pass. */
  datatype Day = Day(inspect: Inspect, remove: Remove)

  /** The order of the pass that starts from a cursor. */
  function OrderFrom(pending: seq<Candidate>, cursor: Option<string>): (order: seq<Candidate>)
    ensures |order| == |pending|
  {
    Rotated(pending, OffsetOf(pending, cursor))
  }

  function CursorBefore(cursor: Option<string>, reports: seq<Report>, k: nat): Option<string>
    requires k <= |reports|
  {
    if k == 0 then cursor else reports[k - 1].cursor
  }

  /** Pass `k` of a run over one list of candidates: it starts where the one before it left the cursor. */
  ghost predicate IsPass(pending: seq<Candidate>, cursor: Option<string>, days: seq<Day>, apply: bool,
                         reports: seq<Report>, k: nat)
    requires k < |reports| <= |days|
  {
    Reports(reports[k], OrderFrom(pending, CursorBefore(cursor, reports, k)), days[k].inspect, days[k].remove, apply)
  }

  /** Passes over one list, none of them ended by a removal it could not verify. */
  ghost predicate IsRun(pending: seq<Candidate>, cursor: Option<string>, days: seq<Day>, apply: bool,
                        reports: seq<Report>)
  {
    && |reports| <= |days|
    && forall k :: 0 <= k < |reports| ==>
         IsPass(pending, cursor, days, apply, reports, k) && !reports[k].end.RemovedUnverified?
  }

  /** Pass after pass, each with the answers of its day; an unverified removal ends the run. */
  method ReclaimPasses(pending: seq<Candidate>, cursor: Option<string>, days: seq<Day>, apply: bool)
    returns (reports: seq<Report>, unverified: Option<Report>)
    ensures IsRun(pending, cursor, days, apply, reports)
    ensures unverified.None? ==> |reports| == |days|
    ensures unverified.Some? ==>
              && |reports| < |days| && unverified.value.end.RemovedUnverified?
              && Reports(unverified.value, OrderFrom(pending, CursorBefore(cursor, reports, |reports|)),
                         days[|reports|].inspect, days[|reports|].remove, apply)
  {
    hide Reports, Rotated, OffsetOf;
    reports := [];
    var at := cursor;
    for k := 0 to |days|
      invariant |reports| == k && IsRun(pending, cursor, days, apply, reports) && at == CursorBefore(cursor, reports, k)
    {
      var r := ReclaimPass(pending, at, days[k].inspect, days[k].remove, apply);
      if r.end.RemovedUnverified? { return reports, Some(r); }
      OnePassMore(pending, cursor, days, apply, reports, r);
      reports, at := reports + [r], r.cursor;
    }
    unverified := None;
  }

  lemma OnePassMore(pending: seq<Candidate>, cursor: Option<string>, days: seq<Day>, apply: bool, reports: seq<Report>,
                    r: Report)
    requires IsRun(pending, cursor, days, apply, reports) && |reports| < |days| && !r.end.RemovedUnverified?
    requires Reports(r, OrderFrom(pending, CursorBefore(cursor, reports, |reports|)), days[|reports|].inspect,
                     days[|reports|].remove, apply)
    ensures IsRun(pending, cursor, days, apply, reports + [r])
  {
    hide Reports, OrderFrom;
    var more := reports + [r];
    forall k | 0 <= k < |more|
      ensures IsPass(pending, cursor, days, apply, more, k) && !more[k].end.RemovedUnverified?
    {
      assert CursorBefore(cursor, more, k) == CursorBefore(cursor, reports, k);
      if k < |reports| { assert IsPass(pending, cursor, days, apply, reports, k); }
    }
  }

  /** A pass as a rotation: what it attempts, and where the next one starts. */
  lemma PassRotates(r: Report, pending: seq<Candidate>, cursor: Option<string>, inspect: Inspect, remove: Remove,
                    apply: bool, c: nat)
    requires DistinctTargets(pending) && c < |pending| && !r.end.RemovedUnverified?
    requires Reports(r, OrderFrom(pending, cursor), inspect, remove, apply)
    ensures var n, offset, stop := |pending|, OffsetOf(pending, cursor), StopOf(r);
            && (stop.At? ==> stop.index < n)
            && OffsetOf(pending, r.cursor) == NextOffset(n, offset, stop)
            && (Attempts(n, offset, stop, c) <==> pending[c] in OrderFrom(pending, cursor)[..r.attempted])
  {
    hide RemovedOf, AnchorsOf, Exhausts, DistinctTargets, Rotated, OffsetOf;
    var n, offset, stop := |pending|, OffsetOf(pending, cursor), StopOf(r);
    var order := Rotated(pending, offset);
    if stop.At? {
      var i := if stop.index == 0 then (if 1 < n then 1 else 0) else stop.index;
      RotatedAt(pending, offset, i);
      OffsetOfTarget(pending, Wrap(n, offset + i));
    }
    RotatedAt(pending, offset, Distance(n, offset, c));
    assert pending[c] == order[Distance(n, offset, c)];
    RotatedDistinct(pending, offset);
    if Distance(n, offset, c) < r.attempted {
      assert order[..r.attempted][Distance(n, offset, c)] == pending[c];
    }
    if pending[c] in order[..r.attempted] {
      var k :| 0 <= k < r.attempted && order[..r.attempted][k] == pending[c];
      SameTarget(order, k, Distance(n, offset, c));
    }
  }

  /** The pass came to the candidate and decided it, or came to it first of all and ran out there. */
  ghost predicate SettledIn(order: seq<Candidate>, day: Day, apply: bool, attempted: nat, candidate: Candidate)
    requires attempted <= |order|
  {
    exists i :: 0 <= i < attempted && order[i] == candidate
                && (!Exhausts(order, day.inspect, day.remove, apply, i) || i == 0)
  }

  lemma PassSettles(r: Report, pending: seq<Candidate>, cursor: Option<string>, day: Day, apply: bool, c: nat)
    requires DistinctTargets(pending) && c < |pending| && !r.end.RemovedUnverified?
    requires Reports(r, OrderFrom(pending, cursor), day.inspect, day.remove, apply)
    requires Settles(|pending|, OffsetOf(pending, cursor), StopOf(r), c)
    ensures SettledIn(OrderFrom(pending, cursor), day, apply, r.attempted, pending[c])
  {
    hide RemovedOf, AnchorsOf, Exhausts, DistinctTargets, Rotated, OffsetOf;
    var offset := OffsetOf(pending, cursor);
    var i := Distance(|pending|, offset, c);
    RotatedAt(pending, offset, i);
    assert OrderFrom(pending, cursor)[i] == pending[c];
  }

  /** The stops of the passes of a run from `from` on. */
  function StopsFrom(reports: seq<Report>, from: nat): (stops: seq<Stop>)
    requires from <= |reports|
    ensures |stops| == |reports| - from && forall k :: 0 <= k < |stops| ==> stops[k] == StopOf(reports[from + k])
  {
    seq(|reports| - from, k requires 0 <= k < |reports| - from => StopOf(reports[from + k]))
  }

  lemma RunPass(pending: seq<Candidate>, cursor: Option<string>, days: seq<Day>, apply: bool, reports: seq<Report>,
                k: nat)
    requires DistinctTargets(pending) && pending != [] && IsRun(pending, cursor, days, apply, reports) && k < |reports|
    ensures var n, stop := |pending|, StopOf(reports[k]);
            && (stop.At? ==> stop.index < n)
            && OffsetOf(pending, CursorBefore(cursor, reports, k + 1))
                 == NextOffset(n, OffsetOf(pending, CursorBefore(cursor, reports, k)), stop)
  {
    hide DistinctTargets, OffsetOf, Reports, OrderFrom, NextOffset, Attempts, StopOf;
    assert IsPass(pending, cursor, days, apply, reports, k);
    PassRotates(reports[k], pending, CursorBefore(cursor, reports, k), days[k].inspect, days[k].remove, apply, 0);
  }

  lemma RunStopsFit(pending: seq<Candidate>, cursor: Option<string>, days: seq<Day>, apply: bool, reports: seq<Report>,
                    from: nat)
    requires DistinctTargets(pending) && pending != [] && IsRun(pending, cursor, days, apply, reports)
    requires from <= |reports|
    ensures StopsFit(|pending|, StopsFrom(reports, from))
  {
    hide DistinctTargets, IsRun, StopOf, OffsetOf, StopsFrom;
    var stops := StopsFrom(reports, from);
    forall k | 0 <= k < |stops| ensures stops[k].At? ==> stops[k].index < |pending| {
      RunPass(pending, cursor, days, apply, reports, from + k);
    }
  }

  /** A run of the program is a run of rotations. */
  lemma {:induction false} RunRotates(pending: seq<Candidate>, cursor: Option<string>, days: seq<Day>, apply: bool,
                                      reports: seq<Report>, from: nat, k: nat)
    requires DistinctTargets(pending) && pending != [] && IsRun(pending, cursor, days, apply, reports)
    requires from + k <= |reports|
    ensures StopsFit(|pending|, StopsFrom(reports, from))
    ensures Start(|pending|, OffsetOf(pending, CursorBefore(cursor, reports, from)), StopsFrom(reports, from), k)
              == OffsetOf(pending, CursorBefore(cursor, reports, from + k))
  {
    hide *;
    RunStopsFit(pending, cursor, days, apply, reports, from);
    var n, offset, stops := |pending|, OffsetOf(pending, CursorBefore(cursor, reports, from)), StopsFrom(reports, from);
    if k == 0 {
      StartFirst(n, offset, stops);
    } else {
      RunRotates(pending, cursor, days, apply, reports, from, k - 1);
      RunPass(pending, cursor, days, apply, reports, from + k - 1);
      StartNext(n, offset, stops, k - 1);
    }
  }

  lemma StartFirst(n: nat, offset: nat, stops: seq<Stop>)
    requires offset < n && StopsFit(n, stops)
    ensures Start(n, offset, stops, 0) == offset
  {
  }

  /** Any `n` consecutive passes over a fixed list of `n` candidates attempt every one, whatever exhausts them. */
  lemma EveryCandidateAttempted(pending: seq<Candidate>, cursor: Option<string>, days: seq<Day>, apply: bool,
                                reports: seq<Report>, from: nat, c: nat)
    returns (k: nat)
    requires DistinctTargets(pending) && IsRun(pending, cursor, days, apply, reports)
    requires c < |pending| && from + |pending| <= |reports|
    ensures from <= k < from + |pending| && reports[k].attempted <= |pending|
    ensures pending[c] in OrderFrom(pending, CursorBefore(cursor, reports, k))[..reports[k].attempted]
  {
    hide DistinctTargets, OffsetOf, OrderFrom, Attempts, Start, StopsFit;
    RunRotates(pending, cursor, days, apply, reports, from, 0);
    var m := EveryIndexAttempted(|pending|, OffsetOf(pending, CursorBefore(cursor, reports, from)),
                                 StopsFrom(reports, from), c);
    k := from + m;
    RunRotates(pending, cursor, days, apply, reports, from, m);
    assert IsPass(pending, cursor, days, apply, reports, k);
    PassRotates(reports[k], pending, CursorBefore(cursor, reports, k), days[k].inspect, days[k].remove, apply, c);
  }

  /** Within any `n + 1` consecutive passes every candidate is decided, or has exhausted the budget as the head of a
      pass. */
  lemma EveryCandidateSettled(pending: seq<Candidate>, cursor: Option<string>, days: seq<Day>, apply: bool,
                              reports: seq<Report>, from: nat, c: nat)
    returns (k: nat)
    requires DistinctTargets(pending) && IsRun(pending, cursor, days, apply, reports)
    requires c < |pending| && from + |pending| + 1 <= |reports|
    ensures from <= k <= from + |pending| && reports[k].attempted <= |pending|
    ensures SettledIn(OrderFrom(pending, CursorBefore(cursor, reports, k)), days[k], apply, reports[k].attempted,
                      pending[c])
  {
    hide DistinctTargets, OffsetOf, OrderFrom, Settles, Start, StopsFit, SettledIn;
    RunRotates(pending, cursor, days, apply, reports, from, 0);
    var m := EveryIndexSettled(|pending|, OffsetOf(pending, CursorBefore(cursor, reports, from)),
                               StopsFrom(reports, from), c);
    k := from + m;
    RunRotates(pending, cursor, days, apply, reports, from, m);
    assert IsPass(pending, cursor, days, apply, reports, k);
    PassSettles(reports[k], pending, CursorBefore(cursor, reports, k), days[k], apply, c);
  }

  lemma OffsetOfTarget(pending: seq<Candidate>, i: nat)
    requires DistinctTargets(pending) && i < |pending|
    ensures OffsetOf(pending, Some(pending[i].target)) == i
  {
    hide OffsetOf;
    var o := OffsetOf(pending, Some(pending[i].target));
    assert Some(pending[o].target) == Some(pending[i].target);
  }
}
