/** Removing a generated directory through a private stage, beside other processes that may put things back. */
module Staging {
  import opened Wrappers

  /** A directory: each name and the object under it. */
  type Directory = map<string, int>

  const RETAINED: set<string> := {".vite", ".rmd-dependency-seed.json"}

  /** How one attempt ended: deleted whole; nothing deleted and all back in place; nothing deleted and the stage kept
      because something could not be put back; or deletion started and stopped. */
  datatype Outcome = Removed | Restored | StageRetained | DeletionInterrupted

  /** Every original object is in the target under its name, in the stage under its name, or deleted. */
  ghost predicate Accounted(target: Option<Directory>, stage: Option<Directory>, deleted: set<string>,
                            original: Directory)
  {
    && (stage.Some? ==>
          forall n :: n in stage.value && n in original ==> stage.value[n] == original[n] && n !in deleted)
    && deleted <= original.Keys
    && forall n :: n in original ==>
         n in deleted || (stage.Some? && n in stage.value)
         || (target.Some? && n in target.value && target.value[n] == original[n])
  }

  predicate Has(d: Option<Directory>, original: Directory, n: string)
    requires n in original
  {
    d.Some? && n in d.value && d.value[n] == original[n]
  }

  /** Every original entry is in exactly one place: deleted, in the stage or in the target. */
  ghost predicate Once(target: Option<Directory>, stage: Option<Directory>, deleted: set<string>, original: Directory) {
    forall n :: n in original ==>
      && (n in deleted || Has(stage, original, n) || Has(target, original, n))
      && !(n in deleted && Has(stage, original, n)) && !(n in deleted && Has(target, original, n))
      && !(Has(stage, original, n) && Has(target, original, n))
  }

  /** Nothing that arrived is an original object. */
  ghost predicate Foreign(added: Directory, original: Directory) {
    forall n :: n in added && n in original ==> added[n] != original[n]
  }

  lemma ArrivalOnce(target: Option<Directory>, added: Directory, stage: Option<Directory>, deleted: set<string>,
                    original: Directory)
    requires Once(target, stage, deleted, original) && Foreign(added, original)
    ensures Once(Arrived(target, added), stage, deleted, original)
  {
  }

  lemma RenameOnce(target: Directory, stage: Directory, name: string, deleted: set<string>, original: Directory)
    requires Once(Some(target), Some(stage), deleted, original) && name in target
    requires name in original && name in stage ==> stage[name] != original[name]
    ensures Once(Some(target - {name}), Some(stage[name := target[name]]), deleted, original)
  {
  }

  lemma RestoreOnce(target: Directory, stage: Directory, name: string, deleted: set<string>, original: Directory)
    requires Once(Some(target), Some(stage), deleted, original) && name in stage && name !in target
    ensures Once(Some(target[name := stage[name]]), Some(stage - {name}), deleted, original)
  {
  }

  lemma DeleteOnce(target: Option<Directory>, stage: Directory, lost: set<string>, original: Directory)
    requires Once(target, Some(stage), {}, original) && Accounted(target, Some(stage), {}, original)
    ensures Once(target, Some(stage - lost), stage.Keys * lost * original.Keys, original)
  {
  }

  /** The names still to be staged are where they were. */
  ghost predicate Unmoved(left: set<string>, target: Directory, original: Directory) {
    forall n :: n in left ==> n in target && (n in original ==> target[n] == original[n])
  }

  lemma ArrivalKeeps(target: Directory, added: Directory, stage: Option<Directory>, deleted: set<string>,
                     original: Directory, left: set<string>)
    requires Accounted(Some(target), stage, deleted, original) && Unmoved(left, target, original)
    ensures Accounted(Some(added + target), stage, deleted, original) && Unmoved(left, added + target, original)
  {
  }

  lemma UnmovedAt(name: string, left: set<string>, target: Directory, original: Directory)
    requires Unmoved(left, target, original) && name in left
    ensures name in target
  {
  }

  lemma StartUnmoved(target: Directory, original: Directory)
    requires Accounted(Some(target), Some(map[]), {}, original)
    ensures Unmoved(target.Keys, target, original) && Covered(map[], target.Keys, original)
  {
  }

  /** What is not retained is staged or still to be. */
  ghost predicate Covered(stage: Directory, left: set<string>, original: Directory) {
    forall n :: n in original && n !in RETAINED ==> n in stage || n in left
  }

  lemma RenameKeeps(target: Directory, stage: Directory, name: string, original: Directory, left: set<string>,
                    rest: set<string>)
    requires Accounted(Some(target), Some(stage), {}, original) && Unmoved(left, target, original)
    requires Covered(stage, left, original) && name in left && rest == left - {name}
    ensures name in target
    ensures Accounted(Some(target - {name}), Some(stage[name := target[name]]), {}, original)
    ensures Unmoved(rest, target - {name}, original) && Covered(stage[name := target[name]], rest, original)
  {
  }

  lemma RetainedKeeps(target: Directory, stage: Directory, name: string, original: Directory, left: set<string>,
                      rest: set<string>)
    requires Unmoved(left, target, original) && Covered(stage, left, original) && name in RETAINED
             && rest == left - {name}
    ensures Unmoved(rest, target, original) && Covered(stage, rest, original)
  {
  }

  /** Nobody interferes: stage and target split the original exactly. */
  ghost predicate Exact(target: Directory, stage: Directory, left: set<string>, original: Directory) {
    && (forall n :: n in stage <==> n in original && n !in RETAINED && n !in left)
    && forall n :: n in target <==> n in original && n !in stage
  }

  lemma RenameExact(target: Directory, stage: Directory, name: string, original: Directory, left: set<string>,
                    rest: set<string>)
    requires Exact(target, stage, left, original) && name in left && name in target && rest == left - {name}
    ensures name !in RETAINED ==> Exact(target - {name}, stage[name := target[name]], rest, original)
    ensures name in RETAINED ==> Exact(target, stage, rest, original)
  {
  }

  lemma ExactlyStaged(target: Directory, stage: Directory, original: Directory)
    requires Exact(target, stage, {}, original) && Accounted(Some(target), Some(stage), {}, original)
    ensures stage == original - RETAINED && forall n :: n in target ==> n in RETAINED
  {
  }

  /** Stage and target share no name and together have the original ones. */
  ghost predicate Split(target: Directory, stage: Directory, original: Directory) {
    target.Keys !! stage.Keys && target.Keys + stage.Keys == original.Keys
  }

  lemma ExactSplits(target: Directory, stage: Directory, left: set<string>, original: Directory)
    requires Exact(target, stage, left, original)
    ensures Split(target, stage, original)
  {
  }

  lemma StartOnce(target: Directory, original: Directory)
    ensures Accounted(Some(target), Some(map[]), {}, original) ==> Once(Some(target), Some(map[]), {}, original)
    ensures target == original ==> Once(Some(target), None, {}, original)
  {
  }

  lemma UnmovedOnce(target: Directory, stage: Directory, name: string, left: set<string>, original: Directory)
    requires Once(Some(target), Some(stage), {}, original) && Unmoved(left, target, original) && name in left
    ensures name in target && Once(Some(target - {name}), Some(stage[name := target[name]]), {}, original)
  {
    RenameOnce(target, stage, name, {}, original);
  }

  /** Part of the way through staging. `bring`: what others bring is their own; `alone`: nobody else is there. */
  ghost predicate Midway(target: Directory, stage: Directory, left: set<string>, original: Directory, bring: bool,
                         alone: bool)
  {
    && Accounted(Some(target), Some(stage), {}, original)
    && Covered(stage, left, original) && Unmoved(left, target, original)
    && (bring ==> Once(Some(target), Some(stage), {}, original))
    && (alone ==> Exact(target, stage, left, original))
  }

  lemma MidStart(target: Directory, original: Directory, bring: bool, alone: bool)
    requires Accounted(Some(target), Some(map[]), {}, original) && (alone ==> target == original)
    ensures Midway(target, map[], target.Keys, original, bring, alone)
  {
    hide Once;
    StartUnmoved(target, original);
    StartOnce(target, original);
  }

  lemma MidArrives(target: Directory, added: Directory, stage: Directory, left: set<string>, original: Directory,
                   bring: bool, alone: bool)
    requires Midway(target, stage, left, original, bring, alone)
    requires (bring ==> Foreign(added, original)) && (alone ==> added == map[])
    ensures Midway(added + target, stage, left, original, bring, alone)
  {
    hide Accounted, Unmoved, Covered, Exact, Once, Foreign;
    ArrivalKeeps(target, added, Some(stage), {}, original, left);
    if bring { ArrivalOnce(Some(target), added, Some(stage), {}, original); }
    NothingArrives(target);
  }

  lemma MidRetains(target: Directory, stage: Directory, left: set<string>, original: Directory, bring: bool,
                   alone: bool, name: string)
    requires Midway(target, stage, left, original, bring, alone) && name in left && name in RETAINED
    ensures Midway(target, stage, left - {name}, original, bring, alone)
  {
    hide Accounted, Unmoved, Covered, Exact, Once;
    RetainedKeeps(target, stage, name, original, left, left - {name});
    UnmovedAt(name, left, target, original);
    if alone { RenameExact(target, stage, name, original, left, left - {name}); }
  }

  lemma MidRenames(target: Directory, stage: Directory, left: set<string>, original: Directory, bring: bool,
                   alone: bool, name: string)
    requires Midway(target, stage, left, original, bring, alone) && name in left && name !in RETAINED
    ensures name in target
    ensures Midway(target - {name}, stage[name := target[name]], left - {name}, original, bring, alone)
  {
    hide Accounted, Unmoved, Covered, Exact, Once;
    RenameKeeps(target, stage, name, original, left, left - {name});
    if alone { RenameExact(target, stage, name, original, left, left - {name}); }
    if bring { UnmovedOnce(target, stage, name, left, original); }
  }

  lemma MidEnds(target: Directory, stage: Directory, left: set<string>, original: Directory, bring: bool, alone: bool)
    requires Midway(target, stage, left, original, bring, alone)
    ensures Accounted(Some(target), Some(stage), {}, original)
            && (bring ==> Once(Some(target), Some(stage), {}, original))
    ensures alone ==> Split(target, stage, original)
    ensures left == {} ==> Covered(stage, {}, original)
    ensures left == {} && alone ==> stage == original - RETAINED && forall n :: n in target ==> n in RETAINED
  {
    hide Accounted, Unmoved, Covered, Exact, Once, Split;
    if alone {
      ExactSplits(target, stage, left, original);
      if left == {} { ExactlyStaged(target, stage, original); }
    }
  }

  /** Part of the way back. */
  ghost predicate Returning(target: Directory, stage: Directory, deleted: set<string>, original: Directory, once: bool)
  {
    Accounted(Some(target), Some(stage), deleted, original)
      && (once ==> Once(Some(target), Some(stage), deleted, original))
  }

  lemma ReturnArrives(target: Directory, added: Directory, stage: Directory, deleted: set<string>, original: Directory,
                      once: bool)
    requires Returning(target, stage, deleted, original, once) && (once ==> Foreign(added, original))
    ensures Returning(added + target, stage, deleted, original, once)
  {
    hide Once, Foreign;
    if once { ArrivalOnce(Some(target), added, Some(stage), deleted, original); }
  }

  lemma Returns(target: Directory, stage: Directory, deleted: set<string>, original: Directory, once: bool,
                name: string)
    requires Returning(target, stage, deleted, original, once) && name in stage && name !in target
    ensures Returning(target[name := stage[name]], stage - {name}, deleted, original, once)
  {
    hide Once;
    if once { RestoreOnce(target, stage, name, deleted, original); }
  }

  lemma AllReturned(target: Directory, stage: Directory, deleted: set<string>, original: Directory, once: bool)
    requires Returning(target, stage, deleted, original, once)
    ensures Accounted(Some(target), Some(stage), deleted, original)
    ensures once ==> Once(Some(target), Some(stage), deleted, original)
    ensures stage == map[] ==> Accounted(Some(target), None, deleted, original)
    ensures stage == map[] && once ==> Once(Some(target), None, deleted, original)
  {
  }

  lemma NothingArrives(target: Directory)
    ensures map[] + target == target
  {
  }

  class Removal {
    var target: Option<Directory>
    var stage: Option<Directory>
    /** The names whose objects have been deleted, and those whose objects have lost some of their content. */
    var deleted: set<string>
    var damaged: set<string>
    var tick: nat
    /** Whether the operation or check at a given moment fails. */
    const fails: nat -> bool
    /** What other processes have put at the target's path by a given moment. */
    const others: nat -> Directory
    /** The names a failing deletion gets through, and those it gets part of the way through. */
    const lost: set<string>
    const torn: set<string>

    ghost predicate Conserves(original: Directory)
      reads this
    {
      Accounted(target, stage, deleted, original)
    }

    /** Every original entry is in exactly one place. */
    ghost predicate HeldOnce(original: Directory)
      reads this
    {
      Once(target, stage, deleted, original)
    }

    /** The target has every original object under its name. */
    ghost predicate Holds(original: Directory)
      reads this
    {
      target.Some? && forall n :: n in original ==> n in target.value && target.value[n] == original[n]
    }

    /** What other processes put there is their own. */
    ghost predicate OthersBring(original: Directory) { forall i :: Foreign(others(i), original) }

    /** Nobody else is there; operations may still fail. */
    ghost predicate Alone() { forall i :: others(i) == map[] }

    ghost predicate Quiet() { Alone() && forall i :: !fails(i) }

    /** Time passes: others may create what is not there, and the next operation may fail. */
    method Step() returns (ok: bool)
      modifies `target, `tick
      ensures target == Arrived(old(target), others(old(tick)))
      ensures old(target).Some? ==> target == Some(others(old(tick)) + old(target).value)
      ensures tick == old(tick) + 1 && ok == !fails(old(tick))
    {
      target := Arrived(target, others(tick));
      ok := !fails(tick);
      tick := tick + 1;
    }

    /** The same, and what the original entries make of it. */
    method Pause(ghost original: Directory) returns (ok: bool)
      modifies `target, `tick
      ensures target == Arrived(old(target), others(old(tick)))
      ensures ok == !fails(old(tick))
      ensures old(Conserves(original)) ==> Conserves(original)
      ensures OthersBring(original) && old(HeldOnce(original)) ==> HeldOnce(original)
    {
      if OthersBring(original) && HeldOnce(original) {
        ArrivalOnce(target, others(tick), stage, deleted, original);
      }
      ok := Step();
    }

    lemma NotQuiet(i: nat)
      requires fails(i)
      ensures !Quiet()
    {
    }

    /** Moves every entry but the retained ones into the stage, one rename at a time. */
    method StageEntries(ghost original: Directory) returns (ok: bool)
      requires target.Some? && stage == Some(map[]) && deleted == {} && Conserves(original)
      modifies `target, `stage, `tick
      ensures stage.Some? && target.Some? && Conserves(original)
      ensures OthersBring(original) ==> HeldOnce(original)
      ensures Alone() && old(target) == Some(original) ==> Split(target.value, stage.value, original)
      ensures ok ==> Covered(stage.value, {}, original)
      ensures Quiet() && old(target) == Some(original) ==>
                ok && stage.value == original - RETAINED && forall n :: n in target.value ==> n in RETAINED
    {
      hide *;
      ghost var bring, alone := OthersBring(original), Alone() && target == Some(original);
      var left := target.value.Keys;
      Ended(original);
      MidStart(target.value, original, bring, alone);
      ok := true;
      while left != {} && ok
        invariant stage.Some? && target.Some? && deleted == {}
        invariant Midway(target.value, stage.value, left, original, bring, alone)
        invariant !ok ==> !Quiet()
        decreases |left|, ok
      {
        var name :| name in left;
        ok := StageOne(name, left, original, bring, alone);
        if ok { left := left - {name}; }
      }
      MidEnds(target.value, stage.value, left, original, bring, alone);
      Ended(original);
    }

    /** Moves one entry, unless it is a retained one. */
    method StageOne(name: string, ghost left: set<string>, ghost original: Directory, ghost bring: bool,
                    ghost alone: bool)
      returns (ok: bool)
      requires target.Some? && stage.Some? && name in left
               && Midway(target.value, stage.value, left, original, bring, alone)
      requires (bring ==> OthersBring(original)) && (alone ==> Alone())
      modifies `target, `stage, `tick
      ensures target.Some? && stage.Some?
      ensures Midway(target.value, stage.value, if ok then left - {name} else left, original, bring, alone)
      ensures !ok ==> !Quiet()
    {
      hide *;
      if name in RETAINED {
        MidRetains(target.value, stage.value, left, original, bring, alone, name);
        return true;
      }
      Brought(original, bring, alone);
      MidArrives(target.value, others(tick), stage.value, left, original, bring, alone);
      ok := Step();
      if ok {
        MidRenames(target.value, stage.value, left, original, bring, alone, name);
        stage := Some(stage.value[name := target.value[name]]);
        target := Some(target.value - {name});
      } else {
        NotQuiet(tick - 1);
      }
    }

    lemma Brought(original: Directory, bring: bool, alone: bool)
      requires (bring ==> OthersBring(original)) && (alone ==> Alone())
      ensures (bring ==> Foreign(others(tick), original)) && (alone ==> others(tick) == map[])
    {
      hide Foreign;
    }

    lemma Ended(original: Directory)
      ensures Conserves(original) == Accounted(target, stage, deleted, original)
      ensures HeldOnce(original) == Once(target, stage, deleted, original)
      ensures Quiet() ==> Alone()
    {
      hide Accounted, Once;
    }

    /** Puts staged entries back one at a time, stopping at the first name that is taken. */
    method RestoreEntries(ghost original: Directory) returns (ok: bool)
      requires stage.Some? && target.Some? && Conserves(original)
      modifies `target, `stage, `tick
      ensures Conserves(original) && target.Some?
      ensures OthersBring(original) && old(HeldOnce(original)) ==> HeldOnce(original)
      ensures if ok then stage.None? else stage.Some?
    {
      ghost var once := OthersBring(original) && HeldOnce(original);
      hide *;
      Ended(original);
      Leaving(original, once);
      var left := stage.value.Keys;
      while left != {}
        invariant stage.Some? && target.Some? && left == stage.value.Keys
        invariant Returning(target.value, stage.value, deleted, original, once)
        decreases |left|
      {
        var name :| name in left;
        left := left - {name};
        Brought(original, once, false);
        ReturnArrives(target.value, others(tick), stage.value, deleted, original, once);
        var done := Step();
        if !done || name in target.value {
          AllReturned(target.value, stage.value, deleted, original, once);
          Ended(original);
          return false;
        }
        Returns(target.value, stage.value, deleted, original, once, name);
        target := Some(target.value[name := stage.value[name]]);
        stage := Some(stage.value - {name});
      }
      Brought(original, once, false);
      ReturnArrives(target.value, others(tick), stage.value, deleted, original, once);
      ok := Step();
      AllReturned(target.value, stage.value, deleted, original, once);
      assert stage.value == map[];
      if ok { stage := None; }
      Ended(original);
    }

    lemma Leaving(original: Directory, once: bool)
      requires target.Some? && stage.Some? && Accounted(target, stage, deleted, original)
      requires once ==> Once(target, stage, deleted, original)
      ensures Returning(target.value, stage.value, deleted, original, once)
    {
      hide Accounted, Once;
    }

    /** Deletes the stage, or part of it, perhaps stopping inside an entry. */
    method DeleteStage(ghost original: Directory) returns (ok: bool)
      requires stage.Some? && stage.value.Keys <= original.Keys && deleted == damaged == {} && Conserves(original)
      modifies `target, `stage, `tick, `deleted, `damaged
      ensures Conserves(original) && (old(target).Some? ==> target.Some?) && (Quiet() ==> ok)
      ensures OthersBring(original) && old(HeldOnce(original)) ==> HeldOnce(original)
      ensures ok ==> stage.None? && deleted == old(stage).value.Keys && damaged == {}
      ensures !ok ==> stage.Some? && deleted <= old(stage).value.Keys && damaged <= stage.value.Keys
    {
      ok := Pause(original);
      ghost var once := OthersBring(original) && HeldOnce(original);
      if ok {
        if once { DeleteOnce(target, stage.value, stage.value.Keys, original); }
        deleted := stage.value.Keys;
        stage := None;
      } else {
        if once { DeleteOnce(target, stage.value, lost, original); }
        deleted := stage.value.Keys * lost;
        stage := Some(stage.value - lost);
        damaged := stage.value.Keys * torn;
      }
    }

    /** A package directory: the directory stays, its entries go. */
    method RemovePackages() returns (outcome: Outcome)
      requires target.Some? && stage.None? && deleted == damaged == {}
      modifies this
      ensures target.Some? && Conserves(old(target).value)
      ensures OthersBring(old(target).value) ==> HeldOnce(old(target).value)
      ensures outcome == Removed ==> deleted == old(target).value.Keys - RETAINED && stage.None?
      ensures outcome in {Restored, StageRetained} ==> deleted == damaged == {}
      ensures outcome == Restored ==> stage.None? && Holds(old(target).value)
      ensures outcome == StageRetained ==> stage.Some?
      ensures Quiet() ==> outcome == Removed
    {
      NothingArrives(target.value);
      var seen := target.value;
      StartOnce(target.value, seen);
      var ok := Pause(seen);
      if !ok { return Restored; }
      stage := Some(map[]);
      ok := StageEntries(seen);
      if ok {
        ok := Pause(seen);
        // The stage holds what was inspected, and nothing has been put in its place.
        if ok && stage.value == seen - RETAINED && (forall n :: n in target.value ==> n in RETAINED) {
          ok := DeleteStage(seen);
          if ok { return Removed; }
        }
      }
      var restored := RestoreEntries(seen);
      if deleted != {} || damaged != {} { return DeletionInterrupted; }
      outcome := if restored then Restored else StageRetained;
    }

    /** A whole generated directory: renamed away and deleted. */
    method RemoveDirectory() returns (outcome: Outcome)
      requires target.Some? && stage.None? && deleted == damaged == {}
      modifies this
      ensures Conserves(old(target).value)
      ensures OthersBring(old(target).value) ==> HeldOnce(old(target).value)
      ensures outcome == Removed ==> deleted == old(target).value.Keys && stage.None?
      ensures outcome in {Restored, StageRetained} ==> deleted == damaged == {}
      ensures outcome == Restored ==> stage.None? && Holds(old(target).value)
      ensures outcome == StageRetained ==> stage.Some?
      ensures Quiet() ==> outcome == Removed
    {
      NothingArrives(target.value);
      var seen := target.value;
      StartOnce(target.value, seen);
      var ok := Pause(seen);
      if !ok { return Restored; }
      stage, target := target, None;
      ok := Pause(seen);
      if ok && stage.value == seen && target.None? {
        ok := DeleteStage(seen);
        if ok { return Removed; }
      }
      var back := false;
      if target.None? {
        ok := Pause(seen);
        back := ok && target.None?;
        if back { target, stage := stage, None; }
      }
      if deleted != {} || damaged != {} { return DeletionInterrupted; }
      outcome := if back then Restored else StageRetained;
    }
  }

  /** Others create a name only where there is none. */
  function Arrived(target: Option<Directory>, added: Directory): Option<Directory> {
    if target.Some? then Some(added + target.value) else if added == map[] then None else Some(added)
  }
}
