/** What leads to the close over every run: two preflights of one invocation that agree. */
module DispositionVetting {
  import opened Wrappers
  import opened Disposition
  import opened DispositionSafety

  /** A preflight of the invocation found the pull request to be closed, under this binding. */
  predicate FoundClosable(a: Action, id: nat, binding: int) {
    a.Local? && a.id == id && a.event.Preflight? && a.event.outcome.Classified? && !a.event.outcome.trusted
    && a.event.outcome.binding == binding
  }

  /** The phase an invocation was in when action `i` of a run was taken. */
  ghost function PhaseAt(cause: Cause, actions: seq<Action>, i: nat, id: nat): Option<Phase>
    requires i <= |actions|
  {
    var w := Run(cause, actions[..i]);
    if id in w.invocations then Some(w.invocations[id].phase) else None
  }

  /** Action `i` was the first preflight of the invocation, and it found the pull request to be closed. */
  ghost predicate FirstFound(cause: Cause, actions: seq<Action>, i: nat, id: nat, binding: int)
    requires i < |actions|
  {
    FoundClosable(actions[i], id, binding) && PhaseAt(cause, actions, i, id) == Some(FirstPreflight)
  }

  /** Action `j` was the second preflight after a close intent with this binding, and it found the same. */
  ghost predicate SecondFound(cause: Cause, actions: seq<Action>, j: nat, id: nat, binding: int)
    requires j < |actions|
  {
    FoundClosable(actions[j], id, binding) && actions[j].event.samePolicy
    && PhaseAt(cause, actions, j, id) == Some(SecondPreflight(binding))
  }

  ghost predicate Asked(cause: Cause, actions: seq<Action>, id: nat, binding: int) {
    exists i :: 0 <= i < |actions| && FirstFound(cause, actions, i, id, binding)
  }

  ghost predicate Agreed(cause: Cause, actions: seq<Action>, id: nat) {
    exists i, j, binding :: 0 <= i < j < |actions| && FirstFound(cause, actions, i, id, binding)
      && SecondFound(cause, actions, j, id, binding)
  }

  /** What the actions so far say about where an invocation stands. */
  ghost predicate Vetted(cause: Cause, actions: seq<Action>, id: nat, phase: Phase) {
    match phase
    case Appending(_, after) => after.ThenSecondPreflight? ==> Asked(cause, actions, id, after.binding)
    case SecondPreflight(binding) => Asked(cause, actions, id, binding)
    case CallingClose => Agreed(cause, actions, id)
    case _ => true
  }

  /** A phase that owes nothing to a preflight. */
  predicate Plain(phase: Phase) {
    !phase.SecondPreflight? && !phase.CallingClose? && (phase.Appending? ==> !phase.after.ThenSecondPreflight?)
  }

  lemma VettedLonger(cause: Cause, actions: seq<Action>, a: Action, id: nat, phase: Phase)
    requires Vetted(cause, actions, id, phase)
    ensures Vetted(cause, actions + [a], id, phase)
  {
    hide FirstFound, SecondFound;
    var longer := actions + [a];
    forall binding | Asked(cause, actions, id, binding) ensures Asked(cause, longer, id, binding) {
      var i :| 0 <= i < |actions| && FirstFound(cause, actions, i, id, binding);
      SameAt(cause, actions, a, i, id, binding);
    }
    if Agreed(cause, actions, id) {
      var i, j, binding :| 0 <= i < j < |actions| && FirstFound(cause, actions, i, id, binding)
        && SecondFound(cause, actions, j, id, binding);
      SameAt(cause, actions, a, i, id, binding);
      SameAt(cause, actions, a, j, id, binding);
    }
  }

  /** What an action was stays so as the run goes on. */
  lemma SameAt(cause: Cause, actions: seq<Action>, a: Action, i: nat, id: nat, binding: int)
    requires i < |actions|
    ensures FirstFound(cause, actions, i, id, binding) ==> FirstFound(cause, actions + [a], i, id, binding)
    ensures SecondFound(cause, actions, i, id, binding) ==> SecondFound(cause, actions + [a], i, id, binding)
  {
    hide FoundClosable, Run;
    assert (actions + [a])[..i] == actions[..i] && (actions + [a])[i] == actions[i];
  }

  lemma PhaseNow(cause: Cause, actions: seq<Action>, a: Action, w: World, id: nat)
    requires w == Run(cause, actions) && id in w.invocations
    ensures PhaseAt(cause, actions + [a], |actions|, id) == Some(w.invocations[id].phase)
  {
    hide Run;
    assert (actions + [a])[..|actions|] == actions;
  }

  lemma PlainCommit(inv: Invocation, row: Receipt, after: After)
    ensures !after.ThenSecondPreflight? ==> Plain(TryCommit(inv, row, after).phase)
  {
    hide ValidHistory;
  }

  /** Only the two preflights lead towards the close. */
  lemma PlainDecide(inv: Invocation, now: int)
    requires inv.phase.Deciding?
    ensures Plain(Decide(inv, now).phase)
  {
    hide ValidHistory, Row, TryCommit;
    forall row: Receipt, after: After ensures !after.ThenSecondPreflight? ==> Plain(TryCommit(inv, row, after).phase) {
      PlainCommit(inv, row, after);
    }
  }

  lemma PlainAnswers(inv: Invocation, now: int, verified: Option<(OwnerInstruction, int, string)>, call: Call,
                     evidence: Evidence, status: Status)
    ensures Plain(AnswerOwner(inv, verified, now).phase) && Plain(AnswerClose(inv, call, now).phase)
    ensures Plain(AnswerEscalation(inv, call, now).phase) && Plain(AnswerReconcile(inv, evidence, now).phase)
    ensures Plain(Finish(inv, status).phase)
  {
    hide ValidHistory, Row, PlainRow, TryCommit;
    forall row: Receipt, after: After ensures !after.ThenSecondPreflight? ==> Plain(TryCommit(inv, row, after).phase) {
      PlainCommit(inv, row, after);
    }
  }

  lemma PlainLoad(w: World, inv: Invocation)
    requires inv.phase.Loading?
    ensures Plain(LoadStep(w, inv).phase)
  {
    hide ValidHistory;
  }

  lemma FirstPreflightAsks(inv: Invocation, outcome: PreflightOutcome, now: int)
    ensures var phase := AnswerFirstPreflight(inv, outcome, now).phase;
            Plain(phase) || (phase.Appending? && phase.after.ThenSecondPreflight? && outcome.Classified?
                             && !outcome.trusted
                             && outcome.binding == phase.after.binding)
  {
    hide ValidHistory, Row, PlainRow;
  }

  lemma SecondPreflightAgrees(inv: Invocation, binding: int, outcome: PreflightOutcome, samePolicy: bool, now: int)
    ensures var phase := AnswerSecondPreflight(inv, binding, outcome, samePolicy, now).phase;
            Plain(phase) || (phase.CallingClose? && outcome.Classified? && !outcome.trusted
                             && outcome.binding == binding && samePolicy)
  {
    hide ValidHistory, Row, PlainRow;
  }

  ghost predicate AllVetted(cause: Cause, actions: seq<Action>, w: World) {
    forall id :: id in w.invocations ==> Vetted(cause, actions, id, w.invocations[id].phase)
  }

  lemma PutVetted(cause: Cause, actions: seq<Action>, w: World, w1: World, a: Action, id: nat, inv: Invocation)
    requires AllVetted(cause, actions, w) && w1.invocations == w.invocations
             && Vetted(cause, actions + [a], id, inv.phase)
    ensures AllVetted(cause, actions + [a], Put(w1, id, inv))
  {
    hide Vetted;
    forall j | j in Put(w1, id, inv).invocations
      ensures Vetted(cause, actions + [a], j, Put(w1, id, inv).invocations[j].phase)
    {
      if j != id { VettedLonger(cause, actions, a, j, w.invocations[j].phase); }
    }
  }

  lemma SameVetted(cause: Cause, actions: seq<Action>, w: World, w1: World, a: Action)
    requires AllVetted(cause, actions, w) && w1.invocations == w.invocations
    ensures AllVetted(cause, actions + [a], w1)
  {
    hide Vetted;
    forall j | j in w.invocations ensures Vetted(cause, actions + [a], j, w.invocations[j].phase) {
      VettedLonger(cause, actions, a, j, w.invocations[j].phase);
    }
  }

  lemma PlainVetted(cause: Cause, actions: seq<Action>, id: nat, phase: Phase)
    requires Plain(phase)
    ensures Vetted(cause, actions, id, phase)
  {
  }

  lemma PreflightVetted(cause: Cause, actions: seq<Action>, w: World, id: nat, outcome: PreflightOutcome,
                        samePolicy: bool, now: int)
    requires AllVetted(cause, actions, w) && id in w.invocations && w == Run(cause, actions)
    ensures var a := Local(id, Preflight(outcome, samePolicy, now)); AllVetted(cause, actions + [a], Step(w, a))
  {
    hide *;
    var a, inv := Local(id, Preflight(outcome, samePolicy, now)), w.invocations[id];
    PreflightEvent(w, id, outcome, samePolicy, now);
    PhaseNow(cause, actions, a, w, id);
    if inv.phase.FirstPreflight? {
      FirstAsked(cause, actions, a, id, inv, outcome, samePolicy, now);
      PutVetted(cause, actions, w, w, a, id, AnswerFirstPreflight(inv, outcome, now));
    } else if inv.phase.SecondPreflight? {
      VettedAt(cause, actions, w, id);
      SecondAgreed(cause, actions, a, id, inv, outcome, samePolicy, now);
      PutVetted(cause, actions, w, w, a, id, AnswerSecondPreflight(inv, inv.phase.binding, outcome, samePolicy, now));
    } else {
      SameVetted(cause, actions, w, w, a);
    }
  }

  lemma VettedAt(cause: Cause, actions: seq<Action>, w: World, id: nat)
    requires AllVetted(cause, actions, w) && id in w.invocations
    ensures Vetted(cause, actions, id, w.invocations[id].phase)
  {
    hide Vetted;
  }

  lemma FirstAsked(cause: Cause, actions: seq<Action>, a: Action, id: nat, inv: Invocation, outcome: PreflightOutcome,
                   samePolicy: bool, now: int)
    requires a == Local(id, Preflight(outcome, samePolicy, now))
    requires PhaseAt(cause, actions + [a], |actions|, id) == Some(FirstPreflight)
    ensures Vetted(cause, actions + [a], id, AnswerFirstPreflight(inv, outcome, now).phase)
  {
    hide AnswerFirstPreflight;
    FirstPreflightAsks(inv, outcome, now);
    var phase := AnswerFirstPreflight(inv, outcome, now).phase;
    if !Plain(phase) {
      assert (actions + [a])[|actions|] == a && FirstFound(cause, actions + [a], |actions|, id, phase.after.binding);
    }
  }

  lemma SecondAgreed(cause: Cause, actions: seq<Action>, a: Action, id: nat, inv: Invocation, outcome: PreflightOutcome,
                     samePolicy: bool, now: int)
    requires a == Local(id, Preflight(outcome, samePolicy, now)) && inv.phase.SecondPreflight?
             && Vetted(cause, actions, id, inv.phase)
    requires PhaseAt(cause, actions + [a], |actions|, id) == Some(inv.phase)
    ensures Vetted(cause, actions + [a], id,
                   AnswerSecondPreflight(inv, inv.phase.binding, outcome, samePolicy, now).phase)
  {
    hide AnswerSecondPreflight;
    var binding := inv.phase.binding;
    SecondPreflightAgrees(inv, binding, outcome, samePolicy, now);
    if !Plain(AnswerSecondPreflight(inv, binding, outcome, samePolicy, now).phase) {
      var i :| 0 <= i < |actions| && FirstFound(cause, actions, i, id, binding);
      SameAt(cause, actions, a, i, id, binding);
      assert (actions + [a])[|actions|] == a && SecondFound(cause, actions + [a], |actions|, id, binding);
    }
  }

  lemma AppendVetted(cause: Cause, actions: seq<Action>, w: World, id: nat)
    requires AllVetted(cause, actions, w) && id in w.invocations
    ensures AllVetted(cause, actions + [Local(id, AppendOk)], Step(w, Local(id, AppendOk)))
  {
    hide *;
    var a, inv := Local(id, AppendOk), w.invocations[id];
    AppendEvent(w, id);
    if inv.phase.Appending? && CanLink(w, inv.phase.row) {
      VettedAt(cause, actions, w, id);
      AcknowledgedVetted(cause, actions, id, inv);
      VettedLonger(cause, actions, a, id, AppendAcknowledged(inv).phase);
      SameInvocations(w, inv.phase.row);
      PutVetted(cause, actions, w, Linked(w, inv.phase.row), a, id, AppendAcknowledged(inv));
    } else {
      SameVetted(cause, actions, w, w, a);
    }
  }

  lemma AcknowledgedVetted(cause: Cause, actions: seq<Action>, id: nat, inv: Invocation)
    requires inv.phase.Appending? && Vetted(cause, actions, id, inv.phase)
    ensures Vetted(cause, actions, id, AppendAcknowledged(inv).phase)
  {
    hide Asked, Agreed;
  }

  /** Events that leave the way to the close alone. */
  lemma OtherVetted(cause: Cause, actions: seq<Action>, w: World, id: nat, event: Event)
    requires AllVetted(cause, actions, w) && id in w.invocations && !event.Preflight? && !event.AppendOk?
    ensures AllVetted(cause, actions + [Local(id, event)], Step(w, Local(id, event)))
  {
    hide *;
    var a, inv := Local(id, event), w.invocations[id];
    var w', inv' := OtherEvent(w, id, event);
    if inv'.Some? {
      PlainVetted(cause, actions + [a], id, inv'.value.phase);
      PutVetted(cause, actions, w, w', a, id, inv'.value);
    } else {
      SameVetted(cause, actions, w, w, a);
    }
  }

  lemma OtherEvent(w: World, id: nat, event: Event) returns (w': World, next: Option<Invocation>)
    requires id in w.invocations && !event.Preflight? && !event.AppendOk?
    ensures w'.invocations == w.invocations
    ensures next.Some? ==> Plain(next.value.phase) && Step(w, Local(id, event)) == Put(w', id, next.value)
    ensures next.None? ==> Step(w, Local(id, event)) == w
  {
    hide *;
    var inv := w.invocations[id];
    w', next := w, None;
    match event {
      case ReadFile =>
        LoadEvent(w, id);
        if inv.phase.Loading? { PlainLoad(w, inv); next := Some(LoadStep(w, inv)); }
      case Go(now) =>
        GoEvent(w, id, now);
        if inv.phase.Deciding? {
          PlainDecide(inv, now);
          next := Some(Decide(inv, now));
        }
      case Owner(verified, now) =>
        OwnerEvent(w, id, verified, now);
        if inv.phase.CheckingOwner? {
          PlainAnswers(inv, now, verified, NotCalled, Unreadable, OwnerAction);
          next := Some(AnswerOwner(inv, verified, now));
        }
      case AppendFailed =>
        EndEvent(w, id);
        PlainAnswers(inv, 0, None, NotCalled, Unreadable, OwnerAction);
        if inv.phase.Appending? { next := Some(Finish(inv, OwnerAction)); }
      case AppendTimedOut =>
        TimedOutEvent(w, id);
        PlainAnswers(inv, 0, None, NotCalled, Unreadable, OwnerAction);
        if inv.phase.Appending? {
          w' := w.(lost := w.lost + {LostAppend(inv.history, inv.phase.row)});
          next := Some(Finish(inv, OwnerAction));
        }
      case CloseCall(call, now) =>
        CloseEvent(w, id, call, now);
        PlainAnswers(inv, now, None, call, Unreadable, OwnerAction);
        ClosedIs(w, call);
        if inv.phase.CallingClose? { w', next := Closed(w, call), Some(AnswerClose(inv, call, now)); }
      case ReconcileCall(evidence, now) =>
        ReconcileEvent(w, id, evidence, now);
        PlainAnswers(inv, now, None, NotCalled, evidence, OwnerAction);
        ReportedIs(w, evidence);
        if inv.phase.Reconciling? { w', next := Reported(w, evidence), Some(AnswerReconcile(inv, evidence, now)); }
      case EscalationCall(call, now) =>
        EscalationEvent(w, id, call, now);
        PlainAnswers(inv, now, None, call, Unreadable, OwnerAction);
        EscalatedIs(w, call);
        if inv.phase.CallingEscalation? { w', next := Escalated(w, call), Some(AnswerEscalation(inv, call, now)); }
      case Abort =>
        EndEvent(w, id);
        PlainAnswers(inv, 0, None, NotCalled, Unreadable, OwnerAction);
        next := Some(Finish(inv, OwnerAction));
    }
  }

  lemma StepVetted(cause: Cause, actions: seq<Action>, w: World, a: Action)
    requires AllVetted(cause, actions, w) && w == Run(cause, actions)
    ensures AllVetted(cause, actions + [a], Step(w, a))
  {
    hide Run, LocalStep, CanLink, ValidTarget, AllVetted;
    match a
    case Start(id, request) =>
      if Step(w, a) == w {
        SameVetted(cause, actions, w, w, a);
      } else {
        var inv := Invocation(request, Loading(!w.registered, 0, false), []);
        PlainVetted(cause, actions + [a], id, inv.phase);
        PutVetted(cause, actions, w, w.(registered := true), a, id, inv);
      }
    case LateLink(append) => SameVetted(cause, actions, w, Step(w, a), a);
    case Local(id, event) =>
      if id !in w.invocations {
        SameVetted(cause, actions, w, w, a);
      } else if event.Preflight? {
        PreflightVetted(cause, actions, w, id, event.outcome, event.samePolicy, event.now);
      } else if event.AppendOk? {
        AppendVetted(cause, actions, w, id);
      } else {
        OtherVetted(cause, actions, w, id, event);
      }
  }

  lemma {:induction false} RunVetted(cause: Cause, actions: seq<Action>)
    ensures AllVetted(cause, actions, Run(cause, actions))
  {
    hide Step, Vetted;
    if actions != [] {
      var before := actions[..|actions| - 1];
      RunVetted(cause, before);
      StepVetted(cause, before, Run(cause, before), actions[|actions| - 1]);
      assert before + [actions[|actions| - 1]] == actions;
    }
  }

  /** The step that invokes the close is the first to do so, and the invocation that takes it had its two preflights say
      so under one binding, the later one under an unchanged policy. */
  lemma CloseFollowsAgreement(cause: Cause, actions: seq<Action>, a: Action)
    requires Step(Run(cause, actions), a).closes > Run(cause, actions).closes
    ensures a.Local? && Agreed(cause, actions, a.id) && Run(cause, actions).closes == 0
  {
    hide Run, ValidHistory, LocalStep, CanLink, ValidTarget, InvocationOk, RowOk, Agreed;
    var w := Run(cause, actions);
    RunKeepsInv(cause, actions);
    RunVetted(cause, actions);
    if a.Local? && a.id in w.invocations {
      EffectSteps(w, a.id, w.invocations[a.id], a.event);
      assert Vetted(cause, actions, a.id, w.invocations[a.id].phase);
      HoldsInCall(w.invocations[a.id]);
    }
  }
}
