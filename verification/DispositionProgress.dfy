/** That the checks on a row never stop an invocation: only what the outside world says can. */
module DispositionProgress {
  import opened Wrappers
  import opened Disposition
  import opened DispositionSafety

  lemma BuiltInReasons()
    ensures ReasonText("selected-origin-reconciliation") && ReasonText("identity-assessment-intent")
    ensures ReasonText("simulated-effect-reconciliation")
  {
  }

  lemma BuiltInTerminalReasons()
    ensures ReasonText("ambiguous-effect-exhausted") && ReasonText("identity-recovery-exhausted")
    ensures ReasonText("close-preflight-changed")
  {
  }

  lemma BuiltInEffectReasons()
    ensures ReasonText("simulated-close-intent") && ReasonText("simulated-escalation-intent")
    ensures ReasonText("simulated-close-and-escalation-confirmed")
  {
  }

  /** Two histories joined by a row that fits are one valid history, and no other row makes one. */
  lemma RowFits(v: View, history: seq<Receipt>, row: Receipt)
    requires ValidHistory(v.log, v.cause.domain, v.cause) && history <= v.log && |history| < HISTORY_BOUND
    ensures ValidHistory(history + [row], v.cause.domain, v.cause) <==>
              && RowValid(row, v.cause.domain, v.cause)
              && if history == [] then Starts(row) else Follows(history[|history| - 1], row)
  {
    hide RowValid, Starts, Follows;
    var h := history + [row];
    forall i | 0 < i < |history| ensures Follows(h[i - 1], h[i]) { assert Follows(v.log[i - 1], v.log[i]); }
    forall i | 0 <= i < |history| ensures RowValid(h[i], v.cause.domain, v.cause) { assert v.log[i] == h[i]; }
    assert history != [] ==> h[0] == v.log[0];
    assert h[|history|] == row && (history != [] ==> h[|history| - 1] == history[|history| - 1]);
    assert ValidHistory(h, v.cause.domain, v.cause) ==> RowValid(h[|history|], v.cause.domain, v.cause);
    assert ValidHistory(h, v.cause.domain, v.cause) && history != [] ==> Follows(h[|history| - 1], h[|history|]);
  }

  /** Nothing settled has been read. */
  predicate Open(inv: Invocation) { inv.Last().Some? ==> inv.Last().value.status == Pending }

  /** The item is the one on record, if one is. */
  predicate SameItem(inv: Invocation, itemId: int) {
    inv.Last().Some? && inv.Last().value.itemId.Some? ==> inv.Last().value.itemId == Some(itemId)
  }

  /** Budgets that stay or rise, within their caps. */
  predicate Affordable(inv: Invocation, row: Receipt) {
    && inv.IdentityAttempts() <= row.identityAttempts <= 3
    && inv.ReconciliationAttempts() <= row.reconciliationAttempts <= 2
    && inv.CloseAttempts() <= row.closeAttempts <= 1 && inv.EscalationAttempts() <= row.escalationAttempts <= 1
  }

  /** A status that needs nothing more of its row, or the confirmed end of both effects. */
  predicate Expressible(cause: Cause, row: Receipt) {
    || row.status in {Pending, OwnerAction, Noop, Trusted, WouldClose}
    || (row.status == SimulatedClosed && cause.domain == Rehearsal && row.stage == TerminalStage
        && row.closeAttempts == 1 && row.escalationAttempts == 1)
  }

  /** A row built on an open history passes the history check exactly when its reason and its head are well formed and
      its item is the one on record: the sixteen-row bound, the caps and the chain never refuse it. */
  lemma RowPassesExactly(v: View, inv: Invocation, status: Status, reason: string, stage: Stage, identity: int,
                         reconciliation: int, close: int, escalation: int, itemId: Option<int>, head: Option<string>,
                         now: int)
    requires LogOk(v) && InvocationOk(v, inv) && v.noOwner && Open(inv)
    requires var row := Row(inv, status, reason, stage, identity, reconciliation, close, escalation, itemId, head, None,
                            now);
             Affordable(inv, row) && Expressible(v.cause, row)
    ensures var row := Row(inv, status, reason, stage, identity, reconciliation, close, escalation, itemId, head, None,
                           now);
            ValidHistory(inv.history + [row], v.cause.domain, v.cause) <==>
              && ReasonText(reason) && (head.Some? ==> HeadSha(head.value))
              && (itemId.Some? ==> SameItem(inv, itemId.value))
  {
    hide ValidHistory, ReasonText, HeadSha;
    var row := Row(inv, status, reason, stage, identity, reconciliation, close, escalation, itemId, head, None, now);
    BuiltInReasons();
    if inv.history != [] { LastRow(v, inv); }
    LogFits(v);
    RowFits(v, inv.history, row);
  }

  lemma LogFits(v: View)
    requires LogOk(v)
    ensures ValidHistory(v.log, v.cause.domain, v.cause)
  {
    hide ValidHistory, RowOk;
  }

  // ---------- The commits ----------

  lemma TerminalPasses(v: View, inv: Invocation, reason: string, now: int)
    requires LogOk(v) && InvocationOk(v, inv) && v.noOwner && Open(inv)
    ensures CommitTerminal(inv, reason, now).phase.Appending? <==> ReasonText(reason)
  {
    hide ValidHistory, ReasonText, LogOk, RowOk;
    CountsWithin(v, inv);
    RowPassesExactly(v, inv, OwnerAction, reason, TerminalStage, inv.IdentityAttempts(), inv.ReconciliationAttempts(),
                     inv.CloseAttempts(), inv.EscalationAttempts(), None, None, now);
  }

  lemma CountsWithin(v: View, inv: Invocation)
    requires LogOk(v) && InvocationOk(v, inv)
    ensures 0 <= inv.IdentityAttempts() <= 3 && 0 <= inv.ReconciliationAttempts() <= 2
    ensures 0 <= inv.CloseAttempts() <= 1 && 0 <= inv.EscalationAttempts() <= 1
    ensures inv.CloseAttempts() == 1 ==> v.cause.domain == Rehearsal
    ensures inv.EscalationAttempts() == 1 ==> inv.CloseAttempts() == 1
    ensures inv.request.cause == v.cause
  {
    hide ValidHistory;
    if inv.history != [] { LastRow(v, inv); }
  }

  /** Deciding ends at once only on a settled history. */
  lemma DecideStops(v: View, inv: Invocation, now: int)
    requires LogOk(v) && InvocationOk(v, inv) && inv.phase.Deciding? && v.noOwner
    ensures Decide(inv, now).phase.Appending? <==> Open(inv)
    ensures !Open(inv) ==> Decide(inv, now).phase == Finished(inv.Last().value.status)
  {
    hide ValidHistory, RowOk, ReasonText, LogOk, Row, PlainRow;
    CountsWithin(v, inv);
    if inv.history != [] { StatusRead(v, inv); }
    if Open(inv) {
      BuiltInReasons();
      BuiltInTerminalReasons();
      if inv.CloseAttempts() == 1 {
        if inv.ReconciliationAttempts() >= 2 {
          TerminalPasses(v, inv, "ambiguous-effect-exhausted", now);
        } else {
          RowPasses(v, inv, "simulated-effect-reconciliation", inv.Last().value.stage, inv.IdentityAttempts(),
                    inv.ReconciliationAttempts() + 1, inv.CloseAttempts(), inv.EscalationAttempts(), now);
        }
      } else if inv.IdentityAttempts() >= 3 {
        TerminalPasses(v, inv, "identity-recovery-exhausted", now);
      } else {
        RowPasses(v, inv, "identity-assessment-intent", IdentityStage, inv.IdentityAttempts() + 1,
                  inv.ReconciliationAttempts(), inv.CloseAttempts(), inv.EscalationAttempts(), now);
      }
    }
  }

  lemma StatusRead(v: View, inv: Invocation)
    requires LogOk(v) && InvocationOk(v, inv) && inv.history != []
    ensures inv.Last().value.status != NotEnabled
  {
    hide ValidHistory, RowOk;
    LastRow(v, inv);
  }

  /** A pending row with one of the code's own reasons. */
  lemma RowPasses(v: View, inv: Invocation, reason: string, stage: Stage, identity: int, reconciliation: int,
                  close: int, escalation: int, now: int)
    requires LogOk(v) && InvocationOk(v, inv) && v.noOwner && Open(inv) && ReasonText(reason)
    requires inv.IdentityAttempts() <= identity <= 3 && inv.ReconciliationAttempts() <= reconciliation <= 2
    requires inv.CloseAttempts() <= close <= 1 && inv.EscalationAttempts() <= escalation <= 1
    ensures ValidHistory(inv.history
                         + [Row(inv, Pending, reason, stage, identity, reconciliation, close, escalation, None, None,
                                None, now)], v.cause.domain, v.cause)
  {
    hide ValidHistory, ReasonText, LogOk;
    RowPassesExactly(v, inv, Pending, reason, stage, identity, reconciliation, close, escalation, None, None, now);
  }

  /** What the first preflight says can be put on record. */
  predicate Recordable(inv: Invocation, outcome: PreflightOutcome) {
    match outcome
    case Unknown(reason) => ReasonText(reason)
    case AlreadyTerminal(reason, itemId) => ReasonText(reason) && SameItem(inv, itemId)
    case Classified(trusted, reason, itemId, head, _) =>
      && (trusted || inv.request.cause.domain != Rehearsal ==> ReasonText(reason))
      && HeadSha(head) && SameItem(inv, itemId)
  }

  lemma FirstPreflightStops(v: View, inv: Invocation, outcome: PreflightOutcome, now: int)
    requires LogOk(v) && InvocationOk(v, inv) && inv.phase.FirstPreflight? && v.noOwner
    ensures AnswerFirstPreflight(inv, outcome, now).phase.Appending? <==> Recordable(inv, outcome)
  {
    hide ValidHistory, RowOk, ReasonText, HeadSha, LogOk;
    CountsWithin(v, inv);
    LastIsPending(inv);
    BuiltInEffectReasons();
    match outcome
    case Unknown(reason) =>
      TerminalPasses(v, inv, reason, now);
      PlainPasses(v, inv, Pending, reason, IdentityStage, None, None, now);
    case AlreadyTerminal(reason, itemId) =>
      PlainPasses(v, inv, Noop, reason, TerminalStage, Some(itemId), None, now);
    case Classified(trusted, reason, itemId, head, binding) =>
      PlainPasses(v, inv, if trusted then Trusted else WouldClose, reason, TerminalStage, Some(itemId), Some(head),
                  now);
      RowPassesExactly(v, inv, Pending, "simulated-close-intent", CloseStage, inv.IdentityAttempts(),
                       inv.ReconciliationAttempts(), 1, inv.EscalationAttempts(), Some(itemId), Some(head), now);
  }

  lemma PlainPasses(v: View, inv: Invocation, status: Status, reason: string, stage: Stage, itemId: Option<int>,
                    head: Option<string>, now: int)
    requires LogOk(v) && InvocationOk(v, inv) && v.noOwner && Open(inv)
             && status in {Pending, Noop, Trusted, WouldClose}
    ensures ValidHistory(inv.history + [PlainRow(inv, status, reason, stage, itemId, head, now)], v.cause.domain,
                         v.cause)
            <==> && ReasonText(reason) && (head.Some? ==> HeadSha(head.value))
                 && (itemId.Some? ==> SameItem(inv, itemId.value))
  {
    hide ValidHistory, RowOk, ReasonText, HeadSha, LogOk;
    CountsWithin(v, inv);
    RowPassesExactly(v, inv, status, reason, stage, inv.IdentityAttempts(), inv.ReconciliationAttempts(),
                     inv.CloseAttempts(), inv.EscalationAttempts(), itemId, head, now);
  }

  lemma EscalationPasses(v: View, inv: Invocation, now: int)
    requires LogOk(v) && InvocationOk(v, inv) && v.noOwner && Open(inv)
    ensures CommitEscalation(inv, now).phase.Appending?
  {
    hide ValidHistory, ReasonText, LogOk, RowOk, Row;
    CountsWithin(v, inv);
    BuiltInEffectReasons();
    RowPasses(v, inv, "simulated-escalation-intent", EscalationStage, inv.IdentityAttempts(),
              inv.ReconciliationAttempts(), inv.CloseAttempts(), 1, now);
  }

  lemma ConfirmedPasses(v: View, inv: Invocation, now: int)
    requires LogOk(v) && InvocationOk(v, inv) && v.noOwner && Open(inv) && inv.EscalationAttempts() == 1
    ensures CommitConfirmed(inv, now).phase.Appending?
  {
    hide ValidHistory, ReasonText, LogOk, RowOk;
    CountsWithin(v, inv);
    BuiltInEffectReasons();
    RowPassesExactly(v, inv, SimulatedClosed, "simulated-close-and-escalation-confirmed", TerminalStage,
                     inv.IdentityAttempts(), inv.ReconciliationAttempts(), inv.CloseAttempts(),
                     inv.EscalationAttempts(), None, None, now);
  }

  /** From the close intent on, no commit is ever refused. */
  lemma LaterCommitsPass(v: View, inv: Invocation, now: int)
    requires LogOk(v) && InvocationOk(v, inv) && v.noOwner
    ensures inv.phase.SecondPreflight? ==>
              forall binding, outcome, samePolicy ::
                !AnswerSecondPreflight(inv, binding, outcome, samePolicy, now).phase.Finished?
    ensures inv.phase.CallingClose? ==> AnswerClose(inv, Acknowledged, now).phase.Appending?
    ensures inv.phase.CallingEscalation? ==> AnswerEscalation(inv, Acknowledged, now).phase.Appending?
    ensures inv.phase.Reconciling? ==>
              forall evidence :: AnswerReconcile(inv, evidence, now).phase == Finished(Pending)
                                 || AnswerReconcile(inv, evidence, now).phase.Appending?
  {
    hide ValidHistory, RowOk, ReasonText, LogOk, CommitTerminal, CommitEscalation, CommitConfirmed;
    BuiltInTerminalReasons();
    LastIsPending(inv);
    if inv.phase.SecondPreflight? { TerminalPasses(v, inv, "close-preflight-changed", now); }
    if inv.phase.CallingClose? { EscalationPasses(v, inv, now); }
    if inv.phase.CallingEscalation? { ConfirmedPasses(v, inv, now); }
    if inv.phase.Reconciling? {
      CountsWithin(v, inv);
      TerminalPasses(v, inv, "ambiguous-effect-exhausted", now);
      EscalationPasses(v, inv, now);
      if inv.EscalationAttempts() == 1 { ConfirmedPasses(v, inv, now); }
    }
  }

  /** In every reachable state without an owner instruction: deciding appends unless the history is settled, the first
      preflight appends exactly when its outcome can be put on record, and no later commit is ever refused. */
  lemma OnlyEvidenceStops(cause: Cause, actions: seq<Action>, id: nat, outcome: PreflightOutcome, now: int)
    requires NoOwner(Run(cause, actions)) && id in Run(cause, actions).invocations
    ensures var inv := Run(cause, actions).invocations[id];
            && (inv.phase.Deciding? ==> (Decide(inv, now).phase.Appending? <==> Open(inv)))
            && (inv.phase.FirstPreflight? ==>
                  (AnswerFirstPreflight(inv, outcome, now).phase.Appending? <==> Recordable(inv, outcome)))
            && (inv.phase.SecondPreflight? ==>
                  forall binding, samePolicy ::
                    !AnswerSecondPreflight(inv, binding, outcome, samePolicy, now).phase.Finished?)
            && (inv.phase.CallingClose? ==> AnswerClose(inv, Acknowledged, now).phase.Appending?)
            && (inv.phase.CallingEscalation? ==> AnswerEscalation(inv, Acknowledged, now).phase.Appending?)
            && (inv.phase.Reconciling? ==>
                  forall evidence :: AnswerReconcile(inv, evidence, now).phase == Finished(Pending)
                                     || AnswerReconcile(inv, evidence, now).phase.Appending?)
  {
    hide *;
    RunKeepsInv(cause, actions);
    var w := Run(cause, actions);
    InvParts(w);
    NoOwnerView(w);
    var v, inv := ViewOf(w), w.invocations[id];
    if inv.phase.Deciding? { DecideStops(v, inv, now); }
    if inv.phase.FirstPreflight? { FirstPreflightStops(v, inv, outcome, now); }
    LaterCommitsPass(v, inv, now);
  }

  lemma NoOwnerView(w: World)
    requires Contiguous(w.files) && NoOwner(w)
    ensures ViewOf(w).noOwner
  {
    hide Contiguous;
  }
}
