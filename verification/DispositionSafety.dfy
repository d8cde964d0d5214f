/** Every interleaving of concurrent invocations on one cause, with crashes and appends that fail, time out or
    land late; and what no interleaving can do. */
module DispositionSafety {
  import opened Wrappers
  import opened Disposition

  /** An append whose outcome the writer never learned. Its `link` may still run at any later time. */
  datatype LostAppend = LostAppend(base: seq<Receipt>, row: Receipt)

  /** The files of one cause, everything in flight on them, and a record of the effects so far. */
  datatype World = World(
    cause: Cause,
    registered: bool,
    files: map<nat, Receipt>,
    invocations: map<nat, Invocation>,
    lost: set<LostAppend>,
    closes: nat,
    escalations: nat,
    closeConfirmed: bool,
    escalationConfirmed: bool,
    falseReport: bool)

  /** What can happen next to one invocation: code between two awaits, an answer, a failure or a crash. */
  datatype Event =
    | ReadFile
    | Go(now: int)
    | Owner(verified: Option<(OwnerInstruction, int, string)>, now: int)
    | Preflight(outcome: PreflightOutcome, samePolicy: bool, now: int)
    | AppendOk
    | AppendFailed
    | AppendTimedOut
    | CloseCall(call: Call, now: int)
    | ReconcileCall(evidence: Evidence, now: int)
    | EscalationCall(call: Call, now: int)
    | Abort

  datatype Action =
    | Start(id: nat, request: Request)
    | Local(id: nat, event: Event)
    | LateLink(append: LostAppend)

  function InitialWorld(cause: Cause): World {
    World(cause, false, map[], map[], {}, 0, 0, false, false, false)
  }

  function Put(w: World, id: nat, inv: Invocation): World {
    w.(invocations := w.invocations[id := inv])
  }

  /** One iteration of the load loop over sequence numbers 0 to 16, and the checks after it. */
  function LoadStep(w: World, inv: Invocation): Invocation
    requires inv.phase.Loading?
  {
    var Loading(created, next, missing) := inv.phase;
    if next <= HISTORY_BOUND then
      if next !in w.files then inv.(phase := Loading(created, next + 1, true))
      else if missing || next == HISTORY_BOUND then Finish(inv, OwnerAction)
      else Invocation(inv.request, Loading(created, next + 1, false), inv.history + [w.files[next]])
    else if (inv.history == [] && !created) || !ValidHistory(inv.history, w.cause.domain, w.cause) then
      Finish(inv, OwnerAction)
    else inv.(phase := Deciding)
  }

  /** One step of the world; an action that is not possible changes nothing. */
  function Step(w: World, a: Action): (w': World)
    ensures w'.cause == w.cause
  {
    match a
    case Start(id, request) =>
      if id in w.invocations || request.cause != w.cause || !ValidTarget(request) then w
      else Put(w.(registered := true), id, Invocation(request, Loading(!w.registered, 0, false), []))
    case LateLink(append) => if append in w.lost && CanLink(w, append.row) then Linked(w, append.row) else w
    case Local(id, event) => if id in w.invocations then LocalStep(w, id, w.invocations[id], event) else w
  }

  /** A request without positive ids is answered before anything is read. */
  predicate ValidTarget(request: Request) {
    PositiveId(request.cause.repositoryId) && PositiveId(request.cause.prNumber)
  }

  /** `link` claims a sequence number exclusively: it fails when the file exists. */
  predicate CanLink(w: World, row: Receipt) {
    row.sequence >= 0 && row.sequence !in w.files
  }

  function Linked(w: World, row: Receipt): World
    requires CanLink(w, row)
  {
    w.(files := w.files[row.sequence := row])
  }

  function LocalStep(w: World, id: nat, inv: Invocation, event: Event): (w': World)
    ensures w'.cause == w.cause
  {
    match (event, inv.phase)
    case (ReadFile, Loading(_, _, _)) => Put(w, id, LoadStep(w, inv))
    case (Go(now), Deciding) => Put(w, id, Decide(inv, now))
    case (Owner(verified, now), CheckingOwner) => Put(w, id, AnswerOwner(inv, verified, now))
    case (Preflight(outcome, _, now), FirstPreflight) => Put(w, id, AnswerFirstPreflight(inv, outcome, now))
    case (Preflight(outcome, samePolicy, now), SecondPreflight(binding)) =>
      Put(w, id, AnswerSecondPreflight(inv, binding, outcome, samePolicy, now))
    case (AppendOk, Appending(row, _)) =>
      if CanLink(w, row) then Put(Linked(w, row), id, AppendAcknowledged(inv)) else w
    case (AppendFailed, Appending(_, _)) => Put(w, id, Finish(inv, OwnerAction))
    case (AppendTimedOut, Appending(row, _)) =>
      Put(w.(lost := w.lost + {LostAppend(inv.history, row)}), id, Finish(inv, OwnerAction))
    case (CloseCall(call, now), CallingClose) => Put(Closed(w, call), id, AnswerClose(inv, call, now))
    case (ReconcileCall(evidence, now), Reconciling) =>
      Put(Reported(w, evidence), id, AnswerReconcile(inv, evidence, now))
    case (EscalationCall(call, now), CallingEscalation) =>
      Put(Escalated(w, call), id, AnswerEscalation(inv, call, now))
    case (Abort, _) => Put(w, id, Finish(inv, OwnerAction))
    case _ => w
  }

  function Closed(w: World, call: Call): World {
    if call.NotCalled? then w
    else w.(closes := w.closes + 1, closeConfirmed := w.closeConfirmed || call.Acknowledged?)
  }

  function Escalated(w: World, call: Call): World {
    if call.NotCalled? then w
    else w.(escalations := w.escalations + 1, escalationConfirmed := w.escalationConfirmed || call.Acknowledged?)
  }

  /** What a reconciliation reports; a report of an effect that was never invoked is noted as false. */
  function Reported(w: World, evidence: Evidence): World {
    if evidence.Unreadable? then w else
    w.(closeConfirmed := w.closeConfirmed || evidence.closed,
       escalationConfirmed := w.escalationConfirmed || evidence.escalated,
       falseReport := w.falseReport || (evidence.closed && w.closes == 0) || (evidence.escalated && w.escalations == 0))
  }

  function Run(cause: Cause, actions: seq<Action>): World {
    if actions == [] then InitialWorld(cause)
    else Step(Run(cause, actions[..|actions| - 1]), actions[|actions| - 1])
  }

  // ---------- The invariant ----------

  ghost predicate Contiguous(files: map<nat, Receipt>) {
    forall k: nat :: k in files <==> k < |files|
  }

  ghost function Log(files: map<nat, Receipt>): (log: seq<Receipt>)
    requires Contiguous(files)
  {
    seq(|files|, i requires 0 <= i < |files| => files[i])
  }

  /** What an invocation's own correctness depends on; it only ever grows. */
  datatype View = View(cause: Cause, log: seq<Receipt>, closeConfirmed: bool, escalationConfirmed: bool, noOwner: bool)

  ghost predicate NoOwner(w: World) {
    forall id :: id in w.invocations ==> w.invocations[id].request.ownerInstructionId.None?
  }

  ghost function ViewOf(w: World): View
    requires Contiguous(w.files)
  {
    View(w.cause, Log(w.files), w.closeConfirmed, w.escalationConfirmed, NoOwner(w))
  }

  ghost predicate Grows(v: View, v': View) {
    && v.cause == v'.cause && v.log <= v'.log
    && (v.closeConfirmed ==> v'.closeConfirmed) && (v.escalationConfirmed ==> v'.escalationConfirmed)
    && (v'.noOwner ==> v.noOwner)
  }

  function PriorIdentity(row: Receipt): int {
    match row.previous
    case Root => 0
    case HashOf(prior) => prior.identityAttempts
  }

  function CloseOf(history: seq<Receipt>): int { if history == [] then 0 else history[|history| - 1].closeAttempts }

  function EscalationOf(history: seq<Receipt>): int {
    if history == [] then 0 else history[|history| - 1].escalationAttempts
  }

  /** The most rows a history can have when it ends in `row` and no owner stepped in. */
  function Weight(row: Receipt): int {
    (if row.identityAttempts >= 3 then 5
     else if row.identityAttempts > PriorIdentity(row) then 2 * row.identityAttempts - 1
     else 2 * row.identityAttempts)
    + row.closeAttempts + row.reconciliationAttempts + row.escalationAttempts
    + (if row.status == Pending then 0 else 1)
  }

  /** What holds of every row that is on disk or may yet get there. */
  ghost predicate RowOk(v: View, row: Receipt) {
    && row.repositoryId == v.cause.repositoryId && row.prNumber == v.cause.prNumber
    && (row.closeAttempts == 1 ==> v.cause.domain == Rehearsal)
    && (row.escalationAttempts == 1 ==> v.closeConfirmed && row.closeAttempts == 1)
    && (row.status == SimulatedClosed ==> v.closeConfirmed && v.escalationConfirmed)
    && (v.noOwner ==> row.sequence + 1 <= Weight(row))
  }

  ghost predicate WriteOk(v: View, base: seq<Receipt>, row: Receipt) {
    base <= v.log && ValidHistory(base + [row], v.cause.domain, v.cause) && RowOk(v, row)
  }

  ghost predicate AfterOk(base: seq<Receipt>, row: Receipt, after: After) {
    match after
    case ThenFinish(_) => true
    case ThenPreflight => row.status == Pending && row.closeAttempts == 0 && row.identityAttempts > PriorIdentity(row)
    case ThenSecondPreflight(_) =>
      row.status == Pending && row.closeAttempts == 1 && row.escalationAttempts == 0 && CloseOf(base) == 0
    case ThenReconcile => row.status == Pending && row.closeAttempts == 1
    case ThenEscalate => row.status == Pending && row.escalationAttempts == 1 && EscalationOf(base) == 0
  }

  ghost predicate InvocationOk(v: View, inv: Invocation) {
    && inv.request.cause == v.cause && ValidTarget(inv.request)
    && (v.noOwner ==> inv.request.ownerInstructionId.None?)
    && inv.history <= v.log
    && match inv.phase
       case Loading(_, next, missing) => !missing ==> |inv.history| == next
       case Deciding => true
       case CheckingOwner => inv.request.ownerInstructionId.Some?
       case Appending(row, after) => WriteOk(v, inv.history, row) && AfterOk(inv.history, row, after)
       case FirstPreflight =>
         inv.history != [] && AfterOk(inv.history, inv.history[|inv.history| - 1], ThenPreflight)
       case SecondPreflight(_) => ClosePermitted(inv)
       case CallingClose => ClosePermitted(inv)
       case Reconciling => inv.history != [] && AfterOk(inv.history, inv.history[|inv.history| - 1], ThenReconcile)
       case CallingEscalation =>
         inv.history != [] && inv.history[|inv.history| - 1].status == Pending && inv.EscalationAttempts() == 1
       case Finished(_) => true
  }

  ghost predicate ClosePermitted(inv: Invocation) {
    && inv.history != [] && inv.history[|inv.history| - 1].status == Pending
    && inv.CloseAttempts() == 1 && inv.EscalationAttempts() == 0
  }

  predicate HoldsClose(inv: Invocation) { inv.phase.SecondPreflight? || inv.phase.CallingClose? }

  predicate HoldsEscalation(inv: Invocation) { inv.phase.CallingEscalation? }

  /** The right to invoke an effect is created by the one row that takes its budget from 0 to 1. */
  ghost predicate EffectsOk(w: World, log: seq<Receipt>) {
    && w.closes <= 1 && w.escalations <= 1
    && (w.closes > 0 ==> CloseOf(log) == 1)
    && (w.escalations > 0 ==> EscalationOf(log) == 1)
    && (forall id :: id in w.invocations && HoldsClose(w.invocations[id]) ==> w.closes == 0 && CloseOf(log) == 1)
    && (forall id :: id in w.invocations && HoldsEscalation(w.invocations[id]) ==>
          w.escalations == 0 && EscalationOf(log) == 1)
    && (forall i, j | i in w.invocations && j in w.invocations ::
          HoldsClose(w.invocations[i]) && HoldsClose(w.invocations[j]) ==> i == j)
    && (forall i, j | i in w.invocations && j in w.invocations ::
          HoldsEscalation(w.invocations[i]) && HoldsEscalation(w.invocations[j]) ==> i == j)
  }

  ghost predicate ReportsOk(w: World) {
    !w.falseReport ==> (w.closeConfirmed ==> w.closes > 0) && (w.escalationConfirmed ==> w.escalations > 0)
  }

  ghost predicate LogOk(v: View) {
    && ValidHistory(v.log, v.cause.domain, v.cause)
    && (forall i :: 0 <= i < |v.log| ==> RowOk(v, v.log[i]))
  }

  ghost predicate LostOk(v: View, lost: set<LostAppend>) {
    forall a :: a in lost ==> WriteOk(v, a.base, a.row)
  }

  ghost predicate InvocationsOk(v: View, invocations: map<nat, Invocation>) {
    forall id :: id in invocations ==> InvocationOk(v, invocations[id])
  }

  ghost predicate Inv(w: World) {
    && Contiguous(w.files)
    && LogOk(ViewOf(w)) && LostOk(ViewOf(w), w.lost) && InvocationsOk(ViewOf(w), w.invocations)
    && EffectsOk(w, Log(w.files)) && ReportsOk(w)
  }

  lemma InvParts(w: World)
    requires Inv(w)
    ensures Contiguous(w.files) && LogOk(ViewOf(w)) && LostOk(ViewOf(w), w.lost)
            && InvocationsOk(ViewOf(w), w.invocations)
    ensures EffectsOk(w, Log(w.files)) && ReportsOk(w)
    ensures forall id :: id in w.invocations ==> InvocationOk(ViewOf(w), w.invocations[id])
  {
    hide Contiguous, LogOk, LostOk, EffectsOk, ReportsOk, InvocationOk, ViewOf, Log;
  }

  // ---------- Growth of the view ----------

  lemma InvocationsOkGrow(v: View, v': View, invocations: map<nat, Invocation>)
    requires Grows(v, v') && InvocationsOk(v, invocations)
    requires v'.noOwner ==> forall id :: id in invocations ==> invocations[id].request.ownerInstructionId.None?
    ensures InvocationsOk(v', invocations)
  {
  }

  lemma LostOkGrows(v: View, v': View, lost: set<LostAppend>)
    requires Grows(v, v') && LostOk(v, lost)
    ensures LostOk(v', lost)
  {
  }

  lemma LogOkGrows(v: View, v': View)
    requires Grows(v, v') && LogOk(v) && v'.log == v.log
    ensures LogOk(v')
  {
  }

  /** Every budget of a valid history is non-negative and no row goes back to a smaller one. */
  lemma {:induction false} BudgetsMonotone(history: seq<Receipt>, domain: Domain, cause: Cause, i: nat, j: nat)
    requires ValidHistory(history, domain, cause) && i <= j < |history|
    ensures 0 <= history[i].identityAttempts <= history[j].identityAttempts <= 3
    ensures 0 <= history[i].reconciliationAttempts <= history[j].reconciliationAttempts <= 2
    ensures 0 <= history[i].closeAttempts <= history[j].closeAttempts <= 1
    ensures 0 <= history[i].escalationAttempts <= history[j].escalationAttempts <= 1
    ensures history[j].sequence == j
    decreases j, j - i
  {
    if j > 0 {
      assert Follows(history[j - 1], history[j]);
      BudgetsMonotone(history, domain, cause, if i < j then i else j - 1, j - 1);
    }
  }

  // ---------- What each piece of code between two awaits keeps ----------

  /** What the code knows of the last row it has read, which is a row of the log. */
  lemma LastRow(v: View, inv: Invocation)
    requires LogOk(v) && inv.history <= v.log && inv.history != []
    ensures var last := inv.history[|inv.history| - 1];
            && last.sequence == |inv.history| - 1 && RowOk(v, last)
            && RowValid(last, v.cause.domain, v.cause)
            && 0 <= last.identityAttempts <= 3 && 0 <= last.reconciliationAttempts <= 2
            && 0 <= last.closeAttempts <= 1 && 0 <= last.escalationAttempts <= 1
  {
    var k := |inv.history| - 1;
    assert v.log[k] == inv.history[k];
    BudgetsMonotone(v.log, v.cause.domain, v.cause, k, k);
  }

  lemma TryCommitOk(v: View, inv: Invocation, row: Receipt, after: After)
    requires InvocationOk(v, inv)
    requires RowOk(v, row) && AfterOk(inv.history, row, after)
    ensures var next := TryCommit(inv, row, after);
            InvocationOk(v, next) && next.request == inv.request && !HoldsClose(next) && !HoldsEscalation(next)
  {
  }

  lemma CommitTerminalOk(v: View, inv: Invocation, reason: string, now: int)
    requires LogOk(v) && InvocationOk(v, inv)
    requires inv.history != [] && inv.history[|inv.history| - 1].status == Pending
    ensures var next := CommitTerminal(inv, reason, now);
            InvocationOk(v, next) && next.request == inv.request && !HoldsClose(next) && !HoldsEscalation(next)
  {
    LastRow(v, inv);
    TryCommitOk(v, inv, PlainRow(inv, OwnerAction, reason, TerminalStage, None, None, now), ThenFinish(OwnerAction));
  }

  lemma CommitEscalationOk(v: View, inv: Invocation, now: int)
    requires LogOk(v) && InvocationOk(v, inv) && v.closeConfirmed
    requires ClosePermitted(inv)
    ensures var next := CommitEscalation(inv, now);
            InvocationOk(v, next) && next.request == inv.request && !HoldsClose(next) && !HoldsEscalation(next)
  {
    LastRow(v, inv);
    TryCommitOk(v, inv, Row(inv, Pending, "simulated-escalation-intent", EscalationStage, inv.IdentityAttempts(),
                            inv.ReconciliationAttempts(), inv.CloseAttempts(), 1, None, None, None, now), ThenEscalate);
  }

  lemma CommitConfirmedOk(v: View, inv: Invocation, now: int)
    requires LogOk(v) && InvocationOk(v, inv) && v.closeConfirmed && v.escalationConfirmed
    requires inv.history != [] && inv.history[|inv.history| - 1].status == Pending
    ensures var next := CommitConfirmed(inv, now);
            InvocationOk(v, next) && next.request == inv.request && !HoldsClose(next) && !HoldsEscalation(next)
  {
    LastRow(v, inv);
    TryCommitOk(v, inv, PlainRow(inv, SimulatedClosed, "simulated-close-and-escalation-confirmed", TerminalStage,
                                 None, None, now), ThenFinish(SimulatedClosed));
  }

  lemma CommitReconciliationOk(v: View, inv: Invocation, now: int)
    requires LogOk(v) && InvocationOk(v, inv)
    requires inv.history != [] && inv.history[|inv.history| - 1].status == Pending && inv.CloseAttempts() == 1
    ensures var row := Row(inv, Pending, "simulated-effect-reconciliation", inv.history[|inv.history| - 1].stage,
                           inv.IdentityAttempts(), inv.ReconciliationAttempts() + 1, inv.CloseAttempts(),
                           inv.EscalationAttempts(), None, None, None, now);
            RowOk(v, row) && AfterOk(inv.history, row, ThenReconcile)
  {
    LastRow(v, inv);
  }

  lemma CommitIdentityOk(v: View, inv: Invocation, now: int)
    requires LogOk(v) && InvocationOk(v, inv)
    requires inv.history != [] ==> inv.history[|inv.history| - 1].status == Pending
    requires inv.CloseAttempts() == 0 && inv.IdentityAttempts() < 3
    ensures var row := Row(inv, Pending, "identity-assessment-intent", IdentityStage, inv.IdentityAttempts() + 1,
                           inv.ReconciliationAttempts(), inv.CloseAttempts(), inv.EscalationAttempts(),
                           None, None, None, now);
            RowOk(v, row) && AfterOk(inv.history, row, ThenPreflight)
  {
    if inv.history != [] { LastRow(v, inv); }
  }

  lemma DecideOk(v: View, inv: Invocation, now: int)
    requires LogOk(v) && InvocationOk(v, inv) && inv.phase.Deciding?
    ensures var next := Decide(inv, now);
            InvocationOk(v, next) && next.request == inv.request && !HoldsClose(next) && !HoldsEscalation(next)
  {
    hide ValidHistory, RowOk, TryCommit, CommitTerminal, Row, WriteOk, AfterOk, LogOk;
    var last := inv.Last();
    if last.Some? { LastRow(v, inv); }
    if (last.Some? && last.value.status != Pending) || inv.request.ownerInstructionId.Some? {
    } else if last.Some? && last.value.closeAttempts == 1 {
      if inv.request.cause.domain != Rehearsal {
      } else if last.value.reconciliationAttempts >= 2 {
        CommitTerminalOk(v, inv, "ambiguous-effect-exhausted", now);
      } else {
        CommitReconciliationOk(v, inv, now);
        TryCommitOk(v, inv, Row(inv, Pending, "simulated-effect-reconciliation", last.value.stage,
                                inv.IdentityAttempts(), inv.ReconciliationAttempts() + 1, inv.CloseAttempts(),
                                inv.EscalationAttempts(), None, None, None, now), ThenReconcile);
      }
    } else if inv.IdentityAttempts() >= 3 {
      CommitTerminalOk(v, inv, "identity-recovery-exhausted", now);
    } else {
      CommitIdentityOk(v, inv, now);
      TryCommitOk(v, inv, Row(inv, Pending, "identity-assessment-intent", IdentityStage, inv.IdentityAttempts() + 1,
                              inv.ReconciliationAttempts(), inv.CloseAttempts(), inv.EscalationAttempts(),
                              None, None, None, now), ThenPreflight);
    }
  }

  lemma AnswerOwnerOk(v: View, inv: Invocation, verified: Option<(OwnerInstruction, int, string)>, now: int)
    requires LogOk(v) && InvocationOk(v, inv) && inv.phase.CheckingOwner?
    ensures var next := AnswerOwner(inv, verified, now);
            InvocationOk(v, next) && next.request == inv.request && !HoldsClose(next) && !HoldsEscalation(next)
  {
    if verified.None? {
      FinishOk(v, inv, OwnerAction);
    } else {
      var (instruction, itemId, head) := verified.value;
      if inv.history != [] { LastRow(v, inv); }
      var row := Row(inv, Adopted, "owner-current-head-adoption", TerminalStage, inv.IdentityAttempts(),
                     inv.ReconciliationAttempts(), inv.CloseAttempts(), inv.EscalationAttempts(),
                     Some(itemId), Some(head), Some(instruction), now);
      AdoptionRowOk(v, inv, row, itemId, head, instruction, now);
      hide ValidHistory, RowOk, TryCommit, Row, WriteOk, LogOk;
      TryCommitOk(v, inv, row, ThenFinish(Adopted));
    }
  }

  lemma AdoptionRowOk(v: View, inv: Invocation, row: Receipt, itemId: int, head: string, instruction: OwnerInstruction,
                      now: int)
    requires LogOk(v) && InvocationOk(v, inv) && inv.phase.CheckingOwner?
    requires row == Row(inv, Adopted, "owner-current-head-adoption", TerminalStage, inv.IdentityAttempts(),
                        inv.ReconciliationAttempts(), inv.CloseAttempts(), inv.EscalationAttempts(),
                        Some(itemId), Some(head), Some(instruction), now)
    ensures RowOk(v, row)
  {
    hide ValidHistory;
    if inv.history != [] { LastRow(v, inv); }
  }

  /** After the identity intent every outcome but an unknown one may be committed. */
  lemma FirstPreflightRowOk(v: View, inv: Invocation, status: Status, reason: string, stage: Stage,
                            itemId: Option<int>, head: Option<string>, now: int)
    requires LogOk(v) && InvocationOk(v, inv) && inv.phase.FirstPreflight?
    requires status in {Noop, Trusted, WouldClose} || (status == Pending && inv.IdentityAttempts() < 3)
    ensures RowOk(v, PlainRow(inv, status, reason, stage, itemId, head, now))
  {
    LastRow(v, inv);
  }

  lemma CloseIntentOk(v: View, inv: Invocation, itemId: int, head: string, binding: int, now: int)
    requires LogOk(v) && InvocationOk(v, inv) && inv.phase.FirstPreflight? && v.cause.domain == Rehearsal
    ensures var row := Row(inv, Pending, "simulated-close-intent", CloseStage, inv.IdentityAttempts(),
                           inv.ReconciliationAttempts(), 1, inv.EscalationAttempts(), Some(itemId), Some(head),
                           None, now);
            RowOk(v, row) && AfterOk(inv.history, row, ThenSecondPreflight(binding))
  {
    LastRow(v, inv);
  }

  lemma LastIsPending(inv: Invocation)
    ensures inv.history != [] && AfterOk(inv.history, inv.history[|inv.history| - 1], ThenPreflight) ==>
              inv.history[|inv.history| - 1].status == Pending
    ensures inv.history != [] && AfterOk(inv.history, inv.history[|inv.history| - 1], ThenReconcile) ==>
              inv.history[|inv.history| - 1].status == Pending && inv.CloseAttempts() == 1
  {
  }

  lemma AnswerFirstPreflightOk(v: View, inv: Invocation, outcome: PreflightOutcome, now: int)
    requires LogOk(v) && InvocationOk(v, inv) && inv.phase.FirstPreflight?
    ensures var next := AnswerFirstPreflight(inv, outcome, now);
            InvocationOk(v, next) && next.request == inv.request && !HoldsClose(next) && !HoldsEscalation(next)
  {
    hide ValidHistory, RowOk, TryCommit, CommitTerminal, Row, PlainRow, WriteOk, LogOk;
    LastIsPending(inv);
    match outcome
    case Unknown(reason) =>
      if inv.IdentityAttempts() >= 3 {
        CommitTerminalOk(v, inv, reason, now);
      } else {
        FirstPreflightRowOk(v, inv, Pending, reason, IdentityStage, None, None, now);
        TryCommitOk(v, inv, PlainRow(inv, Pending, reason, IdentityStage, None, None, now), ThenFinish(Pending));
      }
    case AlreadyTerminal(reason, itemId) =>
      FirstPreflightRowOk(v, inv, Noop, reason, TerminalStage, Some(itemId), None, now);
      TryCommitOk(v, inv, PlainRow(inv, Noop, reason, TerminalStage, Some(itemId), None, now), ThenFinish(Noop));
    case Classified(trusted, reason, itemId, head, binding) =>
      var status := if trusted then Trusted else WouldClose;
      FirstPreflightRowOk(v, inv, status, reason, TerminalStage, Some(itemId), Some(head), now);
      TryCommitOk(v, inv, PlainRow(inv, status, reason, TerminalStage, Some(itemId), Some(head), now),
                  ThenFinish(status));
      if v.cause.domain == Rehearsal {
        CloseIntentOk(v, inv, itemId, head, binding, now);
        TryCommitOk(v, inv, Row(inv, Pending, "simulated-close-intent", CloseStage, inv.IdentityAttempts(),
                                inv.ReconciliationAttempts(), 1, inv.EscalationAttempts(), Some(itemId), Some(head),
                                None, now), ThenSecondPreflight(binding));
      }
  }

  lemma AnswerSecondPreflightOk(v: View, inv: Invocation, binding: int, outcome: PreflightOutcome,
                                samePolicy: bool, now: int)
    requires LogOk(v) && InvocationOk(v, inv) && inv.phase.SecondPreflight?
    ensures var next := AnswerSecondPreflight(inv, binding, outcome, samePolicy, now);
            InvocationOk(v, next) && next.request == inv.request && !HoldsEscalation(next)
  {
    CommitTerminalOk(v, inv, "close-preflight-changed", now);
  }

  lemma AnswerCloseOk(v: View, inv: Invocation, call: Call, now: int)
    requires LogOk(v) && InvocationOk(v, inv) && inv.phase.CallingClose?
    requires call.Acknowledged? ==> v.closeConfirmed
    ensures var next := AnswerClose(inv, call, now);
            InvocationOk(v, next) && next.request == inv.request && !HoldsClose(next) && !HoldsEscalation(next)
  {
    if call.Acknowledged? { CommitEscalationOk(v, inv, now); }
  }

  lemma AnswerEscalationOk(v: View, inv: Invocation, call: Call, now: int)
    requires LogOk(v) && InvocationOk(v, inv) && inv.phase.CallingEscalation?
    requires call.Acknowledged? ==> v.escalationConfirmed
    ensures var next := AnswerEscalation(inv, call, now);
            InvocationOk(v, next) && next.request == inv.request && !HoldsClose(next) && !HoldsEscalation(next)
  {
    LastRow(v, inv);
    if call.Acknowledged? { CommitConfirmedOk(v, inv, now); }
  }

  lemma AnswerReconcileOk(v: View, inv: Invocation, evidence: Evidence, now: int)
    requires LogOk(v) && InvocationOk(v, inv) && inv.phase.Reconciling?
    requires evidence.Evidence? ==>
               (evidence.closed ==> v.closeConfirmed) && (evidence.escalated ==> v.escalationConfirmed)
    ensures var next := AnswerReconcile(inv, evidence, now);
            InvocationOk(v, next) && next.request == inv.request && !HoldsClose(next) && !HoldsEscalation(next)
  {
    hide ValidHistory, RowOk, TryCommit, CommitTerminal, CommitEscalation, CommitConfirmed, Row, PlainRow, WriteOk,
         LogOk;
    LastRow(v, inv);
    LastIsPending(inv);
    FinishOk(v, inv, Pending);
    if evidence.Unreadable? || !evidence.closed || (inv.EscalationAttempts() == 1 && !evidence.escalated) {
      CommitTerminalOk(v, inv, "ambiguous-effect-exhausted", now);
    } else if inv.EscalationAttempts() == 0 {
      CommitEscalationOk(v, inv, now);
    } else {
      CommitConfirmedOk(v, inv, now);
    }
  }

  // ---------- What each event does ----------

  lemma LoadEvent(w: World, id: nat)
    requires id in w.invocations
    ensures var inv := w.invocations[id];
            Step(w, Local(id, ReadFile)) == if inv.phase.Loading? then Put(w, id, LoadStep(w, inv)) else w
  {
    hide LoadStep;
  }

  lemma GoEvent(w: World, id: nat, now: int)
    requires id in w.invocations
    ensures var inv := w.invocations[id];
            Step(w, Local(id, Go(now))) == if inv.phase.Deciding? then Put(w, id, Decide(inv, now)) else w
  {
    hide Decide;
  }

  lemma OwnerEvent(w: World, id: nat, verified: Option<(OwnerInstruction, int, string)>, now: int)
    requires id in w.invocations
    ensures var inv := w.invocations[id];
            Step(w, Local(id, Owner(verified, now))) ==
              if inv.phase.CheckingOwner? then Put(w, id, AnswerOwner(inv, verified, now)) else w
  {
    hide AnswerOwner;
  }

  lemma CloseEvent(w: World, id: nat, call: Call, now: int)
    requires id in w.invocations
    ensures var inv := w.invocations[id];
            Step(w, Local(id, CloseCall(call, now))) ==
              if inv.phase.CallingClose? then Put(Closed(w, call), id, AnswerClose(inv, call, now)) else w
  {
    hide AnswerClose;
  }

  lemma EscalationEvent(w: World, id: nat, call: Call, now: int)
    requires id in w.invocations
    ensures var inv := w.invocations[id];
            Step(w, Local(id, EscalationCall(call, now))) ==
              if inv.phase.CallingEscalation? then Put(Escalated(w, call), id, AnswerEscalation(inv, call, now)) else w
  {
    hide AnswerEscalation;
  }

  lemma ReconcileEvent(w: World, id: nat, evidence: Evidence, now: int)
    requires id in w.invocations
    ensures var inv := w.invocations[id];
            Step(w, Local(id, ReconcileCall(evidence, now))) ==
              if inv.phase.Reconciling? then Put(Reported(w, evidence), id, AnswerReconcile(inv, evidence, now)) else w
  {
    hide AnswerReconcile;
  }

  lemma TimedOutEvent(w: World, id: nat)
    requires id in w.invocations
    ensures var inv := w.invocations[id];
            Step(w, Local(id, AppendTimedOut)) ==
              if inv.phase.Appending?
              then Put(w.(lost := w.lost + {LostAppend(inv.history, inv.phase.row)}), id, Finish(inv, OwnerAction))
              else w
  {
  }

  lemma AppendEvent(w: World, id: nat)
    requires id in w.invocations
    ensures var inv := w.invocations[id];
            Step(w, Local(id, AppendOk)) ==
              if inv.phase.Appending? && CanLink(w, inv.phase.row)
              then Put(Linked(w, inv.phase.row), id, AppendAcknowledged(inv)) else w
  {
    hide AppendAcknowledged;
  }

  lemma PreflightEvent(w: World, id: nat, outcome: PreflightOutcome, samePolicy: bool, now: int)
    requires id in w.invocations
    ensures var inv := w.invocations[id];
            Step(w, Local(id, Preflight(outcome, samePolicy, now))) ==
              if inv.phase.FirstPreflight? then Put(w, id, AnswerFirstPreflight(inv, outcome, now))
              else if inv.phase.SecondPreflight?
              then Put(w, id, AnswerSecondPreflight(inv, inv.phase.binding, outcome, samePolicy, now))
              else w
  {
    hide AnswerFirstPreflight, AnswerSecondPreflight;
  }

  lemma EndEvent(w: World, id: nat)
    requires id in w.invocations
    ensures Step(w, Local(id, Abort)) == Put(w, id, Finish(w.invocations[id], OwnerAction))
    ensures Step(w, Local(id, AppendFailed)) ==
              if w.invocations[id].phase.Appending? then Put(w, id, Finish(w.invocations[id], OwnerAction)) else w
  {
  }

  // ---------- What each step of the world keeps ----------

  lemma HoldsInSecond(inv: Invocation)
    requires inv.phase.SecondPreflight?
    ensures HoldsClose(inv)
  {
  }

  lemma HoldsInCall(inv: Invocation)
    ensures inv.phase.CallingClose? ==> HoldsClose(inv)
    ensures inv.phase.CallingEscalation? ==> HoldsEscalation(inv)
  {
  }

  lemma ClosedIs(w: World, call: Call)
    ensures var w1 := Closed(w, call);
            && w1 == w.(closes := w1.closes, closeConfirmed := w1.closeConfirmed)
            && (w.closeConfirmed ==> w1.closeConfirmed) && (call.Acknowledged? ==> w1.closeConfirmed)
            && (ReportsOk(w) ==> ReportsOk(w1)) && w1.lost == w.lost
    ensures Contiguous(w.files) ==> ViewOf(Closed(w, call)).closeConfirmed == Closed(w, call).closeConfirmed
  {
  }

  lemma EscalatedIs(w: World, call: Call)
    ensures var w1 := Escalated(w, call);
            && w1 == w.(escalations := w1.escalations, escalationConfirmed := w1.escalationConfirmed)
            && (w.escalationConfirmed ==> w1.escalationConfirmed) && (call.Acknowledged? ==> w1.escalationConfirmed)
            && (ReportsOk(w) ==> ReportsOk(w1)) && w1.lost == w.lost
    ensures Contiguous(w.files) ==>
              ViewOf(Escalated(w, call)).escalationConfirmed == Escalated(w, call).escalationConfirmed
  {
  }

  lemma ReportedIs(w: World, evidence: Evidence)
    ensures var w1 := Reported(w, evidence);
            && w1 == w.(closeConfirmed := w1.closeConfirmed, escalationConfirmed := w1.escalationConfirmed,
                        falseReport := w1.falseReport)
            && (w.closeConfirmed ==> w1.closeConfirmed) && (w.escalationConfirmed ==> w1.escalationConfirmed)
            && (ReportsOk(w) ==> ReportsOk(w1)) && w1.lost == w.lost
  {
  }

  lemma FinishOk(v: View, inv: Invocation, status: Status)
    requires InvocationOk(v, inv)
    ensures var next := Finish(inv, status);
            InvocationOk(v, next) && next.request == inv.request && !HoldsClose(next) && !HoldsEscalation(next)
  {
    hide ValidHistory, RowOk;
  }

  lemma AppendingOk(v: View, inv: Invocation)
    requires InvocationOk(v, inv) && inv.phase.Appending?
    ensures WriteOk(v, inv.history, inv.phase.row) && AfterOk(inv.history, inv.phase.row, inv.phase.after)
    ensures ValidHistory(inv.history + [inv.phase.row], v.cause.domain, v.cause) && inv.history <= v.log
  {
    hide ValidHistory, RowOk;
  }

  lemma OneMoreLost(v: View, lost: set<LostAppend>, inv: Invocation)
    requires LostOk(v, lost) && InvocationOk(v, inv) && inv.phase.Appending?
    ensures LostOk(v, lost + {LostAppend(inv.history, inv.phase.row)})
  {
    hide ValidHistory, RowOk, WriteOk;
    AppendingOk(v, inv);
  }

  lemma SameOwners(w: World, w1: World)
    requires Contiguous(w.files) && w1 == w.(lost := w1.lost)
    ensures ViewOf(w1) == ViewOf(w)
  {
  }

  lemma SameReports(w: World, w1: World)
    requires ReportsOk(w) && w1 == w.(lost := w1.lost)
    ensures ReportsOk(w1)
  {
  }

  lemma SameInvocations(w: World, row: Receipt)
    requires CanLink(w, row)
    ensures Linked(w, row).invocations == w.invocations
  {
  }

  lemma ViewAfterLink(w: World, base: seq<Receipt>, row: Receipt)
    requires CanLink(w, row) && Contiguous(w.files) && Contiguous(Linked(w, row).files)
    requires base == Log(w.files) && Log(Linked(w, row).files) == Log(w.files) + [row]
    ensures var v, v1 := ViewOf(w), ViewOf(Linked(w, row));
            Grows(v, v1) && v1.noOwner == v.noOwner && v1.log == base + [row] && v.cause == w.cause && v.log == base
  {
  }

  /** One invocation moves on; the files stay and the record of effects only grows. */
  lemma PutKeepsInv(w: World, w1: World, id: nat, inv: Invocation)
    requires Inv(w) && w1.files == w.files && w1.cause == w.cause && w1.invocations == w.invocations
    requires w.closeConfirmed ==> w1.closeConfirmed
    requires w.escalationConfirmed ==> w1.escalationConfirmed
    requires id in w.invocations ==> w.invocations[id].request == inv.request
    requires InvocationOk(ViewOf(Put(w1, id, inv)), inv)
    requires LostOk(ViewOf(w), w1.lost)
    requires EffectsOk(Put(w1, id, inv), Log(w.files)) && ReportsOk(w1)
    ensures Inv(Put(w1, id, inv))
  {
    hide ValidHistory, InvocationOk, RowOk;
    var w' := Put(w1, id, inv);
    var v, v' := ViewOf(w), ViewOf(w');
    ViewGrows(w, w1, id, inv);
    LogOkGrows(v, v');
    LostOkGrows(v, v', w1.lost);
    InvocationsOkGrow(v, v', w.invocations - {id});
    forall j | j in w'.invocations ensures InvocationOk(v', w'.invocations[j]) {
      assert j == id || j in w.invocations - {id};
    }
  }

  lemma ViewGrows(w: World, w1: World, id: nat, inv: Invocation)
    requires Contiguous(w.files) && w1.files == w.files && w1.cause == w.cause && w1.invocations == w.invocations
    requires w.closeConfirmed ==> w1.closeConfirmed
    requires w.escalationConfirmed ==> w1.escalationConfirmed
    requires id in w.invocations ==> w.invocations[id].request == inv.request
    ensures Grows(ViewOf(w), ViewOf(Put(w1, id, inv)))
    ensures NoOwner(Put(w1, id, inv)) ==>
              forall j :: j in w.invocations ==> w.invocations[j].request.ownerInstructionId.None?
  {
    var w' := Put(w1, id, inv);
    forall j | j in w.invocations && NoOwner(w') ensures w.invocations[j].request.ownerInstructionId.None? {
      assert j in w'.invocations;
    }
  }

  /** A link that succeeds proves that the writer's local history is the whole log. */
  lemma LinkExtendsWholeLog(w: World, base: seq<Receipt>, row: Receipt)
    requires Contiguous(w.files) && base <= Log(w.files) && row.sequence == |base| && CanLink(w, row)
    ensures base == Log(w.files)
    ensures Contiguous(Linked(w, row).files) && Log(Linked(w, row).files) == Log(w.files) + [row]
  {
    FreeNameIsNext(w.files, base, row.sequence);
    FilesGrow(w.files, row);
  }

  /** In a contiguous directory the only name a local history can find free next is the first free one. */
  lemma FreeNameIsNext(files: map<nat, Receipt>, base: seq<Receipt>, name: nat)
    requires Contiguous(files) && base <= Log(files) && name == |base| && name !in files
    ensures base == Log(files) && name == |files|
  {
    assert |base| <= |Log(files)| == |files|;
  }

  lemma FilesGrow(files: map<nat, Receipt>, row: Receipt)
    requires Contiguous(files) && row.sequence == |files|
    ensures Contiguous(files[row.sequence := row]) && Log(files[row.sequence := row]) == Log(files) + [row]
  {
    NextName(files, row, row.sequence);
    LogGrows(files, files[row.sequence := row], row);
  }

  lemma NextName(files: map<nat, Receipt>, row: Receipt, name: nat)
    requires Contiguous(files) && name == |files|
    ensures Contiguous(files[name := row]) && |files[name := row]| == |files| + 1
  {
    assert name !in files;
    OneMore(files, name, row);
    var files' := files[name := row];
    forall k: nat ensures k in files' <==> k < |files'| {
      assert k in files' <==> k in files || k == name;
      assert k in files <==> k < |files|;
    }
  }

  lemma OneMore(files: map<nat, Receipt>, name: nat, row: Receipt)
    requires name !in files
    ensures |files[name := row]| == |files| + 1
  {
    var keys, keys' := files.Keys, files[name := row].Keys;
    assert keys' == keys + {name};
    assert |keys'| == |keys| + 1;
  }

  lemma LogGrows(files: map<nat, Receipt>, files': map<nat, Receipt>, row: Receipt)
    requires Contiguous(files) && Contiguous(files') && |files'| == |files| + 1
    requires row.sequence == |files| && files' == files[row.sequence := row]
    ensures Log(files') == Log(files) + [row]
  {
    hide Contiguous;
    LogIs(files);
    LogIs(files');
  }

  lemma LogIs(files: map<nat, Receipt>)
    requires Contiguous(files)
    ensures |Log(files)| == |files| && forall k :: 0 <= k < |files| ==> k in files && Log(files)[k] == files[k]
  {
  }

  lemma LinkKeepsInv(w: World, base: seq<Receipt>, row: Receipt)
    requires Inv(w) && WriteOk(ViewOf(w), base, row) && CanLink(w, row)
    ensures base == Log(w.files)
    ensures Contiguous(Linked(w, row).files) && Log(Linked(w, row).files) == Log(w.files) + [row]
    ensures Inv(Linked(w, row))
  {
    hide *;
    InvParts(w);
    WriteFits(ViewOf(w), base, row);
    OwnersOf(w);
    LinkExtendsWholeLog(w, base, row);
    ViewAfterLink(w, base, row);
    var w' := Linked(w, row);
    var v, v' := ViewOf(w), ViewOf(w');
    SameInvocations(w, row);
    OwnersOf(w');
    InvocationsOkGrow(v, v', w.invocations);
    LostOkGrows(v, v', w.lost);
    LongerLogOk(v, v', row);
    BudgetsGrow(base, row, w.cause);
    LinkKeepsEffects(w, base, row);
    AsInv(w');
  }

  lemma WriteFits(v: View, base: seq<Receipt>, row: Receipt)
    requires WriteOk(v, base, row)
    ensures base <= v.log && row.sequence == |base| && RowOk(v, row)
            && ValidHistory(base + [row], v.cause.domain, v.cause)
  {
    hide RowOk;
    var h := base + [row];
    BudgetsMonotone(h, v.cause.domain, v.cause, |base|, |base|);
  }

  lemma OwnersOf(w: World)
    requires Contiguous(w.files)
    ensures ViewOf(w).log == Log(w.files) && ViewOf(w).cause == w.cause
    ensures ViewOf(w).noOwner ==>
              forall id :: id in w.invocations ==> w.invocations[id].request.ownerInstructionId.None?
  {
  }

  lemma LinkKeepsEffects(w: World, base: seq<Receipt>, row: Receipt)
    requires CanLink(w, row) && Contiguous(w.files) && EffectsOk(w, Log(w.files)) && base == Log(w.files)
             && ReportsOk(w)
    requires CloseOf(base) <= row.closeAttempts <= 1 && EscalationOf(base) <= row.escalationAttempts <= 1
    ensures EffectsOk(Linked(w, row), base + [row]) && ReportsOk(Linked(w, row)) && Linked(w, row).lost == w.lost
  {
  }

  lemma AsInv(w: World)
    requires Contiguous(w.files) && LogOk(ViewOf(w)) && LostOk(ViewOf(w), w.lost)
    requires InvocationsOk(ViewOf(w), w.invocations) && EffectsOk(w, Log(w.files)) && ReportsOk(w)
    ensures Inv(w)
  {
    hide Contiguous, LogOk, LostOk, InvocationsOk, EffectsOk, ReportsOk, ViewOf, Log;
  }

  lemma LongerLogOk(v: View, v': View, row: Receipt)
    requires LogOk(v) && RowOk(v, row) && Grows(v, v') && v'.log == v.log + [row]
    requires ValidHistory(v'.log, v.cause.domain, v.cause)
    ensures LogOk(v')
  {
    forall i | 0 <= i < |v'.log| ensures RowOk(v', v'.log[i]) {
      assert RowOk(v, if i < |v.log| then v.log[i] else row);
    }
  }

  /** A step that neither gains nor uses the right to an effect. */
  lemma QuietStep(w: World, w1: World, id: nat, inv: Invocation)
    requires Inv(w) && w1.files == w.files && w1.cause == w.cause && w1.invocations == w.invocations
    requires w1.closes == w.closes && w1.escalations == w.escalations
    requires w.closeConfirmed ==> w1.closeConfirmed
    requires w.escalationConfirmed ==> w1.escalationConfirmed
    requires id in w.invocations ==> w.invocations[id].request == inv.request
    requires InvocationOk(ViewOf(Put(w1, id, inv)), inv)
    requires LostOk(ViewOf(w), w1.lost)
    requires HoldsClose(inv) ==> id in w.invocations && HoldsClose(w.invocations[id])
    requires !HoldsEscalation(inv)
    requires ReportsOk(w1)
    ensures Inv(Put(w1, id, inv))
  {
    hide ValidHistory, InvocationOk, RowOk;
    assert EffectsOk(Put(w1, id, inv), Log(w.files));
    PutKeepsInv(w, w1, id, inv);
  }

  /** An invocation that moves on keeps its request, so the view of the world stays the same. */
  lemma SameView(w: World, id: nat, inv: Invocation)
    requires Contiguous(w.files) && id in w.invocations && w.invocations[id].request == inv.request
    ensures ViewOf(Put(w, id, inv)) == ViewOf(w)
  {
    var w' := Put(w, id, inv);
    if NoOwner(w') {
      forall j | j in w.invocations ensures w.invocations[j].request.ownerInstructionId.None? {
        assert j in w'.invocations;
      }
    }
  }

  /** The record of effects grows and nothing else changes. */
  lemma OkAfterwards(w: World, w1: World, id: nat)
    requires Inv(w) && w1.files == w.files && w1.cause == w.cause && w1.invocations == w.invocations
    requires w.closeConfirmed ==> w1.closeConfirmed
    requires w.escalationConfirmed ==> w1.escalationConfirmed
    requires id in w.invocations
    ensures LogOk(ViewOf(w1)) && InvocationOk(ViewOf(w1), w.invocations[id])
  {
    assert Grows(ViewOf(w), ViewOf(w1));
    LogOkGrows(ViewOf(w), ViewOf(w1));
    InvocationsOkGrow(ViewOf(w), ViewOf(w1), w.invocations);
  }

  /** Code between two awaits that leaves the files and the effects alone. */
  lemma CodeStep(w: World, id: nat, inv: Invocation)
    requires Inv(w) && id in w.invocations && w.invocations[id].request == inv.request
    requires InvocationOk(ViewOf(w), inv) && !HoldsEscalation(inv)
    requires HoldsClose(inv) ==> HoldsClose(w.invocations[id])
    ensures Inv(Put(w, id, inv))
  {
    hide *;
    InvParts(w);
    SameView(w, id, inv);
    QuietStep(w, w, id, inv);
  }

  lemma LoadStepOk(w: World, inv: Invocation)
    requires Inv(w) && InvocationOk(ViewOf(w), inv) && inv.phase.Loading?
    ensures var next := LoadStep(w, inv);
            InvocationOk(ViewOf(w), next) && next.request == inv.request && !HoldsClose(next) && !HoldsEscalation(next)
  {
    hide ValidHistory, RowOk, EffectsOk, LostOk, InvocationsOk;
  }

  lemma LoadKeepsInv(w: World, id: nat)
    requires Inv(w) && id in w.invocations
    ensures Inv(Step(w, Local(id, ReadFile)))
  {
    hide *;
    InvParts(w);
    LoadEvent(w, id);
    var inv := w.invocations[id];
    if inv.phase.Loading? {
      LoadStepOk(w, inv);
      CodeStep(w, id, LoadStep(w, inv));
    }
  }

  lemma GoKeepsInv(w: World, id: nat, now: int)
    requires Inv(w) && id in w.invocations
    ensures Inv(Step(w, Local(id, Go(now))))
  {
    hide *;
    InvParts(w);
    GoEvent(w, id, now);
    var inv := w.invocations[id];
    if inv.phase.Deciding? {
      DecideOk(ViewOf(w), inv, now);
      CodeStep(w, id, Decide(inv, now));
    }
  }

  lemma OwnerKeepsInv(w: World, id: nat, verified: Option<(OwnerInstruction, int, string)>, now: int)
    requires Inv(w) && id in w.invocations
    ensures Inv(Step(w, Local(id, Owner(verified, now))))
  {
    hide *;
    InvParts(w);
    OwnerEvent(w, id, verified, now);
    var inv := w.invocations[id];
    if inv.phase.CheckingOwner? {
      AnswerOwnerOk(ViewOf(w), inv, verified, now);
      CodeStep(w, id, AnswerOwner(inv, verified, now));
    }
  }

  lemma FirstPreflightKeepsInv(w: World, id: nat, outcome: PreflightOutcome, now: int)
    requires Inv(w) && id in w.invocations && w.invocations[id].phase.FirstPreflight?
    ensures Inv(Put(w, id, AnswerFirstPreflight(w.invocations[id], outcome, now)))
  {
    hide *;
    InvParts(w);
    AnswerFirstPreflightOk(ViewOf(w), w.invocations[id], outcome, now);
    CodeStep(w, id, AnswerFirstPreflight(w.invocations[id], outcome, now));
  }

  lemma SecondPreflightKeepsInv(w: World, id: nat, outcome: PreflightOutcome, samePolicy: bool, now: int)
    requires Inv(w) && id in w.invocations && w.invocations[id].phase.SecondPreflight?
    ensures Inv(Put(w, id, AnswerSecondPreflight(w.invocations[id], w.invocations[id].phase.binding, outcome,
                                                 samePolicy, now)))
  {
    hide *;
    InvParts(w);
    var binding := w.invocations[id].phase.binding;
    AnswerSecondPreflightOk(ViewOf(w), w.invocations[id], binding, outcome, samePolicy, now);
    HoldsInSecond(w.invocations[id]);
    CodeStep(w, id, AnswerSecondPreflight(w.invocations[id], binding, outcome, samePolicy, now));
  }

  lemma PreflightKeepsInv(w: World, id: nat, outcome: PreflightOutcome, samePolicy: bool, now: int)
    requires Inv(w) && id in w.invocations
    ensures Inv(Step(w, Local(id, Preflight(outcome, samePolicy, now))))
  {
    hide *;
    PreflightEvent(w, id, outcome, samePolicy, now);
    if w.invocations[id].phase.FirstPreflight? {
      FirstPreflightKeepsInv(w, id, outcome, now);
    } else if w.invocations[id].phase.SecondPreflight? {
      SecondPreflightKeepsInv(w, id, outcome, samePolicy, now);
    }
  }

  lemma EndKeepsInv(w: World, id: nat)
    requires Inv(w) && id in w.invocations
    ensures Inv(Put(w, id, Finish(w.invocations[id], OwnerAction)))
  {
    hide *;
    InvParts(w);
    FinishOk(ViewOf(w), w.invocations[id], OwnerAction);
    CodeStep(w, id, Finish(w.invocations[id], OwnerAction));
  }

  /** Invoking the close uses up the one right to it. */
  lemma CloseKeepsInv(w: World, id: nat, call: Call, now: int)
    requires Inv(w) && id in w.invocations
    ensures Inv(Step(w, Local(id, CloseCall(call, now))))
  {
    hide *;
    InvParts(w);
    CloseEvent(w, id, call, now);
    var inv := w.invocations[id];
    if inv.phase.CallingClose? {
      var w1, next := Closed(w, call), AnswerClose(inv, call, now);
      ClosedIs(w, call);
      OkAfterwards(w, w1, id);
      AnswerCloseOk(ViewOf(w1), inv, call, now);
      SameView(w1, id, next);
      HoldsInCall(inv);
      CloseUsesRight(w, id, call, next);
      PutKeepsInv(w, w1, id, next);
    }
  }

  lemma CloseUsesRight(w: World, id: nat, call: Call, next: Invocation)
    requires Contiguous(w.files) && EffectsOk(w, Log(w.files)) && id in w.invocations && HoldsClose(w.invocations[id])
    requires !HoldsClose(next) && !HoldsEscalation(next)
    ensures EffectsOk(Put(Closed(w, call), id, next), Log(w.files))
  {
  }

  lemma EscalationKeepsInv(w: World, id: nat, call: Call, now: int)
    requires Inv(w) && id in w.invocations
    ensures Inv(Step(w, Local(id, EscalationCall(call, now))))
  {
    hide *;
    InvParts(w);
    EscalationEvent(w, id, call, now);
    var inv := w.invocations[id];
    if inv.phase.CallingEscalation? {
      var w1, next := Escalated(w, call), AnswerEscalation(inv, call, now);
      EscalatedIs(w, call);
      OkAfterwards(w, w1, id);
      AnswerEscalationOk(ViewOf(w1), inv, call, now);
      SameView(w1, id, next);
      HoldsInCall(inv);
      EscalationUsesRight(w, id, call, next);
      PutKeepsInv(w, w1, id, next);
    }
  }

  lemma EscalationUsesRight(w: World, id: nat, call: Call, next: Invocation)
    requires Contiguous(w.files) && EffectsOk(w, Log(w.files)) && id in w.invocations
    requires HoldsEscalation(w.invocations[id]) && !HoldsClose(next) && !HoldsEscalation(next)
    ensures EffectsOk(Put(Escalated(w, call), id, next), Log(w.files))
  {
  }

  lemma ReportKeepsInv(w: World, evidence: Evidence, id: nat, next: Invocation)
    requires Inv(w) && id in w.invocations && w.invocations[id].request == next.request
    requires InvocationOk(ViewOf(Reported(w, evidence)), next) && !HoldsClose(next) && !HoldsEscalation(next)
    ensures Inv(Put(Reported(w, evidence), id, next))
  {
    hide *;
    InvParts(w);
    ReportedIs(w, evidence);
    SameView(Reported(w, evidence), id, next);
    QuietStep(w, Reported(w, evidence), id, next);
  }

  lemma ReconciledOk(w: World, id: nat, evidence: Evidence, now: int)
    requires Inv(w) && id in w.invocations && w.invocations[id].phase.Reconciling?
    ensures var next := AnswerReconcile(w.invocations[id], evidence, now);
            && InvocationOk(ViewOf(Reported(w, evidence)), next) && next.request == w.invocations[id].request
            && !HoldsClose(next) && !HoldsEscalation(next)
  {
    hide ValidHistory, RowOk, EffectsOk, LostOk, InvocationOk, LogOk, Inv, AnswerReconcile;
    InvParts(w);
    OkAfterwards(w, Reported(w, evidence), id);
    AnswerReconcileOk(ViewOf(Reported(w, evidence)), w.invocations[id], evidence, now);
  }

  lemma ReconcileKeepsInv(w: World, id: nat, evidence: Evidence, now: int)
    requires Inv(w) && id in w.invocations
    ensures Inv(Step(w, Local(id, ReconcileCall(evidence, now))))
  {
    hide *;
    ReconcileEvent(w, id, evidence, now);
    if w.invocations[id].phase.Reconciling? {
      ReconciledOk(w, id, evidence, now);
      ReportKeepsInv(w, evidence, id, AnswerReconcile(w.invocations[id], evidence, now));
    }
  }

  lemma TimedOutKeepsInv(w: World, id: nat)
    requires Inv(w) && id in w.invocations
    ensures Inv(Step(w, Local(id, AppendTimedOut)))
  {
    hide *;
    InvParts(w);
    TimedOutEvent(w, id);
    var inv := w.invocations[id];
    if inv.phase.Appending? {
      var w1, next := w.(lost := w.lost + {LostAppend(inv.history, inv.phase.row)}), Finish(inv, OwnerAction);
      SameOwners(w, w1);
      FinishOk(ViewOf(w), inv, OwnerAction);
      SameView(w1, id, next);
      OneMoreLost(ViewOf(w), w.lost, inv);
      SameReports(w, w1);
      QuietStep(w, w1, id, next);
    }
  }

  /** An acknowledged append: the writer now holds the whole log, and a right to an effect only if the row
      it appended is the first to spend that effect's budget. */
  lemma AppendKeepsInv(w: World, id: nat)
    requires Inv(w) && id in w.invocations
    ensures Inv(Step(w, Local(id, AppendOk)))
  {
    hide *;
    InvParts(w);
    AppendEvent(w, id);
    var inv := w.invocations[id];
    if inv.phase.Appending? && CanLink(w, inv.phase.row) {
      AppendingOk(ViewOf(w), inv);
      LinkKeepsInv(w, inv.history, inv.phase.row);
      AppendedOk(w, id);
      AppendedKeepsInv(w, id, inv.phase.row, AppendAcknowledged(inv));
    }
  }

  lemma AppendedOk(w: World, id: nat)
    requires Inv(w) && id in w.invocations
    requires w.invocations[id].phase.Appending? && CanLink(w, w.invocations[id].phase.row)
    requires var inv := w.invocations[id]; var w1 := Linked(w, inv.phase.row);
             && inv.history == Log(w.files)
             && Contiguous(w1.files) && Log(w1.files) == Log(w.files) + [inv.phase.row]
    ensures var inv := w.invocations[id]; var w1 := Linked(w, inv.phase.row); var next := AppendAcknowledged(inv);
            && InvocationOk(ViewOf(w1), next) && next.request == inv.request
            && EffectsOk(Put(w1, id, next), Log(w1.files))
  {
    hide *;
    InvParts(w);
    var inv := w.invocations[id];
    AppendingOk(ViewOf(w), inv);
    ViewAfterLink(w, inv.history, inv.phase.row);
    AcknowledgedOk(ViewOf(w), ViewOf(Linked(w, inv.phase.row)), inv);
    BudgetsGrow(inv.history, inv.phase.row, w.cause);
    AppendGivesRight(w, id);
  }

  lemma AppendedKeepsInv(w: World, id: nat, row: Receipt, next: Invocation)
    requires CanLink(w, row) && Inv(Linked(w, row)) && id in w.invocations
    requires w.invocations[id].request == next.request
    requires InvocationOk(ViewOf(Linked(w, row)), next)
    requires EffectsOk(Put(Linked(w, row), id, next), Log(Linked(w, row).files))
    ensures Inv(Put(Linked(w, row), id, next))
  {
    hide *;
    InvParts(Linked(w, row));
    SameInvocations(w, row);
    SameView(Linked(w, row), id, next);
    PutKeepsInv(Linked(w, row), Linked(w, row), id, next);
  }

  lemma BudgetsGrow(base: seq<Receipt>, row: Receipt, cause: Cause)
    requires ValidHistory(base + [row], cause.domain, cause)
    ensures CloseOf(base) <= row.closeAttempts <= 1
    ensures EscalationOf(base) <= row.escalationAttempts <= 1
  {
    var h := base + [row];
    BudgetsMonotone(h, cause.domain, cause, if |base| > 0 then |base| - 1 else 0, |base|);
    if base != [] { assert h[|base| - 1] == base[|base| - 1]; }
  }

  lemma AcknowledgedOk(v: View, v1: View, inv: Invocation)
    requires InvocationOk(v, inv) && inv.phase.Appending?
    requires Grows(v, v1) && v1.noOwner == v.noOwner && v1.log == inv.history + [inv.phase.row]
    ensures InvocationOk(v1, AppendAcknowledged(inv)) && AppendAcknowledged(inv).request == inv.request
  {
    hide ValidHistory, RowOk;
    var next := AppendAcknowledged(inv);
    assert next.history[|next.history| - 1] == inv.phase.row;
  }

  lemma AppendGivesRight(w: World, id: nat)
    requires Contiguous(w.files) && EffectsOk(w, Log(w.files)) && id in w.invocations
    requires w.invocations[id].phase.Appending? && CanLink(w, w.invocations[id].phase.row)
    requires var inv := w.invocations[id];
             && inv.history == Log(w.files) && AfterOk(inv.history, inv.phase.row, inv.phase.after)
             && CloseOf(inv.history) <= inv.phase.row.closeAttempts <= 1
             && EscalationOf(inv.history) <= inv.phase.row.escalationAttempts <= 1
    ensures var inv := w.invocations[id];
            EffectsOk(Put(Linked(w, inv.phase.row), id, AppendAcknowledged(inv)), inv.history + [inv.phase.row])
  {
  }

  lemma StartKeepsInv(w: World, id: nat, request: Request)
    requires Inv(w)
    ensures Inv(Step(w, Start(id, request)))
  {
    hide ValidHistory, EffectsOk, RowOk;
    if id !in w.invocations && request.cause == w.cause && ValidTarget(request) {
      var w1, inv := w.(registered := true), Invocation(request, Loading(!w.registered, 0, false), []);
      assert InvocationOk(ViewOf(Put(w1, id, inv)), inv) by { assert id in Put(w1, id, inv).invocations; }
      QuietStep(w, w1, id, inv);
    }
  }

  lemma LateLinkKeepsInv(w: World, append: LostAppend)
    requires Inv(w)
    ensures Inv(Step(w, LateLink(append)))
  {
    if append in w.lost && CanLink(w, append.row) { LinkKeepsInv(w, append.base, append.row); }
  }

  lemma LocalStepKeepsInv(w: World, id: nat, event: Event)
    requires Inv(w) && id in w.invocations
    ensures Inv(Step(w, Local(id, event)))
  {
    hide *;
    match event
    case ReadFile => LoadKeepsInv(w, id);
    case Go(now) => GoKeepsInv(w, id, now);
    case Owner(verified, now) => OwnerKeepsInv(w, id, verified, now);
    case Preflight(outcome, samePolicy, now) => PreflightKeepsInv(w, id, outcome, samePolicy, now);
    case AppendOk => AppendKeepsInv(w, id);
    case AppendFailed => EndEvent(w, id); EndKeepsInv(w, id);
    case AppendTimedOut => TimedOutKeepsInv(w, id);
    case CloseCall(call, now) => CloseKeepsInv(w, id, call, now);
    case ReconcileCall(evidence, now) => ReconcileKeepsInv(w, id, evidence, now);
    case EscalationCall(call, now) => EscalationKeepsInv(w, id, call, now);
    case Abort => EndEvent(w, id); EndKeepsInv(w, id);
  }

  lemma StepKeepsInv(w: World, a: Action)
    requires Inv(w)
    ensures Inv(Step(w, a))
  {
    match a
    case Start(id, request) => StartKeepsInv(w, id, request);
    case LateLink(append) => LateLinkKeepsInv(w, append);
    case Local(id, event) => if id in w.invocations { LocalStepKeepsInv(w, id, event); }
  }

  // ---------- Every run ----------

  lemma InitialWorldInv(cause: Cause)
    ensures Inv(InitialWorld(cause))
  {
    assert Log(InitialWorld(cause).files) == [];
  }

  lemma {:induction false} RunKeepsInv(cause: Cause, actions: seq<Action>)
    ensures Inv(Run(cause, actions))
  {
    if actions == [] {
      InitialWorldInv(cause);
    } else {
      RunKeepsInv(cause, actions[..|actions| - 1]);
      StepKeepsInv(Run(cause, actions[..|actions| - 1]), actions[|actions| - 1]);
    }
  }

  /** Over every interleaving each effect is invoked at most once for a cause. */
  lemma EffectsAtMostOnce(cause: Cause, actions: seq<Action>)
    ensures Run(cause, actions).closes <= 1 && Run(cause, actions).escalations <= 1
  {
    RunKeepsInv(cause, actions);
  }

  /** Which steps invoke an effect. */
  lemma EffectSteps(w: World, id: nat, inv: Invocation, event: Event)
    ensures LocalStep(w, id, inv, event).escalations > w.escalations ==> HoldsEscalation(inv)
    ensures LocalStep(w, id, inv, event).closes > w.closes ==> inv.phase.CallingClose?
  {
    hide LoadStep, Decide, AnswerOwner, AnswerFirstPreflight, AnswerSecondPreflight, AnswerClose, AnswerReconcile,
         AnswerEscalation, AppendAcknowledged, CanLink, Finish;
  }

  lemma EscalationNeedsRight(w: World, a: Action)
    requires Step(w, a).escalations > w.escalations
    ensures a.Local? && a.id in w.invocations && HoldsEscalation(w.invocations[a.id])
  {
    hide LocalStep, CanLink, ValidTarget;
    if a.Local? && a.id in w.invocations { EffectSteps(w, a.id, w.invocations[a.id], a.event); }
  }

  /** The step that invokes the escalation is the first to do so, and the close was confirmed before it. */
  lemma EscalationFollowsConfirmedClose(cause: Cause, actions: seq<Action>, a: Action)
    requires Step(Run(cause, actions), a).escalations > Run(cause, actions).escalations
    ensures Run(cause, actions).closeConfirmed && Run(cause, actions).escalations == 0
  {
    hide ValidHistory, Step;
    var w := Run(cause, actions);
    RunKeepsInv(cause, actions);
    EscalationNeedsRight(w, a);
    assert EscalationOf(Log(w.files)) == 1;
    assert RowOk(ViewOf(w), Log(w.files)[|Log(w.files)| - 1]);
  }

  /** A `simulated-closed` row means that both effects were confirmed, and when no reconciliation reported an
      effect that never ran, that each was invoked exactly once. */
  lemma SimulatedClosedMeansBothConfirmed(cause: Cause, actions: seq<Action>, k: nat)
    requires k in Run(cause, actions).files && Run(cause, actions).files[k].status == SimulatedClosed
    ensures var w := Run(cause, actions);
            && w.closeConfirmed && w.escalationConfirmed
            && (!w.falseReport ==> w.closes == 1 && w.escalations == 1)
  {
    hide ValidHistory;
    RunKeepsInv(cause, actions);
    var w := Run(cause, actions);
    assert Log(w.files)[k] == w.files[k];
  }

  /** In every reachable log the files are numbered without gaps, the history check accepts them, and the four
      budgets never shrink and never pass their caps. */
  lemma ReachableLogIsValid(cause: Cause, actions: seq<Action>, i: nat, j: nat)
    requires i <= j && j in Run(cause, actions).files
    ensures var files := Run(cause, actions).files;
            && Contiguous(files) && ValidHistory(Log(files), cause.domain, cause) && |files| <= HISTORY_BOUND
            && files[i].identityAttempts <= files[j].identityAttempts <= 3
            && files[i].reconciliationAttempts <= files[j].reconciliationAttempts <= 2
            && files[i].closeAttempts <= files[j].closeAttempts <= 1
            && files[i].escalationAttempts <= files[j].escalationAttempts <= 1
  {
    RunKeepsInv(cause, actions);
    RunKeepsCause(cause, actions);
    var files := Run(cause, actions).files;
    BudgetsMonotone(Log(files), cause.domain, cause, i, j);
  }

  lemma {:induction false} RunKeepsCause(cause: Cause, actions: seq<Action>)
    ensures Run(cause, actions).cause == cause
  {
    if actions != [] { RunKeepsCause(cause, actions[..|actions| - 1]); }
  }

  /** Without an owner instruction a cause never gets more than ten receipts. */
  lemma AtMostTenReceipts(cause: Cause, actions: seq<Action>)
    requires NoOwner(Run(cause, actions))
    ensures |Run(cause, actions).files| <= 10
  {
    RunKeepsInv(cause, actions);
    var w := Run(cause, actions);
    var log := Log(w.files);
    if log != [] {
      var n := |log| - 1;
      BudgetsMonotone(log, w.cause.domain, w.cause, n, n);
      assert RowOk(ViewOf(w), log[n]);
    }
  }
}
