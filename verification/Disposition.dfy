/** The admission-disposition protocol: receipts, the history check, and the code between two awaits. */
module Disposition {
  import opened Wrappers

  datatype Domain = Shadow | Rehearsal

  datatype Stage = IdentityStage | CloseStage | EscalationStage | TerminalStage

  datatype Status =
    | NotEnabled | Trusted | WouldClose | Pending | OwnerAction | Noop | Adopted | SimulatedClosed

  /** The five values hashed into a cause; the hash is injective, so the values stand for it. */
  datatype Cause = Cause(domain: Domain, repositoryId: int, owner: string, repo: string, prNumber: int)

  /** A SHA-256 digest of settings or comment text, taken as injective and always well formed. */
  datatype Digest = Digest(of: int)

  /** The `previous` field: "root", or the hash of the preceding receipt, taken as injective. */
  datatype Link = Root | HashOf(row: Receipt)

  datatype OwnerInstruction =
    OwnerInstruction(commentId: int, actorId: int, updatedAt: int, contentDigest: Digest)

  datatype Receipt = Receipt(
    version: string,
    domain: Domain,
    cause: Cause,
    sequence: int,
    previous: Link,
    firstReason: string,
    originalReason: Option<string>,
    reason: string,
    stage: Stage,
    status: Status,
    repositoryId: int,
    prNumber: int,
    itemId: Option<int>,
    headSha: Option<string>,
    expectedHeadSha: Option<string>,
    ownerInstruction: Option<OwnerInstruction>,
    policy: Digest,
    atMs: int,
    identityAttempts: int,
    reconciliationAttempts: int,
    closeAttempts: int,
    escalationAttempts: int)

  const VERSION := "admission-disposition-v1"
  const HISTORY_BOUND := 16
  const MAX_SAFE_INTEGER := 0x1F_FFFF_FFFF_FFFF

  // ---------- The history check ----------

  predicate PositiveId(n: int) {
    0 < n <= MAX_SAFE_INTEGER
  }

  predicate ReasonText(s: string) {
    1 <= |s| <= 80 && forall i :: 0 <= i < |s| ==> 'a' <= s[i] <= 'z' || s[i] == '-'
  }

  predicate HeadSha(s: string) {
    |s| == 40 && forall i :: 0 <= i < |s| ==>
      '0' <= s[i] <= '9' || 'a' <= s[i] <= 'f' || 'A' <= s[i] <= 'F'
  }

  /** What is required of one row whatever precedes it. */
  predicate RowValid(row: Receipt, domain: Domain, cause: Cause) {
    && row.version == VERSION && row.domain == domain && row.cause == cause
    && PositiveId(row.repositoryId) && PositiveId(row.prNumber)
    && ReasonText(row.firstReason) && ReasonText(row.reason)
    && row.status != NotEnabled
    && (row.originalReason.Some? ==> ReasonText(row.originalReason.value))
    && (row.headSha.Some? ==> HeadSha(row.headSha.value))
    && (row.status == SimulatedClosed ==>
          domain == Rehearsal && row.closeAttempts == 1 && row.escalationAttempts == 1 && row.stage == TerminalStage)
    && (row.status == Adopted ==> row.ownerInstruction.Some?)
    && (row.ownerInstruction.Some? ==>
          && row.status == Adopted
          && PositiveId(row.ownerInstruction.value.commentId) && PositiveId(row.ownerInstruction.value.actorId)
          && row.ownerInstruction.value.updatedAt <= row.atMs)
    && row.identityAttempts <= 3 && row.reconciliationAttempts <= 2
    && row.closeAttempts <= 1 && row.escalationAttempts <= 1
  }

  predicate Starts(row: Receipt) {
    && row.sequence == 0 && row.previous == Root
    && 0 <= row.identityAttempts && 0 <= row.reconciliationAttempts
    && 0 <= row.closeAttempts && 0 <= row.escalationAttempts
  }

  predicate Follows(prior: Receipt, row: Receipt) {
    && row.sequence == prior.sequence + 1 && row.previous == HashOf(prior)
    && prior.identityAttempts <= row.identityAttempts
    && prior.reconciliationAttempts <= row.reconciliationAttempts
    && prior.closeAttempts <= row.closeAttempts
    && prior.escalationAttempts <= row.escalationAttempts
    && row.firstReason == prior.firstReason
    && (prior.originalReason.Some? ==> row.originalReason == prior.originalReason)
    && row.repositoryId == prior.repositoryId && row.prNumber == prior.prNumber
    && (prior.itemId.Some? ==> row.itemId == prior.itemId)
  }

  predicate ValidHistory(history: seq<Receipt>, domain: Domain, cause: Cause) {
    && |history| <= HISTORY_BOUND
    && (forall i :: 0 <= i < |history| ==> RowValid(history[i], domain, cause))
    && (|history| > 0 ==> Starts(history[0]))
    && (forall i :: 0 < i < |history| ==> Follows(history[i - 1], history[i]))
  }

  /** The check as the source runs it: one pass that carries the prior row. */
  method ValidateHistory(history: seq<Receipt>, domain: Domain, cause: Cause) returns (valid: bool)
    ensures valid <==> ValidHistory(history, domain, cause)
  {
    if |history| > HISTORY_BOUND {
      return false;
    }
    var prior: Option<Receipt> := None;
    for i := 0 to |history|
      invariant prior == if i == 0 then None else Some(history[i - 1])
      invariant ValidHistory(history[..i], domain, cause)
    {
      var row := history[i];
      assert history[..i + 1] == history[..i] + [row];
      if !RowValid(row, domain, cause) || !(if prior.Some? then Follows(prior.value, row) else Starts(row)) {
        return false;
      }
      prior := Some(row);
    }
    assert history[..|history|] == history;
    return true;
  }

  /** The whole history a receipt commits to through its chain of hashes. */
  function Chain(row: Receipt): seq<Receipt> {
    match row.previous
    case Root => [row]
    case HashOf(prior) => Chain(prior) + [row]
  }

  /** The hash of any row of a valid history pins every row before it. */
  lemma {:induction false} RowDeterminesPrefix(history: seq<Receipt>, domain: Domain, cause: Cause, k: nat)
    requires ValidHistory(history, domain, cause) && k < |history|
    ensures history[..k + 1] == Chain(history[k])
  {
    if k == 0 {
      assert history[0].previous == Root;
      assert history[..1] == [history[0]];
    } else {
      RowDeterminesPrefix(history, domain, cause, k - 1);
      assert Follows(history[k - 1], history[k]);
      assert Chain(history[k]) == Chain(history[k - 1]) + [history[k]];
      assert history[..k + 1] == history[..k] + [history[k]];
    }
  }

  // ---------- One invocation ----------

  /** What `executeAdmissionDisposition` is called with once its first guards have passed: a simulation is
      present exactly in the rehearsal domain. */
  datatype Request = Request(
    cause: Cause,
    policy: Digest,
    headSha: Option<string>,
    ownerInstructionId: Option<int>)

  /** Where the code goes on once an append has been acknowledged. */
  datatype After =
    | ThenFinish(status: Status)
    | ThenPreflight
    | ThenSecondPreflight(binding: int)
    | ThenReconcile
    | ThenEscalate

  datatype Phase =
    | Loading(created: bool, next: nat, missing: bool)
    | Deciding
    | CheckingOwner
    | Appending(row: Receipt, after: After)
    | FirstPreflight
    | SecondPreflight(binding: int)
    | CallingClose
    | Reconciling
    | CallingEscalation
    | Finished(status: Status)

  datatype Invocation = Invocation(request: Request, phase: Phase, history: seq<Receipt>) {
    function Last(): Option<Receipt> {
      if history == [] then None else Some(history[|history| - 1])
    }
    function IdentityAttempts(): int { if history == [] then 0 else history[|history| - 1].identityAttempts }
    function ReconciliationAttempts(): int {
      if history == [] then 0 else history[|history| - 1].reconciliationAttempts
    }
    function CloseAttempts(): int { if history == [] then 0 else history[|history| - 1].closeAttempts }
    function EscalationAttempts(): int { if history == [] then 0 else history[|history| - 1].escalationAttempts }
  }

  /** The answers of the outside world to one preflight. */
  datatype PreflightOutcome =
    | Unknown(reason: string)
    | AlreadyTerminal(reason: string, itemId: int)
    | Classified(trusted: bool, reason: string, itemId: int, head: string, binding: int)

  datatype Call = Acknowledged | Lost | NotCalled

  datatype Evidence = Unreadable | Evidence(closed: bool, escalated: bool)

  /** The row `commit` builds: counters, item and head are carried over unless a new value is given. */
  function Row(inv: Invocation, status: Status, reason: string, stage: Stage,
               identity: int, reconciliation: int, close: int, escalation: int,
               itemId: Option<int>, head: Option<string>, owner: Option<OwnerInstruction>, now: int): Receipt
  {
    var last := inv.Last();
    Receipt(
      VERSION, inv.request.cause.domain, inv.request.cause, |inv.history|,
      if last.Some? then HashOf(last.value) else Root,
      if last.Some? then last.value.firstReason else "selected-origin-reconciliation",
      if last.Some? && last.value.originalReason.Some? then last.value.originalReason
      else if reason == "identity-assessment-intent" then None else Some(reason),
      reason, stage, status, inv.request.cause.repositoryId, inv.request.cause.prNumber,
      if itemId.Some? then itemId else if last.Some? then last.value.itemId else None,
      if head.Some? then head else if last.Some? then last.value.headSha else None,
      inv.request.headSha, owner, inv.request.policy, now, identity, reconciliation, close, escalation)
  }

  /** A row that leaves all four budgets as they are. */
  function PlainRow(inv: Invocation, status: Status, reason: string, stage: Stage,
                    itemId: Option<int>, head: Option<string>, now: int): Receipt
  {
    Row(inv, status, reason, stage, inv.IdentityAttempts(), inv.ReconciliationAttempts(), inv.CloseAttempts(),
        inv.EscalationAttempts(), itemId, head, None, now)
  }

  function Finish(inv: Invocation, status: Status): Invocation {
    inv.(phase := Finished(status))
  }

  /** `commit` up to the append; a row that does not validate ends the invocation as owner-action. */
  function TryCommit(inv: Invocation, row: Receipt, after: After): Invocation {
    if ValidHistory(inv.history + [row], inv.request.cause.domain, inv.request.cause)
    then inv.(phase := Appending(row, after))
    else Finish(inv, OwnerAction)
  }

  function CommitTerminal(inv: Invocation, reason: string, now: int): Invocation {
    TryCommit(inv, PlainRow(inv, OwnerAction, reason, TerminalStage, None, None, now), ThenFinish(OwnerAction))
  }

  function CommitEscalation(inv: Invocation, now: int): Invocation {
    TryCommit(inv, Row(inv, Pending, "simulated-escalation-intent", EscalationStage, inv.IdentityAttempts(),
                       inv.ReconciliationAttempts(), inv.CloseAttempts(), 1, None, None, None, now), ThenEscalate)
  }

  function CommitConfirmed(inv: Invocation, now: int): Invocation {
    TryCommit(inv, PlainRow(inv, SimulatedClosed, "simulated-close-and-escalation-confirmed", TerminalStage, None,
                            None, now), ThenFinish(SimulatedClosed))
  }

  /** From the loaded history to the first append, the owner check or a retained answer. */
  function Decide(inv: Invocation, now: int): Invocation {
    var last := inv.Last();
    if last.Some? && last.value.status in {SimulatedClosed, Noop} then Finish(inv, last.value.status)
    else if inv.request.ownerInstructionId.Some? then
      if PositiveId(inv.request.ownerInstructionId.value) then inv.(phase := CheckingOwner)
      else Finish(inv, OwnerAction)
    else if last.Some? && last.value.status in {OwnerAction, Trusted, WouldClose, Adopted} then
      Finish(inv, last.value.status)
    else if last.Some? && last.value.closeAttempts == 1 then
      if inv.request.cause.domain != Rehearsal then Finish(inv, OwnerAction)
      else if last.value.reconciliationAttempts >= 2 then CommitTerminal(inv, "ambiguous-effect-exhausted", now)
      else TryCommit(inv, Row(inv, Pending, "simulated-effect-reconciliation", last.value.stage,
                              inv.IdentityAttempts(), inv.ReconciliationAttempts() + 1, inv.CloseAttempts(),
                              inv.EscalationAttempts(), None, None, None, now), ThenReconcile)
    else if inv.IdentityAttempts() >= 3 then CommitTerminal(inv, "identity-recovery-exhausted", now)
    else TryCommit(inv, Row(inv, Pending, "identity-assessment-intent", IdentityStage, inv.IdentityAttempts() + 1,
                            inv.ReconciliationAttempts(), inv.CloseAttempts(), inv.EscalationAttempts(),
                            None, None, None, now), ThenPreflight)
  }

  /** A verified owner instruction commits an adoption; any failed check ends without a row. */
  function AnswerOwner(inv: Invocation, verified: Option<(OwnerInstruction, int, string)>, now: int): Invocation {
    match verified
    case None => Finish(inv, OwnerAction)
    case Some((instruction, itemId, head)) =>
      TryCommit(inv, Row(inv, Adopted, "owner-current-head-adoption", TerminalStage, inv.IdentityAttempts(),
                         inv.ReconciliationAttempts(), inv.CloseAttempts(), inv.EscalationAttempts(),
                         Some(itemId), Some(head), Some(instruction), now), ThenFinish(Adopted))
  }

  function AnswerFirstPreflight(inv: Invocation, outcome: PreflightOutcome, now: int): Invocation {
    match outcome
    case Unknown(reason) =>
      if inv.IdentityAttempts() >= 3 then CommitTerminal(inv, reason, now)
      else TryCommit(inv, PlainRow(inv, Pending, reason, IdentityStage, None, None, now), ThenFinish(Pending))
    case AlreadyTerminal(reason, itemId) =>
      TryCommit(inv, PlainRow(inv, Noop, reason, TerminalStage, Some(itemId), None, now), ThenFinish(Noop))
    case Classified(trusted, reason, itemId, head, binding) =>
      if trusted then
        TryCommit(inv, PlainRow(inv, Trusted, reason, TerminalStage, Some(itemId), Some(head), now),
                  ThenFinish(Trusted))
      else if inv.request.cause.domain != Rehearsal then
        TryCommit(inv, PlainRow(inv, WouldClose, reason, TerminalStage, Some(itemId), Some(head), now),
                  ThenFinish(WouldClose))
      else
        TryCommit(inv, Row(inv, Pending, "simulated-close-intent", CloseStage, inv.IdentityAttempts(),
                           inv.ReconciliationAttempts(), 1, inv.EscalationAttempts(), Some(itemId), Some(head),
                           None, now), ThenSecondPreflight(binding))
  }

  /** The close is called only when a second preflight reaches the same verdict on the same pull request. */
  function AnswerSecondPreflight(inv: Invocation, binding: int, outcome: PreflightOutcome, samePolicy: bool,
                                 now: int): Invocation
  {
    if outcome.Classified? && !outcome.trusted && outcome.binding == binding && samePolicy
    then inv.(phase := CallingClose)
    else CommitTerminal(inv, "close-preflight-changed", now)
  }

  function AnswerClose(inv: Invocation, call: Call, now: int): Invocation {
    if call.Acknowledged? then CommitEscalation(inv, now) else Finish(inv, Pending)
  }

  function AnswerEscalation(inv: Invocation, call: Call, now: int): Invocation {
    if call.Acknowledged? then CommitConfirmed(inv, now) else Finish(inv, Pending)
  }

  function AnswerReconcile(inv: Invocation, evidence: Evidence, now: int): Invocation {
    if evidence.Unreadable? || !evidence.closed || (inv.EscalationAttempts() == 1 && !evidence.escalated) then
      if inv.ReconciliationAttempts() >= 2 then CommitTerminal(inv, "ambiguous-effect-exhausted", now)
      else Finish(inv, Pending)
    else if inv.EscalationAttempts() == 0 then CommitEscalation(inv, now)
    else CommitConfirmed(inv, now)
  }

  /** An acknowledged append extends the local history and resumes the code after `commit`. */
  function AppendAcknowledged(inv: Invocation): Invocation
    requires inv.phase.Appending?
  {
    var extended := inv.history + [inv.phase.row];
    match inv.phase.after
    case ThenFinish(status) => Invocation(inv.request, Finished(status), extended)
    case ThenPreflight => Invocation(inv.request, FirstPreflight, extended)
    case ThenSecondPreflight(binding) => Invocation(inv.request, SecondPreflight(binding), extended)
    case ThenReconcile => Invocation(inv.request, Reconciling, extended)
    case ThenEscalate => Invocation(inv.request, CallingEscalation, extended)
  }
}
