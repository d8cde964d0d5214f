# A verified model of the orchestration harness

The harness runs unattended: it decides what to do with contributed pull requests, reclaims and retires disk space,
folds a ledger into analytics, pays for model trials, picks the test suites a change needs and answers questions about
its own unfinished work. In each of these it must survive a crash, a lost answer or a budget that runs out, and must
not do a thing twice or destroy what it cannot replace. This project models the parts where that is hard and proves it
for all inputs, all runs and all interleavings.

Code that changes things step by step is modelled by classes, arrays, methods and loops that are proved against
independent definitions; code that only computes is modelled by functions; concurrent code is a state machine whose
every step is proved to keep an invariant.

| files | component |
|---|---|
| `Disposition`, `DispositionSafety`, `DispositionVetting`, `DispositionProgress` | the admission disposition protocol over an append-only, hash-chained receipt log |
| `AbilityObservations`, `GaussJordan`, `AbilityMap`, `AbilityFit`, `AbilityVariance` | the ability fit: its counts and its numerical core |
| `PathResolution`, `DirectoryProgress`, `Discovery`, `Staging`, `Reclaim` | the cache reclaimer |
| `KeepClosure`, `RetireRun` | preserve, then retire |
| `LedgerSeries`, `LedgerBreakdowns`, `BreakdownRows`, `AnalyticsCheckpoint` | the checkpointed analytics fold |
| `RoutingJoin`, `BenchmarkEvidence` | the join of assignments and verdicts and the evidence derived from it |
| `Bakeoff` | the deployment bake-off |
| `AffectedSuites`, `SuiteSelection`, `SuiteGrowth` | the suite selector |
| `ActionDiscovery` | paginated discovery of unfinished assistant actions |
| `Wrappers`, `SortedStrings` | options and results; sorted lists of keys |

**Disposition.** The world holds the receipt files of one cause, any number of invocations in flight, each with the
local history it has loaded and the await it is at, and the appends that were given up on but may still land. A step is
one await of one invocation answered in any way the code allows for (an answer, a failure, a timeout, a timeout whose
effect happens later), the start of an invocation, or a late append. Everything is proved of every sequence of steps.

**Ability fit.** The arithmetic is exact. The sigmoid is any function into the unit interval, so the weights are
any non-negative numbers the code can make. The curvature is defined independently of the assembled blocks as the operator
`z -> precision z + sum w (u . z) u` with `u = e_model + e_role - e_task`.

**Cache reclaimer.** A tree maps paths to directories, links and other things; resolution is compared with a recursive
definition of pathname resolution (section 4.13, Pathname Resolution, of IEEE Std 1003.1-2017) that lets a missing
suffix stand. Passes of discovery run over a sequence of trees that change in any way in which an equal directory
identity means equal names of subdirectories and links.

**Retirement.** The answers of git and the file system are functions of the repository asked about. The log of a run
records for each removal the keep set at that moment.

**Analytics.** Both accumulators are compared with definitions over the whole ledger: what a day's bucket, a run's
start and a tally hold is stated by sums and counts over the lines, not by a fold.

## Where the code and its promises differ

- The two builders of work categories differ when the ledger has a category that is literally `other` among more than
  20: `BreakdownRows.CategoryRowsAgree` gives the exact condition, `BreakdownRows.LedgerCollides` a ledger.
- The two builders of time series differ when the present is not a time: `AnalyticsCheckpoint.SeriesAgree`.
- The fit promises that input order cannot change its result, but its keys join names with NUL characters. Order makes
  no difference exactly when the keys tell the names apart: `AbilityObservations.OrderMakesNoDifference` and
  `AbilityObservations.SharedKeyMakesOrderMatter`, with two names that share a key in `AbilityObservations.NulSharesKey`.
- The keep set does not always hold the lender of a kept repository: when two repositories own one store only the one
  listed last counts as its owner. `KeepClosure.LendersKeptExactly` gives the exact condition for the order at hand,
  whatever one store lends to another, and `KeepClosure.SharedStoreLosesLender` a case in the sorted order that a census
  has.
- A worktree that is held can be left without the clone of its store: over all answers every worktree that stays keeps
  its clone exactly when no worktree has its clone inside one that the plan gives up and that comes no later than it
  (`RetireRun.ClonesKeptExactly`); `RetireRun.HeldWorktreeIsStranded` is a whole run that leaves one so.
- As a function of any list, the closure also depends on the order of the repositories, exactly when two owners of a
  store are not otherwise tied: `KeepClosure.ClosureUnordered` and `KeepClosure.UntiedMakesOrderMatter`, whose general
  witness is a store that lends to itself; `KeepClosure.SharedStoreMakesOrderMatter` is a plain case. A run always
  lists them sorted by path.
- A clone inside a worktree that is retired is deleted with it, is then held because its directory is missing, and
  loses its copy: over all answers every loss keeps its copy exactly when the plan leaves no such clone exposed
  (`RetireRun.CopiesKeptExactly`), and `RetireRun.NestedCloneIsLost` is a whole run that loses one.
- A larger change can drop the replay suite when an import of the directory `src/lib` is drawn to a changed path beside
  it: `SuiteSelection.SelectionGrowsExactly` gives the exact condition on two changed paths,
  `AffectedSuites.ReplayGrowsExactly` that of the replay rule alone, and `SuiteSelection.DirectoryImportDropsSuite` a
  tree and two changes. Paths that are neither code nor contract can draw any import to themselves and drop any suite:
  `SuiteGrowth.AnyChangeGrowsExactly` gives the exact condition for changes of any paths, and
  `SuiteGrowth.BarePathDropsSuite` a tree and two changes.
- Assignments of different names share a routing bucket when NUL characters in the names make their keys equal:
  `RoutingJoin.OwnNamesExactly` and `RoutingJoin.OwnCountsExactly` give the exact condition, `RoutingJoin.NulSharesBucket`
  two assignments.

## Model

| member | source | states |
|---|---|---|
| `Disposition.ValidateHistory` | src/lib/action-executor.ts:511-537 | the one-pass check accepts exactly the histories whose every row is well formed and whose every neighbouring pair is chained, monotone in all four budgets and of one cause, at most 16 rows long |
| `Disposition.RowDeterminesPrefix` | src/lib/action-executor.ts:511-537 | the chain pins the past: any row of an accepted history determines all the rows before it |
| `DispositionSafety.LinkExtendsWholeLog` | src/lib/action-executor.ts:591-616 | an exclusive link that succeeds proves that the writer's local history is the whole log, and the log then grows by that row alone |
| `DispositionSafety.StepKeepsInv` | src/lib/action-executor.ts:309-459 | every step of every invocation, crash or late append keeps the protocol's invariant |
| `DispositionSafety.RunKeepsInv` | src/lib/action-executor.ts:309-459 | the invariant holds after every sequence of steps |
| `DispositionSafety.EffectsAtMostOnce` | src/lib/action-executor.ts:409-452 | over every interleaving the simulated close and the simulated escalation are each invoked at most once for a cause |
| `DispositionSafety.EscalationFollowsConfirmedClose` | src/lib/action-executor.ts:409-432 | the step that invokes the escalation is the first to do so, and the close had been acknowledged or reconciled as closed before it |
| `DispositionSafety.SimulatedClosedMeansBothConfirmed` | src/lib/action-executor.ts:414-431 | a `simulated-closed` row in the log means both effects were confirmed, and invoked exactly once each unless a reconciliation reported an effect that never ran |
| `DispositionSafety.ReachableLogIsValid` | src/lib/action-executor.ts:358-377 | every reachable log is numbered without gaps, passes the history check, and never lowers or exceeds a budget |
| `DispositionSafety.BudgetsMonotone` | src/lib/action-executor.ts:530-532 | in an accepted history every budget of an earlier row is at most that of a later one, between zero and its cap |
| `DispositionSafety.AtMostTenReceipts` | src/lib/action-executor.ts:406-452 | without an owner instruction a cause never gets more than ten receipts |
| `DispositionProgress.RowPassesExactly` | src/lib/action-executor.ts:511-537 | without an owner instruction a row built on an open history passes the history check exactly when its reason and head are well formed and its item is the one on record: the 16-row bound, the caps and the chain never refuse it |
| `DispositionProgress.DecideStops` | src/lib/action-executor.ts:358-406 | deciding appends a row exactly when the history is open, and otherwise ends with the settled status |
| `DispositionProgress.FirstPreflightStops` | src/lib/action-executor.ts:435-444 | the answer of the first preflight is appended exactly when it can be put on record |
| `DispositionProgress.LaterCommitsPass` | src/lib/action-executor.ts:409-452 | after the close intent no commit is ever refused: not the second preflight's, not those of the two effects, not a reconciliation's |
| `DispositionProgress.OnlyEvidenceStops` | src/lib/action-executor.ts:358-452 | all of this in every reachable state without an owner instruction: only a settled history or unrecordable evidence stops an invocation |
| `DispositionVetting.RunVetted` | src/lib/action-executor.ts:433-449 | in every reachable state an invocation past a preflight had that answer, with that binding, from a preflight of its own that it was waiting for when the answer came |
| `DispositionVetting.CloseFollowsAgreement` | src/lib/action-executor.ts:435-452 | the step that invokes the close is the first to do so, and that invocation, while at each of its two preflights, had them agree under one binding, the later under an unchanged policy |
| `SortedStrings.Sorted` | src/lib/ability-map.ts:126-128 | the sorted keys are exactly the values, each once |
| `AbilityObservations.CountAll` | src/lib/ability-map.ts:259-288 | the counting gives the sorted names, the attempts and successes under every key, and the triples in the order of their keys |
| `AbilityObservations.Collect` | src/lib/ability-map.ts:276-284 | the loop's map holds for every key the indices of the first observation under it and the counts of all of them |
| `AbilityObservations.CountFits` | src/lib/ability-map.ts:259-288 | what the counting hands to the fit has its indices in range and never more successes than attempts |
| `AbilityObservations.PlainNamesTellApart` | src/lib/ability-map.ts:277-277 | names of models and roles without a NUL are told apart by their keys |
| `AbilityObservations.NulSharesKey` | src/lib/ability-map.ts:277-277 | two observations with a NUL in a name that share a key |
| `AbilityObservations.OrderMakesNoDifference` | src/lib/ability-map.ts:246-288 | when keys tell the names apart, any two orders of the observations give the same names, triples and counts to the fit |
| `AbilityObservations.SharedKeyMakesOrderMatter` | src/lib/ability-map.ts:246-288 | and only then: otherwise two orders of the same observations give different ones |
| `GaussJordan.FindPivot` | src/lib/ability-map.ts:143-144 | the pivot has the largest magnitude of its column from the diagonal down |
| `GaussJordan.NormalizeRow` | src/lib/ability-map.ts:146-147 | dividing a row entry by entry in place divides that row and touches no other |
| `GaussJordan.EliminateRow` | src/lib/ability-map.ts:150-152 | subtracting in place entry by entry subtracts the multiple of the unchanged lead row and touches no other row |
| `GaussJordan.PivotExists` | src/lib/ability-map.ts:143-147 | for a nonsingular matrix no step ever meets a zero lead |
| `GaussJordan.PlacePivot` | src/lib/ability-map.ts:145-147 | swapping and normalising keep the solutions and the columns already reduced |
| `GaussJordan.ClearColumn` | src/lib/ability-map.ts:148-153 | clearing a column reduces it and keeps the solutions and the columns already reduced |
| `GaussJordan.Invert` | src/lib/ability-map.ts:139-156 | for every size and every nonsingular matrix the result is a two-sided inverse |
| `GaussJordan.InvertibleIsNonsingular` | src/lib/ability-map.ts:138-156 | inversion asks for no more than it must: a matrix with a left inverse is nonsingular |
| `GaussJordan.InverseSolves` | src/lib/ability-map.ts:206-206 | a right inverse applied to a right-hand side solves the system |
| `AbilityMap.AddCell` | src/lib/ability-map.ts:178-188 | the seven in-place updates of a cell, role equal to model included, add its weighted outer product to the blocks |
| `AbilityMap.AssembleBlocks` | src/lib/ability-map.ts:174-188 | the assembled blocks are those of precision times the identity plus the sum of the weighted outer products |
| `AbilityMap.TopIsHessian` | src/lib/ability-map.ts:175-188 | a row of the dense block and its coupling row act as the curvature operator does |
| `AbilityMap.BottomIsHessian` | src/lib/ability-map.ts:176-188 | a coupling column and its diagonal entry act as the curvature operator does |
| `AbilityMap.HessianForm` | src/lib/ability-map.ts:174-188 | the operator's bilinear form is the precision term plus the weighted products of the cells' linear predictors |
| `AbilityMap.HessianPositiveDefinite` | src/lib/ability-map.ts:138-188 | with non-negative weights and a positive precision the curvature is positive definite |
| `AbilityMap.SchurComplement` | src/lib/ability-map.ts:189-193 | the nested loops compute the Schur complement of the task block |
| `AbilityMap.SchurEliminates` | src/lib/ability-map.ts:189-193 | eliminating the task block from the whole system leaves exactly the Schur complement |
| `AbilityMap.SchurPositiveDefinite` | src/lib/ability-map.ts:138-194 | the Schur complement of the curvature is symmetric and positive definite |
| `AbilityMap.SchurNonsingular` | src/lib/ability-map.ts:138-194 | so it is nonsingular and inverting it cannot fail |
| `AbilityMap.CurvatureAt` | src/lib/ability-map.ts:174-195 | the returned blocks and inverse describe the curvature at the given point |
| `AbilityFit.Eliminate` | src/lib/ability-map.ts:201-205 | the right-hand side left for the dense block |
| `AbilityFit.Multiply` | src/lib/ability-map.ts:206-206 | the row reductions compute the matrix-vector product |
| `AbilityFit.BackSubstitute` | src/lib/ability-map.ts:207-211 | each task parameter balances its own equation |
| `AbilityFit.Solve` | src/lib/ability-map.ts:197-213 | the block solution is the solution of the whole (k+t)-dimensional system |
| `AbilityFit.Gradient` | src/lib/ability-map.ts:225-234 | the in-place gradient is precision times the point plus the residuals along the cells' directions |
| `AbilityFit.Largest` | src/lib/ability-map.ts:300-300 | the largest magnitude bounds every entry and is one of them, or zero |
| `AbilityFit.Damped` | src/lib/ability-map.ts:300-304 | no parameter moves by more than four logits, a shortened step moves one by exactly four, and convergence means every move is below the tolerance |
| `AbilityFit.NewtonStep` | src/lib/ability-map.ts:295-305 | a pass of the loop moves against the exact solution of curvature times direction equals gradient, scaled as above; the direction goes against the gradient, and is level with it only when it is zero |
| `AbilityVariance.VarianceUnique` | src/lib/ability-map.ts:309-338 | a contrast has one variance under the inverse curvature |
| `AbilityVariance.VarianceNonnegative` | src/lib/ability-map.ts:239-239 | a variance is never negative and is zero only for the zero contrast, so the clamp at zero never acts |
| `AbilityVariance.CombinedVariance` | src/lib/ability-map.ts:324-337 | the variance of a combination from two variances and the covariance |
| `AbilityVariance.Quadratic` | src/lib/ability-map.ts:317-317 | the nested reduction is the quadratic form of the inverse Schur complement |
| `AbilityVariance.TopVariance` | src/lib/ability-map.ts:317-329 | for a contrast of models and roles that form is its variance under the inverse of the whole curvature |
| `AbilityVariance.OwnVariance` | src/lib/ability-map.ts:332-334 | the expression for one task is its variance under the inverse of the whole curvature |
| `AbilityVariance.Ones` | src/lib/ability-map.ts:314-316 | one solve against the all-ones task vector gives the variance of the task total |
| `AbilityVariance.ModelVariance` | src/lib/ability-map.ts:320-326 | the number reported for a model is the variance of its contrast less the mean of the tasks |
| `AbilityVariance.RoleVariance` | src/lib/ability-map.ts:327-330 | the number reported for a role is the variance of its contrast |
| `AbilityVariance.TaskVariance` | src/lib/ability-map.ts:331-338 | the number reported for a task is the variance of its difficulty less the mean of the tasks |
| `PathResolution.Resolver.Visit` | deploy/mac/cache-reclaim.py:977-1042 | the recursive walk gives what the work list stands for, with every directory on the resolved prefix anchored while it runs and released after; it calls itself once for each directory not yet open, and holds when there is no room for that many calls |
| `PathResolution.Resolver.ResolvedReference` | deploy/mac/cache-reclaim.py:943-1050 | on a tree that holds still the resolver terminates and returns the non-strict resolution with the 40-link limit, failures included; it holds as too deep exactly when the walk meets more directories than the stack has room for |
| `PathResolution.WalkAppend` | deploy/mac/cache-reclaim.py:1026-1036 | walking a list and then another is walking the two as one list, which is why a link's parts may be put in front |
| `PathResolution.WalkIsResolve` | deploy/mac/cache-reclaim.py:977-1042 | the walk over one work list equals the recursive resolution in which a link is resolved on its own first |
| `PathResolution.WalkIsReference` | deploy/mac/cache-reclaim.py:950-957 | starting from the parent's own strict parts, the one list computes the reference, failures included |
| `PathResolution.LimitOnlyRefuses` | deploy/mac/cache-reclaim.py:1026-1029 | the limit changes no answer: a resolution is the same under every limit its links fit, and refused under every other |
| `PathResolution.ResolveIsCanonical` | deploy/mac/cache-reclaim.py:977-1050 | what resolution returns has no link and no dots on its existing prefix |
| `PathResolution.CanonicalResolvesToItself` | deploy/mac/cache-reclaim.py:977-1050 | a canonical path resolves to itself with no link expanded |
| `PathResolution.ReferenceIdempotent` | deploy/mac/cache-reclaim.py:943-1050 | resolving a result again gives it back, from any parent and under any limit |
| `DirectoryProgress.SizeIs` | deploy/mac/cache-reclaim.py:423-424 | the encoded length is exactly the envelope, the payload and the compact records with their commas |
| `DirectoryProgress.SizeWithoutOldest` | deploy/mac/cache-reclaim.py:425-437 | dropping the oldest record changes the exact encoded length by what the eviction loop subtracts and adds back |
| `DirectoryProgress.UnpackOne` | deploy/mac/cache-reclaim.py:319-350 | the prefix-coded record written for an entry reads back as that entry |
| `DirectoryProgress.RoundTrip` | deploy/mac/cache-reclaim.py:319-350 | packing and reading back gives the same records in the same order |
| `DirectoryProgress.UnpackSound` | deploy/mac/cache-reclaim.py:319-350 | whatever the reader accepts is distinct, well formed and within the expanded-path bound |
| `DirectoryProgress.Progress.Load` | deploy/mac/cache-reclaim.py:319-350 | loading takes all the records or leaves the state as it was |
| `DirectoryProgress.Progress.Lookup` | deploy/mac/cache-reclaim.py:391-399 | an unchanged identity answers the names and makes the record the newest; a changed one forgets it |
| `DirectoryProgress.Progress.Remember` | deploy/mac/cache-reclaim.py:401-404 | the record replaces any of the same path and becomes the newest |
| `DirectoryProgress.Progress.Measure` | deploy/mac/cache-reclaim.py:415-424 | the measured sizes and totals are those of the encoding |
| `DirectoryProgress.Progress.Evict` | deploy/mac/cache-reclaim.py:425-437 | what is left is the longest recency suffix that meets both bounds |
| `DirectoryProgress.Progress.Save` | deploy/mac/cache-reclaim.py:411-446 | the text written fits the bound, reads back as the records kept, and nothing is written exactly when even the empty state is too long |
| `Discovery.OrderFree` | deploy/mac/cache-reclaim.py:764-784 | the candidates found do not depend on the order of the children |
| `Discovery.VouchedNames` | deploy/mac/cache-reclaim.py:197-226 | names recorded under an equal identity stand for exactly the children that matter now |
| `Discovery.CachedGivesFresh` | deploy/mac/cache-reclaim.py:197-226 | a cached directory gives the candidates of a fresh one |
| `Discovery.CompletedRecord` | deploy/mac/cache-reclaim.py:218-226 | a completed enumeration is a record that its own tree vouches for |
| `Discovery.Scan.Visit` | deploy/mac/cache-reclaim.py:767-782 | a completed visit adds exactly the candidates of the fresh scan below it, cached or not, and keeps every record sound |
| `Discovery.Scan.VisitNames` | deploy/mac/cache-reclaim.py:202-211 | visiting recorded names adds exactly the candidates of the children they stand for |
| `Discovery.Scan.VisitAll` | deploy/mac/cache-reclaim.py:212-226 | a full enumeration adds exactly the fresh candidates and yields the names to record |
| `Discovery.Scan.VisitChild` | deploy/mac/cache-reclaim.py:769-780 | one child adds its own target, or what lies below it, or nothing |
| `Discovery.SortUnique` | deploy/mac/cache-reclaim.py:764-784 | the sorted list depends only on which candidates were found |
| `Discovery.Discover` | deploy/mac/cache-reclaim.py:764-784 | a completed discovery returns the list of a discovery without a checkpoint, and with no allowance set it completes |
| `Discovery.Passes` | deploy/mac/cache-reclaim.py:197-226 | over any number of passes with any changes between them, each loading what the last one saved, every completed pass returns the list of its own tree's fresh scan |
| `Staging.Removal.StageEntries` | deploy/mac/cache-reclaim.py:1262-1266 | at every point of staging, wherever it fails, each original entry is in exactly one of target and stage, provided that what others put there is their own; with nobody else there the two share no name and together have the original ones |
| `Staging.Removal.RestoreEntries` | deploy/mac/cache-reclaim.py:1280-1287 | restoring keeps each original entry in exactly one place and either empties the stage or keeps it |
| `Staging.Removal.DeleteStage` | deploy/mac/cache-reclaim.py:1269-1279 | only staged entries are deleted; a failure, inside an entry included, keeps the rest in the stage and each original entry in exactly one place |
| `Staging.Removal.RemovePackages` | deploy/mac/cache-reclaim.py:1261-1290 | a removal deletes exactly the entries not retained; short of deletion everything is restored whole or kept in the retained stage, and an entry that was partly deleted never counts as restored; undisturbed it removes |
| `Staging.Removal.RemoveDirectory` | deploy/mac/cache-reclaim.py:1261-1290 | the same of a directory renamed away whole, with a rename back that can fail |
| `Reclaim.ReclaimPass` | deploy/mac/cache-reclaim.py:1415-1461 | a pass in rotated order stops, removes, anchors and sets its cursor as specified |
| `Reclaim.RemovedHasAnchor` | deploy/mac/cache-reclaim.py:1433-1442 | every removed package directory has another one of the same payload signature that is an anchor and is not removed in the pass |
| `Reclaim.EveryCandidateAttempted` | deploy/mac/cache-reclaim.py:1415-1461 | in any run of passes over n candidates every n consecutive passes attempt each of them, wherever each pass runs out of budget |
| `Reclaim.EveryCandidateSettled` | deploy/mac/cache-reclaim.py:1415-1461 | within any n+1 consecutive passes of a run each candidate is decided or has exhausted the budget as the head of a pass |
| `Reclaim.PassRotates` | deploy/mac/cache-reclaim.py:1415-1461 | a pass as a rotation: what it attempts of the list, and where the next one starts |
| `Reclaim.PassSettles` | deploy/mac/cache-reclaim.py:1415-1461 | what a pass settles in its rotation is decided in its report, or exhausted it as its head |
| `Reclaim.ReclaimPasses` | deploy/mac/cache-reclaim.py:1415-1461 | passes that hand on the cursor form such a run, until a removal that cannot be verified ends it |
| `KeepClosure.Close` | deploy/mac/preserve-retire.py:514-542 | the loop terminates with the least superset closed under the worktree, borrower, unverified-lender and containment rules, and never changes a reason already given |
| `KeepClosure.Sweep` | deploy/mac/preserve-retire.py:518-541 | one look at every repository adds something or finds the set closed |
| `KeepClosure.ClosureIdempotent` | deploy/mac/preserve-retire.py:514-542 | closing a closed set changes nothing |
| `KeepClosure.DistinctStoresTied` | deploy/mac/preserve-retire.py:516-516 | one owner to each store is enough for the order of repositories not to matter |
| `KeepClosure.ClosureUnordered` | deploy/mac/preserve-retire.py:514-542 | given any list in which keeping one owner of a store keeps the others anyway, the kept paths do not depend on its order |
| `KeepClosure.UntiedMakesOrderMatter` | deploy/mac/preserve-retire.py:514-542 | given any other, two orders of it keep different paths |
| `KeepClosure.SharedStoreMakesOrderMatter` | deploy/mac/preserve-retire.py:516-516 | two clones of one store and a lender: whether the lender is kept depends on which clone is listed last |
| `KeepClosure.LendersKeptExactly` | deploy/mac/preserve-retire.py:514-542 | for repositories in the order listed and any lending from one store to another, a closed keep set always holds the lenders of what it keeps if and only if no set closed without lending keeps a repository but neither the recorded owner of its store nor the owner of some other store |
| `KeepClosure.SharedStoreLosesLender` | deploy/mac/preserve-retire.py:516-516 | two clones of one store and a lender, sorted by path: the first clone is kept and its lender is not |
| `RetireRun.PreserveAll` | deploy/mac/preserve-retire.py:1186-1200 | before anything is removed every repository is saved or kept, and the keep set is closed; when all are saved it is as planned |
| `RetireRun.KeepActive` | deploy/mac/preserve-retire.py:1206-1216 | whatever became active is kept and the keep set is closed again; when nothing did it is unchanged |
| `RetireRun.ContainedIsDeeper` | deploy/mac/preserve-retire.py:1217-1217 | what lies inside a path has more separators, so the order by depth takes the inner one first |
| `RetireRun.OrderOrdered` | deploy/mac/preserve-retire.py:1217-1217 | the order lists exactly the repositories not kept, worktrees first and deeper paths first |
| `RetireRun.OrderIsLeads` | deploy/mac/preserve-retire.py:1217-1217 | whatever is kept, which of two repositories comes first is decided by kind, depth and, between equals, the order listed |
| `RetireRun.Turn` | deploy/mac/preserve-retire.py:1219-1247 | one repository's turn keeps the run's invariant, removal refused or interrupted included |
| `RetireRun.Hold` | deploy/mac/preserve-retire.py:1240-1247 | a repository that cannot be retired is kept and the keep set closed again |
| `RetireRun.Retire` | deploy/mac/preserve-retire.py:1217-1247 | the whole phase keeps the invariant and removes only saved repositories that were not kept; when no answer stands in the way it removes every worktree not kept whatever the layout, and everything not kept when no clone lies inside a worktree; when one worktree alone stays, it is there at the end, the worktrees before it are gone, and so is what its own removal took |
| `RetireRun.Discard` | deploy/mac/preserve-retire.py:1248-1253 | exactly the copies of sources that were saved, are kept and were never started on are discarded |
| `RetireRun.Expire` | deploy/mac/preserve-retire.py:910-931 | exactly the copies older than the retention go |
| `RetireRun.RetireAll` | deploy/mac/preserve-retire.py:1186-1253 | a run from the plan to the last expiry gives all the guarantees below and those of the exact conditions on copies and on clones, and never starts on a path of the plan's closed keep set |
| `RetireRun.RemovalWasSafe` | deploy/mac/preserve-retire.py:1217-1247 | whatever a removal takes, the repository itself or one inside it, was saved and not kept, and no repository kept at that moment lies inside it, is a worktree of its store, or is the recorded owner of a store that borrows from it |
| `RetireRun.OutsideBorrowerKeepsLender` | deploy/mac/preserve-retire.py:530-532 | the lender of a borrower that is no candidate is never removed |
| `RetireRun.LossesWereSaved` | deploy/mac/preserve-retire.py:1186-1247 | nothing is gone that was not saved |
| `RetireRun.HeldWorktreeKeepsClone` | deploy/mac/preserve-retire.py:1217-1247 | a worktree still there has the clone of its store, unless that clone lay inside a worktree retired no later than its own turn |
| `RetireRun.LossKeepsCopy` | deploy/mac/preserve-retire.py:1248-1253 | after discard and expiry a repository is gone without a copy only if it lay inside a retired worktree and its copy is under no declared scope |
| `RetireRun.InsideRetiredLosesCopy` | deploy/mac/preserve-retire.py:1248-1253 | and every clone inside a worktree retired whole is gone without one |
| `RetireRun.CleanLayout` | deploy/mac/preserve-retire.py:1186-1253 | with no clone or bare repository inside a worktree every deleted repository still has its copy, and its worktrees are gone too |
| `RetireRun.RunPromises` | deploy/mac/preserve-retire.py:1186-1253 | with nothing exposed by the plan a run keeps a copy of every loss, and an unopposed run loses whatever is exposed, copy and all |
| `RetireRun.CopiesKeptExactly` | deploy/mac/preserve-retire.py:1186-1253 | over all the answers a run may get, every deleted repository keeps its copy if and only if no clone or bare repository, its copy under no declared scope, lies inside a worktree outside the plan's keep set |
| `RetireRun.RunClonePromises` | deploy/mac/preserve-retire.py:1217-1253 | only a worktree whose clone lies inside one that the plan gives up and that comes no later stays without its clone, and when it alone stands in the way of a run it does |
| `RetireRun.ClonesKeptExactly` | deploy/mac/preserve-retire.py:1217-1253 | over all the answers a run may get, every worktree that stays keeps its clone if and only if the plan leaves none threatened so |
| `RetireRun.HeldWorktreeIsStranded` | deploy/mac/preserve-retire.py:1217-1253 | a whole run on two worktrees and a clone: at its end the held worktree is there without its clone, and both copies are discarded |
| `RetireRun.NestedCloneIsLost` | deploy/mac/preserve-retire.py:1186-1253 | a whole run on a worktree with a clone inside: at its end the clone is gone and so is its copy |
| `LedgerSeries.HistoricalSeries.Add` | src/lib/analytics-timeseries.ts:170-212 | adding a line in place keeps the day buckets and starts equal to their definitions over the whole ledger |
| `LedgerSeries.Grows` | src/lib/analytics-timeseries.ts:170-212 | changing the start of the line's run and the bucket of its day is all a longer ledger asks for |
| `LedgerBreakdowns.Breakdowns.Add` | src/lib/analytics-breakdowns.ts:141-178 | adding a line keeps the tally that of the ledger read so far |
| `LedgerBreakdowns.CheckpointBreakdowns.Capture` | src/lib/analytics-route.ts:1024-1039 | so does the second accumulator, which is saved |
| `LedgerBreakdowns.TallyUnique` | src/lib/analytics-breakdowns.ts:141-178 | a ledger has one tally |
| `BreakdownRows.CountOutcomes` | src/lib/analytics-breakdowns.ts:75-138 | the two loops over starts and verdicts count each run's one outcome |
| `BreakdownRows.OutcomesPartition` | src/lib/analytics-breakdowns.ts:75-138 | the four outcomes add up to all the runs, unidentified lines included |
| `BreakdownRows.RankUnique` | src/lib/analytics-breakdowns.ts:68-73 | entries have one ranking, whatever order the map yields them in |
| `BreakdownRows.CategoryRowsAgree` | src/lib/analytics-route.ts:1124-1131 | the overflow rows of the two builders are equal exactly when the literal category `other` does not collide |
| `BreakdownRows.LedgerCollides` | src/lib/analytics-route.ts:1124-1131 | a ledger of 21 categories in which it does, whatever the collation |
| `BreakdownRows.BuildBreakdowns` | src/lib/analytics-route.ts:1091-1140 | the builder shows the counts and the ranked rows of its tally |
| `BreakdownRows.ShownAgree` | src/lib/analytics-breakdowns.ts:75-138 | the two builders show the same of one tally exactly under that condition |
| `AnalyticsCheckpoint.CheckpointHistory.Capture` | src/lib/analytics-route.ts:980-1022 | capturing a line part by part keeps the saved buckets equal to the definitions over the whole ledger |
| `AnalyticsCheckpoint.ReflectsUnique` | src/lib/analytics-timeseries.ts:170-212 | a ledger has one set of buckets and starts, so the two accumulators agree |
| `AnalyticsCheckpoint.SeriesAgree` | src/lib/analytics-route.ts:1047-1089 | the two series builders agree exactly when the present is a time |
| `AnalyticsCheckpoint.AllSeriesAgree` | src/lib/analytics-timeseries.ts:127-168 | so do all the series together |
| `AnalyticsCheckpoint.Analytics.Serialize` | src/lib/analytics-route.ts:2033-2084 | the serialised lists hold the saved accumulators of the ledger read so far |
| `AnalyticsCheckpoint.Analytics.Hydrate` | src/lib/analytics-route.ts:2086-2143 | hydrating gives accumulators of that ledger again, with fresh ones for a live scan |
| `AnalyticsCheckpoint.Analytics.Accumulate` | src/lib/analytics-route.ts:980-1039 | a line goes to all four accumulators |
| `AnalyticsCheckpoint.Analytics.Snapshot` | src/lib/analytics-route.ts:1746-1752 | a resumed scan answers from the saved accumulators, any other from the live ones |
| `AnalyticsCheckpoint.Scan` | src/lib/analytics-route.ts:980-1039 | an uninterrupted scan reflects the ledger in every accumulator |
| `AnalyticsCheckpoint.ScanInParts` | src/lib/analytics-route.ts:2033-2143 | any number of parts, each resumed from what the last one saved, reflect the whole ledger in the saved accumulators |
| `AnalyticsCheckpoint.CompareScans` | src/lib/analytics-route.ts:1746-1752 | for every ledger and every way to cut it, a resumed scan shows the series of an uninterrupted one exactly when the present is a time, and its breakdowns exactly when `other` does not collide |
| `RoutingJoin.RoutingTelemetry.ApplyTerminal` | src/lib/analytics-route.ts:1397-1421 | a result is added to the bucket of its assignment and to its day, and to nothing else |
| `RoutingJoin.RoutingTelemetry.Assign` | src/lib/analytics-route.ts:1423-1504 | an assignment line keeps the state the join of the first assignments and first verdicts seen, counts duplicates, and opens its bucket under its names if no bucket has its key |
| `RoutingJoin.RoutingTelemetry.Verdict` | src/lib/analytics-route.ts:1423-1504 | so does a verdict line, joined at once or left waiting |
| `RoutingJoin.RoutingTelemetry.Attempt` | src/lib/analytics-route.ts:1463-1476 | an attempt line records the first attempt of its id and leaves the join alone |
| `RoutingJoin.RoutingTelemetry.Read` | src/lib/analytics-route.ts:1423-1503 | one more line of any kind keeps the state, the attempts and all six counters those of the ledger read so far |
| `RoutingJoin.AssignmentMeetsPending` | src/lib/analytics-route.ts:1423-1504 | an assignment that finds its verdict waiting leaves the state as if the verdict came after it |
| `RoutingJoin.VerdictAfterAssignment` | src/lib/analytics-route.ts:1423-1504 | a verdict after its assignment joins |
| `RoutingJoin.VerdictBeforeAssignment` | src/lib/analytics-route.ts:1423-1504 | a verdict before its assignment only waits |
| `RoutingJoin.Fold` | src/lib/analytics-route.ts:1423-1504 | the fold of any ledger is the join of its first assignments and first verdicts, beside its first attempts and the names each bucket was opened under, with every further row of an id counted as a duplicate |
| `RoutingJoin.RowsAddUp` | src/lib/analytics-route.ts:1423-1503 | no row goes uncounted: assignment rows are assignments, duplicates or invalid, terminal rows are joined, waiting, attempts, duplicates or without an id |
| `RoutingJoin.JoinUnique` | src/lib/analytics-route.ts:1423-1504 | given assignments and verdicts have one join |
| `RoutingJoin.InterleavingFree` | src/lib/analytics-route.ts:1423-1504 | how the lines of the two kinds interleave makes no difference |
| `RoutingJoin.JoinedAreAssigned` | src/lib/analytics-route.ts:1423-1504 | waiting and assigned ids are disjoint, joined ids are assigned, and every verdict is joined or waits |
| `RoutingJoin.NamesShown` | src/lib/analytics-route.ts:1224-1248 | there is a bucket for exactly the keys of the assignments, and it shows the names of one of its own |
| `RoutingJoin.OwnNamesExactly` | src/lib/analytics-route.ts:1224-1248 | every assignment is counted under its own names if and only if no two assignments of different names have one key |
| `RoutingJoin.OwnCountsExactly` | src/lib/analytics-route.ts:1224-1248 | and exactly then each bucket counts the assignments of its own names and no others |
| `RoutingJoin.PlainNamesTellApart` | src/lib/analytics-route.ts:1228-1228 | which is so when no provider, model or task type has a NUL in it |
| `RoutingJoin.NulSharesBucket` | src/lib/analytics-route.ts:1228-1228 | two assignments of different names that share a bucket |
| `RoutingJoin.BucketsConserve` | src/lib/analytics-route.ts:1224-1248 | over all buckets the assignments are those seen, and the results, successes, failures, tokens, durations, costs and unpriced rows are those of the joined verdicts |
| `BenchmarkEvidence.CoverOne` | src/lib/benchmark-evidence.ts:153-222 | one more assignment moves each field's counters as its definition says |
| `BenchmarkEvidence.TallyOne` | src/lib/benchmark-evidence.ts:153-222 | and the outcome, billing and identity counters |
| `BenchmarkEvidence.Derive` | src/lib/benchmark-evidence.ts:153-222 | the loop's counters are the sizes of the sets of assignments they are named for, and its dollar totals are within half a millionth a priced row of the exact sums |
| `BenchmarkEvidence.UsdNear` | src/lib/benchmark-evidence.ts:119-121 | rounding moves an amount by at most half a millionth |
| `BenchmarkEvidence.Gather` | src/lib/analytics-route.ts:1538-1549 | joined and waiting verdicts and attempts are split by whether their id is assigned, an attempt taking the place of a verdict |
| `BenchmarkEvidence.EvidenceOf` | src/lib/analytics-route.ts:1538-1568 | the evidence of any ledger is that of its first assignments, verdicts and attempts, and every id with terminal evidence is counted once, as joined or as unmatched |
| `BenchmarkEvidence.CoverageAddsUp` | src/lib/benchmark-evidence.ts:153-222 | observed, without a terminal and not recorded add up to each denominator, which is all the assignments and, for their own fields, the invalid rows |
| `BenchmarkEvidence.CostRowsSplit` | src/lib/benchmark-evidence.ts:153-222 | priced rows split exactly into api, subscription and unclassified |
| `BenchmarkEvidence.OutcomesAddUp` | src/lib/benchmark-evidence.ts:153-222 | outcomes add up to the assignments, and so do joined and without a terminal |
| `Bakeoff.FindUntrialed` | src/lib/bakeoff-trigger.ts:24-33 | the list is exactly the first of each key that is untried or whose digest has changed |
| `Bakeoff.Adopt` | src/lib/bakeoff-trigger.ts:78-155 | a digest first seen for a tried model is put on record and no recorded one changes |
| `Bakeoff.ClaimJustified` | src/lib/bakeoff-trigger.ts:78-155 | claiming models that are due keeps every claim justified: first of its key, or of a digest other than at the last claim, or after a replay that was all capacity shortfall |
| `Bakeoff.ClaimRemembered` | src/lib/bakeoff-trigger.ts:78-155 | the state saved with a claim remembers each key's last claim |
| `Bakeoff.MarkedRemembered` | src/lib/bakeoff-trigger.ts:78-155 | and still does after a replay that bought nothing is taken back |
| `Bakeoff.Store.Publish` | src/lib/bakeoff-trigger.ts:78-155 | publishing adds the pending proposal at most once and then clears it, dying between any two writes included |
| `Bakeoff.Store.Run` | src/lib/bakeoff-trigger.ts:78-155 | a sweep that dies after any number of writes keeps every claim justified and every claimed trial pending or proposed once; it marks a claim as skipped only when the replay of the incumbent and the very models it claimed bought nothing for that key; one that finds a pending trial publishes it; one that gets through claims before it pays |
| `Bakeoff.ClaimedProposedOnce` | src/lib/bakeoff-trigger.ts:78-155 | once a claimed trial is not pending it has exactly one proposal |
| `Bakeoff.Sweeps` | src/lib/bakeoff-trigger.ts:78-155 | all of this over any number of sweeps |
| `AffectedSuites.BuildGraph` | src/lib/affected-suites.ts:412-442 | the maps hold exactly the dependencies and the direct imports |
| `AffectedSuites.RedirectedToNew` | src/lib/affected-suites.ts:331-335 | new targets can redirect an import only to one of them |
| `AffectedSuites.ImportArm` | src/lib/affected-suites.ts:445-516 | the walk with its two visited sets terminates, and with the changed suites selects exactly those that have a dependency path to a changed code or contract file |
| `AffectedSuites.EdgeStays` | src/lib/affected-suites.ts:331-335 | a dependency on a file that reaches a change still reaches one after targets are added |
| `AffectedSuites.LargerChangeSelectsNoFewer` | src/lib/affected-suites.ts:445-516 | a larger change never drops a suite of the import arm, redirected imports included |
| `AffectedSuites.ReviewPath` | src/lib/affected-suites.ts:484-492 | the review worklist finds exactly the files imported from a review root through `src/lib` |
| `AffectedSuites.CandidatesAgree` | src/lib/affected-suites.ts:331-335 | all candidates of an import lie inside `src/lib` or all outside, exactly unless it names the directory itself |
| `AffectedSuites.LargerChangeReplaysNoLess` | src/lib/affected-suites.ts:484-495 | a larger change that names no path drawing the directory import out still picks the replay suite |
| `AffectedSuites.DrawnOutLosesReplay` | src/lib/affected-suites.ts:484-495 | a path that does draw it out loses the suite for a change of the directory's index |
| `AffectedSuites.ReplayGrowsExactly` | src/lib/affected-suites.ts:484-495 | among the changes allowed, growing one never loses the replay suite if and only if no allowed path draws the directory import out |
| `AffectedSuites.DirectoryImportDropsReplay` | src/lib/affected-suites.ts:331-335 | a tree and two changes where the replay rule loses it |
| `AffectedSuites.LostByTwo` | src/lib/affected-suites.ts:484-495 | whenever a larger change loses the replay suite, two of its paths do so on their own |
| `SuiteSelection.Select` | src/lib/affected-suites.ts:445-706 | the selector asks for a full run exactly when a changed file forces one, and otherwise selects exactly the suites that the graph, a census rule, the read map, the replay rule or a fixed list calls for |
| `SuiteSelection.FullRunStays` | src/lib/affected-suites.ts:112-119 | a change that needs a full run still does when it grows |
| `SuiteSelection.LargerChangeDropsNothing` | src/lib/affected-suites.ts:445-706 | with all else fixed, enlarging a change of code and contract files drops no suite short of a full run, the replay suite unless a path draws the directory import out |
| `SuiteSelection.OtherArmsGrow` | src/lib/affected-suites.ts:445-706 | every arm but the replay rule only grows with such a change, redirected imports included |
| `SuiteSelection.SelectionGrowsExactly` | src/lib/affected-suites.ts:445-706 | among changes of allowed files growing one never drops a suite if and only if, whenever one allowed path loses the replay of another, some other arm selects the replay suite for the two |
| `SuiteSelection.DirectoryImportDropsSuite` | src/lib/affected-suites.ts:331-335 | a tree that holds the replay suite and two changes, of which the larger drops it from the selection |
| `SuiteGrowth.SelectedBySome` | src/lib/affected-suites.ts:445-706 | apart from the suites always picked, a suite is selected exactly when a single path of the change contributes it |
| `SuiteGrowth.ContributesToLess` | src/lib/affected-suites.ts:331-335 | what a path contributes to a change it contributes to every part of the change that holds it |
| `SuiteGrowth.AnyChangeGrowsExactly` | src/lib/affected-suites.ts:445-706 | among changes of any allowed paths growing one never drops a suite if and only if no suite that one path has selected is lost when all the import targets join it that contribute nothing beside it |
| `SuiteGrowth.BarePathDropsSuite` | src/lib/affected-suites.ts:331-335 | a tree and two changes, of which the larger drops a suite because its import is drawn to a path without extension |
| `ActionDiscovery.Classify` | src/lib/assistant-action-discovery.ts:229-247 | a claim accepted as the second version is bound to its own file name and well formed in every field used later |
| `ActionDiscovery.Examine` | src/lib/assistant-action-discovery.ts:272-389 | one claim gives the limitation and the pending action its file and receipt call for |
| `SortedStrings.SortedKeysUnique` | src/lib/assistant-action-discovery.ts:272-389 | however the directory is listed the order of the keys is the same |
| `ActionDiscovery.List` | src/lib/assistant-action-discovery.ts:272-389 | the listing is sorted, sound and bounded in its limitations |
| `ActionDiscovery.Scan` | src/lib/assistant-action-discovery.ts:272-389 | a scan under any budgets examines at least one claim and reports exactly the claims it got to, within the page limit |
| `ActionDiscovery.BoundToScope` | src/lib/assistant-action-discovery.ts:146-177 | a continuation made for one actor and target stands for no key of another |
| `ActionDiscovery.Resume` | src/lib/assistant-action-discovery.ts:155-177 | a request resumes after the key its continuation stands for, and is refused when there is none |
| `ActionDiscovery.Answered` | src/lib/assistant-action-discovery.ts:272-389 | the answer is the page its keys call for, and is verified empty only when nothing was limited |
| `ActionDiscovery.ReadDiscovery` | src/lib/assistant-action-discovery.ts:272-389 | so for every request; a store never made has admitted nothing and one that cannot be read says nothing |
| `ActionDiscovery.VerifiedEmptyMeansNothingPending` | src/lib/assistant-action-discovery.ts:272-389 | a verified empty answer means that every claim in the store was certified and none of this actor and target lacks an exact receipt |
| `ActionDiscovery.FoundSplit` | src/lib/assistant-action-discovery.ts:272-389 | what two adjoining stretches of keys hold is what they hold together |
| `ActionDiscovery.Follow` | src/lib/assistant-action-discovery.ts:272-389 | following continuations under any budgets ends within as many requests as there are claims, and the pages concatenate to the single unbounded scan |

## Left out

- Processes, git, the network, clocks and file descriptors: their answers are inputs, or functions of what is asked about.
- Hashes, signatures and the text of JSON and base64: taken as injective, with lengths where lengths matter; `dispositionPreflight` gives an arbitrary outcome.
- `executeCatalogueAction`, the analytics live position, HTTP routes, views, redaction and command-line tools: refusals, plumbing, or parts of files not modelled here.
- Floating-point rounding, the sigmoid, softplus, the log posterior and the convergence of Newton's method; the reported intervals and the tallies that blank thin cells, which would only add easy members.
- `PathResolution.Resolver.ResolvedReference`: the depth the interpreter's stack allows is an input; the tree holds still; seals against a tree that changes during the walk and the budget are not modelled.
- The retries of `scan_reference_tree`, the peer probe and the compile-cache arm of the reclaimer.
- `Reclaim.EveryCandidateAttempted`: over passes with one fixed list of candidates, none ended by a removal that could not be verified, after which the list is no longer fixed.
- `Staging.Removal.StageEntries`: others may create entries at any point but not take or move the original ones; exactly-once holds for what they create only when it is their own.
- `RetireRun.Expire`: the name pattern, owner and manifest that place a copy under a declared scope are folded into the `scoped` input.
- `Discovery.Passes`: assumes, as the checkpoint does, that an equal directory identity means equal names of subdirectories and links.
- `AnalyticsCheckpoint.CompareScans`: calendar days are day numbers, which both accumulators format alike for years 1000 to 9999; cash spend and usage projections are not modelled.
- `BenchmarkEvidence.Derive`: amounts are exact numbers rounded to millionths, not floating point.
- `Bakeoff.Store.Run`: the history, the arms of a model and the ids of candidates are inputs; the lock that keeps sweeps apart is taken as given.
- `SuiteSelection.Select`: what source text imports and names, what the read map credits, which files force a full run and the table of census rules are inputs; the narrow and impact selections made from the same arms are not modelled.
- `ActionDiscovery.List`: with a listing cut short by a bound it does not say which keys are there.
- The other small decision modules, which would only add easy members.
