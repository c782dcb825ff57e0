# estoria: verified model

A Dafny model of the parts of estoria, a Go event-sourcing toolkit, whose behaviour spans many
operations: the projection lifecycle (versioned read models rebuilt, promoted, rolled back and
retired over one event stream per projection), the command protocol that several processes follow
over that stream, the replication of cutovers to routers, the in-memory event store, the snapshot
stores, the aggregate store stack, and the continuous projection runtime.
`dafny verify dfyconfig.toml` checks the whole project.

## Modules

| module | models | form |
|---|---|---|
| `Base` | 64-bit integers, identifiers, instants | values |
| `LifecycleState`, `LifecycleEvents` | the folded state, its validation, the eleven events and every fault that poisons a fold | functions, as in the source |
| `CleanHistories`, `RestStates` | all histories whose fold is not poisoned; exactness of the validation | lemmas |
| `Protocol` | handles, commands and appends as one state machine over a shared stream | steps of a world |
| `PromotionSafety`, `PromotionVerdicts`, `LateLandings`, `RetirementSafety`, `WitnessGate`, `Completions`, `CleanStreams`, `SingleWriter`, `RunDiscipline`, `EndedRuns`, `StrayRuns` | invariants over all runs of `Protocol`, what a run can still come to, and two concrete runs | lemmas |
| `CommandGuards`, `Progress`, `NoDeadEnds` | each command sends its event exactly when the fold accepts it, and what can be done from every reachable clean stream | lemmas |
| `Cutovers`, `Routers`, `Workers`, `Convergence` | the cutover fold, both routers, a worker's drain, any number of workers | functions; classes; methods with loops; steps |
| `EventLog`, `MemoryStore` | the event store as a value; the event store and its iterators over shared backing arrays | functions; classes over arrays |
| `SnapshotStores` | snapshots as events of a stream, and snapshots in memory | methods over the event store; a class |
| `SaveOutcomes`, `ExitErrors` | verdicts and attributions over error trees | a method with nested loops; functions |
| `AggregateStores` | aggregates, and any stack of snapshotting and caching layers over the event-sourced store | classes and methods |
| `Processors` | the batch runtime with its checkpoint | classes and methods |
| `RetryArbitration` | terminal commands against promotion retries | steps and a class |

A history is *clean* when its fold records no fault. A *run* is any finite sequence of enabled
steps, so a statement about every run speaks of every interleaving. In `Protocol` an append may be
acknowledged, commit without being observed, commit and lose its response, stay in flight and land
after its call returned, be refused, or fail with nothing appended.

## What was found

* **A catch-up can poison its own stream** (projection/lifecycle/handle.go:812-843). Recording a
  catch-up looks at the stop flag and the processor's exit, not at the phase of the view it appends
  to, and a refused command may just have installed a newer view
  (projection/lifecycle/handle.go:1217-1226). `StrayRuns.RefusedCommandCanPoison` gives such a run.
  Nothing else can: `CleanStreams.RunsAreCleanExactly` proves that every run's stream is clean if and
  only if every catch-up in it was recorded while building or caught up, and
  `CleanStreams.CatchUpIsCleanExactly` is the condition at the moment of the append.
* **A promotion can be recorded after its processor's exit** when the append outlives its call. The
  comment at projection/lifecycle/handle.go:1553-1555 promises that it cannot;
  `StrayRuns.PromotionCanLandAfterExit` gives the run, and `LateLandings` the exact condition: from
  every reachable state a handle past its exit can still see a promotion recorded if and only if it
  has one in flight at the stream's head.
* **A command can wait for the run's own append.** Announcing a command cancels a promotion retry,
  and never leaves a command waiting for one (`RetryArbitration.RetriesYieldToCommands`). The
  catch-up and the first promotion hold the same lock through appends that no announcement cancels
  (projection/lifecycle/handle.go:812-843, 853-905): `RetryArbitration.CommandsWaitForTheRunsAppend`
  gives the state, and `RetryArbitration.ProgressIsExact` says when some thread can move.
* **A forward read can yield nothing for a very negative boundary**
  (eventstore/memory/event_store.go:166-174): the subtraction wraps, as
  `EventLog.LeastBoundaryReadsNothing` shows after one append and one truncation.
  `EventLog.ReadsAreFiltersExactly` says when a read is its filter, which includes every
  non-negative boundary.
* **An unbounded snapshot read looks at the newest event only**
  (snapshotstore/eventstream/event_stream_store.go:101-108). When that event is not a readable
  snapshot, older readable ones are not found, although the documentation speaks of skipping such
  events. `SnapshotStores.UnreadableNewestHidesOlder` gives the stream, and
  `SnapshotStores.UnboundedReadIsNewestExactly` the exact condition.
* **A cached save of a nil aggregate carries no marker** (aggregatestore/cached_store.go:117-119),
  while the documentation asks decorators to mark the errors they raise before delegating
  (aggregatestore/aggregate_store.go:222-226). `AggregateStores.Store.Save` states it: saving no
  aggregate means that nothing was appended if and only if the outermost store does not cache, and
  means nothing at all otherwise.

## Model

| member | source | states |
|---|---|---|
| LifecycleEvents.PoisonIsPermanent | projection/lifecycle/state.go:269-283 | Once a fold is poisoned, no further event changes or clears its fault. |
| CleanHistories.StepKeepsValid | projection/lifecycle/events.go:40-642 | Every one of the eleven events, applied without fault to a valid state, leaves a valid state. |
| CleanHistories.EveryCleanPrefixIsValid | projection/lifecycle/state.go:319-415 | In every clean history every prefix's state passes validation, in every phase, and carries a name once it is not empty. |
| CleanHistories.SnapshotsOfFoldsAreAccepted | projection/lifecycle/state.go:285-317 | A snapshot of a fold is accepted when read back if and only if at least one event was folded, clean or poisoned. |
| CleanHistories.TargetsAreTheNaturals | projection/lifecycle/events.go:40-77 | Across every clean history the attempts' targets are exactly 1, 2, 3, ... in order, as many as the allocation high-water mark. |
| CleanHistories.DiscardedTargetsStayDead | projection/lifecycle/events.go:382-458 | The target of an abandoned or rolled-back attempt is never live or targeted again. |
| CleanHistories.CondemnedNeverServes | projection/lifecycle/events.go:476-598 | A dead version, or one whose retirement is reserved, is never live or targeted at any later point. |
| CleanHistories.PromotionsIncrease | projection/lifecycle/events.go:324-370 | Later promotions record greater versions and greater revisions, so each version is promoted at most once. |
| CleanHistories.AllocationGrows | projection/lifecycle/events.go:40-77 | Neither the high-water mark nor the cutover revision ever decreases. |
| CleanHistories.RetirementIsIrrevocable | projection/lifecycle/events.go:476-540 | Once a version's retirement is reserved it is not live then, and never live or targeted afterwards. |
| CleanHistories.RollbackAndRetirementExclude | projection/lifecycle/events.go:382-540 | Per attempt at most one of a rollback and a retirement reservation is recorded, and at most once. |
| RestStates.DivisionFormsAreTheBounds | projection/lifecycle/state.go:417-435 | The overflow-free division tests are the bounds 2k-1 (odd only, at version 1) and 2k-2 (at later versions). |
| RestStates.PlaysAreAccepted | projection/lifecycle/state.go:417-435 | Whatever k concluded attempts (each abandoned, promoted, or promoted and rolled back) leave is accepted. |
| RestStates.AcceptedArePlayed | projection/lifecycle/state.go:417-435 | Whatever is accepted is left by some constructed sequence of exactly k concluded attempts. |
| RestStates.RestReachableIsExact | projection/lifecycle/state.go:417-435 | For a live version among k allocations, the rest check accepts exactly what k concluded attempts can leave. |
| RestStates.ReachRest | projection/lifecycle/events.go:40-458 | Every sequence of concluded attempts is realised by a clean event history. |
| RestStates.ValidateIsExact | projection/lifecycle/state.go:319-534 | A state with a vacant slot validates if and only if some clean history folds to it; one with an attempt in flight, if and only if some clean history folds to it up to the audit stamps. |
| Cutovers.FoldIsIncremental | projection/lifecycle/router.go:164-200 | Folding on from where an earlier fold stopped equals refolding from the start, refusals included. |
| Cutovers.CutoverAgrees | projection/lifecycle/events.go:324-409 | On a promotion or rollback the cutover fold and the lifecycle fold accept together and agree afterwards. |
| Cutovers.RouterRefinesLifecycle | projection/lifecycle/worker.go:325-366 | For every interleaving of clean per-name streams, decoding and folding refuses nothing, and routes exactly the names that recorded a cutover, each to its live version at its revision. |
| Routers.ApplyIfNewer | projection/lifecycle/router.go:66-91 | The result serves a revision at least as new as both the old route and an accepted cutover. |
| Routers.MemoryRouter.ApplyCutover | projection/lifecycle/router.go:66-91 | Rejects an invalid version, a revision below 1 and a conflicting equal revision without change; otherwise applies if newer, so that after any deliveries in any order each name's route is the newest cutover accepted for it. |
| Routers.MemoryRouter.Live | projection/lifecycle/router.go:48-58 | Answers the version that the newest of all cutovers accepted for the name made live, and none if and only if none was accepted. |
| Routers.MemoryRouter.AppliedCutover | projection/lifecycle/router.go:96-106 | Vouches for exactly the newest cutover accepted for the name. |
| Routers.AfterIsTheRest | projection/lifecycle/router.go:278-288 | Reading past the last folded position yields exactly the rest of the record. |
| Routers.StreamRouter.Fold | projection/lifecycle/router.go:278-327 | Succeeds exactly when the read begins, does not break off, closes, and every cutover folds; the routes and position are then those of the stretch read. |
| Routers.StreamRouter.Advance | projection/lifecycle/router.go:261-273 | Succeeds exactly when the read began, did not break off and closed, and the fold of the whole record from zero accepts; success leaves exactly that fold, failure changes nothing. |
| Routers.StreamRouter.Live | projection/lifecycle/router.go:227-243 | Fails exactly when its cache is empty or stale and the read did not begin, broke off, failed to close, or the fold refuses; otherwise it answers from a cache that is current, or from the fold of the whole record. |
| Workers.ReadAndFold | projection/lifecycle/worker.go:196-248 | Folds the longest accepted prefix of what the read yields, reports how the read ended, an independent failure joined with a cancellation that races it, or where an event was refused, and buffers exactly that prefix's cutovers when tailing. |
| Workers.Deliver | projection/lifecycle/worker.go:277-287 | Delivers in order up to the first failing setter, or up to the delivery after which the context has ended. |
| Workers.Drain | projection/lifecycle/worker.go:167-290 | A read that does not open folds and delivers nothing; otherwise the accepted prefix is delivered in order even when a later event is refused, nothing when the iterator cannot close or the context ended, and a failed or cancelled delivery outranks the read's own end. |
| Workers.QuietDrainsAreWhole | projection/lifecycle/worker.go:250-290 | A drain reports no error if and only if the read ended cleanly with nothing refused, the iterator closed, the context never ended and every delivery succeeded. |
| Convergence.RevisionsIdentify | projection/lifecycle/cutover.go:28-46 | Two cutovers a clean record served for one projection at one revision are the same. |
| Convergence.RunsNeverRegress | projection/lifecycle/cutover.go:28-46 | Whatever workers start, stop, redeliver and interleave, no setter's revision ever decreases. |
| Convergence.WorkersConverge | projection/lifecycle/worker.go:105-144 | In every run every served route is a recorded cutover, no fold or delivery is ever rejected, and a ready worker with nothing left to deliver leaves every setter at or past the final revision of the prefix it read. |
| Protocol.StreamGrows | projection/lifecycle/handle.go:2144-2170 | Along every run the stream is only extended. |
| Protocol.AttestIsUnanimous | projection/lifecycle/handle.go:2020-2067 | Receipts are collected if and only if every required witness is registered and serves exactly the live cutover, and there is then one for each, in order, for exactly that cutover. |
| PromotionSafety.PromotionsAreCertifiedOnce | projection/lifecycle/handle.go:1483-1594 | In every run each recorded promotion directly follows the same run's own catch-up on the attempt and runner it certified, commits before that run's exit is published unless it landed late, and is recorded at most once per run. |
| PromotionVerdicts.PromotionValidates | projection/lifecycle/handle.go:1483-1594 | A promotion is only sent where recording it leaves a fold that validates. |
| PromotionVerdicts.SlotVerdictIsFinal | projection/lifecycle/handle.go:930-1018 | A promotion with an open outcome is judged durable (the fold at its slot validates and shows the attempt promoted) if and only if the slot holds this very run's promotion; no later growth of the stream changes the answer, and the judgement then stops nothing. |
| LateLandings.FinishedRunsPromoteExactlyInFlight | projection/lifecycle/handle.go:1550-1594 | From every reachable state, some continuation records a promotion of a handle whose exit is published if and only if the handle has one in flight at the head. |
| LateLandings.PromotionsLandLateExactlyInFlight | projection/lifecycle/handle.go:1550-1594 | From every reachable state, a running or finished handle that promotes no more can see a promotion recorded after its exit if and only if it has one in flight at the head. |
| PromotionSafety.PromotePlanOk | projection/lifecycle/handle.go:1483-1594 | Whatever a promotion sends goes right behind its own run's certifying catch-up, from a running handle, and every outcome leaves the handle's bindings and certificate sound. |
| PromotionSafety.CatchUpPlanOk | projection/lifecycle/handle.go:812-843 | A certificate is issued only for an acknowledged catch-up, at the slot and runner that recorded it. |
| RetirementSafety.RetiringWasReserved | projection/lifecycle/events.go:476-540 | A retiring attempt was put there by a durable reservation of its previous version. |
| RetirementSafety.RetirePlanHolds | projection/lifecycle/handle.go:1827-1965 | A retirement that holds its lock towards teardown has a view that shows its reservation, and receipts of every captured witness for exactly the live cutover. |
| RetirementSafety.ReattestPlanHolds | projection/lifecycle/handle.go:1978-2015 | Attesting again goes on only while a fresh fold still shows that reservation, with receipts of every captured witness for exactly the live cutover. |
| RetirementSafety.TeardownIsSafe | projection/lifecycle/handle.go:1827-1965 | In every run each teardown was preceded by the durable reservation of exactly that version, which is live neither then nor at any clean point of any continuation. |
| WitnessGate.ReservationsAreVouchedFor | projection/lifecycle/handle.go:1885-1945 | In every run each recorded reservation was sent by a retirement carrying its authorization; without an override that retirement found a policy in force, asked exactly the witnesses it requires, and each of them served exactly the cutover live at that point of the stream. |
| WitnessGate.TeardownsAreVouchedFor | projection/lifecycle/handle.go:1978-2015 | In every run each teardown comes after an action that read the reservation of that version and had every witness the reservation captured vouch for exactly the live cutover. |
| WitnessGate.RefusedRetirementsDoNothing | projection/lifecycle/handle.go:2045-2067 | One required witness that does not serve the live cutover stops a retirement on the spot: nothing is sent and nothing held. |
| Completions.CompletionsFollowTeardown | projection/lifecycle/handle.go:1952-1969 | In every run, late landings included, a recorded completion that names a version was issued by a handle whose own teardown of exactly that version had succeeded. |
| CleanStreams.BeginClean | projection/lifecycle/orchestrator.go:144-185 | What `Begin` sends extends the prefix it was decided on cleanly. |
| CleanStreams.SetPolicyClean | projection/lifecycle/orchestrator.go:230-275 | What a policy change sends extends its prefix cleanly. |
| CleanStreams.ClaimClean | projection/lifecycle/handle.go:342-447 | A claim, with the build start that may ride along, extends its prefix cleanly. |
| CleanStreams.PromoteClean | projection/lifecycle/handle.go:1483-1594 | A promotion extends its prefix cleanly. |
| CleanStreams.RollbackClean | projection/lifecycle/handle.go:1607-1672 | What a rollback sends extends its prefix cleanly. |
| CleanStreams.AbandonClean | projection/lifecycle/handle.go:1695-1750 | What an abandonment sends extends its prefix cleanly. |
| CleanStreams.RetireClean | projection/lifecycle/handle.go:1827-1925 | A reservation, or a retirement with nothing to tear down, extends its prefix cleanly. |
| CleanStreams.CompleteClean | projection/lifecycle/handle.go:2072-2079 | The completion of a retirement extends its prefix cleanly. |
| CleanStreams.ReleaseClean | projection/lifecycle/handle.go:2116-2137 | A release extends its prefix cleanly. |
| CommandGuards.BeginIsExact | projection/lifecycle/orchestrator.go:144-185 | `Begin` sends the next allocation exactly when its view validates and the fold accepts it there, and nothing otherwise. |
| CommandGuards.SetPolicyIsExact | projection/lifecycle/orchestrator.go:230-275 | A policy change is sent exactly when its view validates and the fold accepts the next generation there. |
| CommandGuards.ClaimIsExact | projection/lifecycle/handle.go:342-447 | An unused handle claims exactly when the fold accepts its claim, starting the build exactly when the attempt was only created. |
| CommandGuards.RecoverIsExact | projection/lifecycle/handle.go:342-447 | A run whose claim may or may not be durable is claimed exactly when what it reads back shows its attempt under its own claim, and is over otherwise. |
| CommandGuards.PromoteIsExact | projection/lifecycle/handle.go:1483-1594 | A promotion is sent exactly when the run goes on, its certificate is of the catch-up its view shows at exactly this version, and the fold accepts the promotion. |
| CommandGuards.RollbackIsExact | projection/lifecycle/handle.go:1607-1650 | A rollback is sent exactly when its view validates and the fold accepts it. |
| CommandGuards.AbandonIsExact | projection/lifecycle/handle.go:1695-1727 | An abandonment is sent exactly when its view validates and the fold accepts it. |
| CommandGuards.ReleaseIsExact | projection/lifecycle/handle.go:2116-2137 | An exited run releases exactly when the fold accepts the release of its claim on its view. |
| CommandGuards.FirstRetireIsExact | projection/lifecycle/handle.go:1863-1873 | Retiring behind a first version completes at once exactly when nothing is overridden and the fold accepts the completion. |
| CommandGuards.RetireIsExact | projection/lifecycle/handle.go:1827-1940 | A retirement with something to tear down reserves exactly when the caller can tear it down, everyone the policy asks serves the live cutover, and the fold accepts the reservation. |
| CommandGuards.ResumedRetireIsExact | projection/lifecycle/handle.go:1889-1896 | A standing reservation is taken up exactly when every witness it captured serves the live cutover, nothing is overridden, and the caller can tear down. |
| CleanStreams.GuardedPlanIsClean | projection/lifecycle/handle.go:2144-2170 | Every command's append extends the prefix it was decided on cleanly, given only for a catch-up that is actually sent that the stream is clean and its view building or caught up. |
| CleanStreams.RunsAreCleanExactly | projection/lifecycle/handle.go:2144-2170 | In every run, with no hypothesis on it, the stream is clean if and only if every catch-up it records was recorded while building or caught up. |
| CleanStreams.GuardedCommandsKeepTheStreamClean | projection/lifecycle/handle.go:812-843 | In every run in which each catch-up that is sent is sent on a view that is building or caught up, the stream is clean throughout; a catch-up that a stopped or exited run drops is no exception. |
| CleanStreams.CatchUpIsCleanExactly | projection/lifecycle/handle.go:812-843 | An admitted catch-up keeps a clean stream clean if and only if the view it is appended to is building or caught up. |
| StrayRuns.RefusedCommandCanPoison | projection/lifecycle/handle.go:1217-1226 | A concrete run of guarded commands whose stream ends poisoned. |
| StrayRuns.PromotionCanLandAfterExit | projection/lifecycle/handle.go:1550-1560 | A concrete run whose promotion lands after its processor's exit is published. |
| SingleWriter.ClaimOk | projection/lifecycle/handle.go:342-447 | A claim that may start a processor was decided on an attempt in flight, and records a takeover if and only if a claim stands on that view, whatever attestation was offered. |
| SingleWriter.ClaimTakesHold | projection/lifecycle/events.go:130-186 | Once appended at the head without taking over, such a claim stands. |
| SingleWriter.HeldStep | projection/lifecycle/events.go:130-234 | No event but a takeover or the runner's own release ends a standing claim before its attempt is over. |
| SingleWriter.AtMostOneWriter | projection/lifecycle/handle.go:342-514 | In every run whose stream records no attested takeover, at most one handle's processor runs or may still start for any target version, however many attestations were offered where no claim stood. |
| RunDiscipline.StartsFollowADurableClaim | projection/lifecycle/handle.go:342-514 | In every run, takeovers and lost responses included, a handle whose processor may run, runs or has exited has its own claim recorded in the stream. |
| RunDiscipline.StoppedRunsFallSilent | projection/lifecycle/handle.go:672-692 | Once a handle was stopped, by its own command, a lost slot or a claim taken over, it stays stopped and records no catch-up or promotion in any continuation; only an append issued before can still land. |
| RunDiscipline.SlotVerdictPrecedence | projection/lifecycle/handle.go:1424-1470 | For every handle, whatever its marks: the fold at a lost slot revokes a run that another runner displaced even if it was stopped cleanly, one it cannot validate only if it still ran, never one that its own command ended, and a revoked run stays revoked; likewise for which runs it stops. |
| RunDiscipline.RevocationHasEvidence | projection/lifecycle/handle.go:566-692 | In every run a handle is revoked only if the stream shows another runner on its attempt, some fold of the stream cannot be validated, or the handle once could not read the stream. |
| RunDiscipline.VerdictsLast | projection/lifecycle/handle.go:1409-1457 | In every continuation a revoked run stays revoked, and a run that its own command ended stays ended and stopped and is never revoked afterwards. |
| EndedRuns.EndingMarksExactly | projection/lifecycle/handle.go:1656-1668 | A rollback or abandonment stops the run of the handle that issued it, and names the command as the reason, if and only if its record is known to be durable and the attempt it ended is the run's own; it never revokes, and ending another attempt changes no mark. |
| EndedRuns.OwnEndingSilencesTheRun | projection/lifecycle/handle.go:1724-1738 | In every run a handle whose own command ended its attempt is stopped and marked so from that step on, is never revoked for it, and records no catch-up or promotion in any continuation, landings of earlier appends apart. |
| EndedRuns.RevokedRunsAreStopped | projection/lifecycle/handle.go:672-692 | In every run, whatever revoked a run also stopped it. |
| Progress.PromotionGoesThrough | projection/lifecycle/handle.go:1483-1594 | From every reachable world with a clean stream, a run that still drains and whose view is the head has its acknowledged catch-up followed by its promotion, whatever was live before: the target serves at the next revision, the version that was live is recorded as previous, and the stream stays clean. |
| Progress.LostPromotionIsRecognized | projection/lifecycle/handle.go:930-1018 | From every such world a certified promotion whose response is lost, or that lands after its call gave up, is judged promoted as soon as the run looks, and the judgement does not stop it. |
| Progress.OpenPromotionsKeepTheirSlot | projection/lifecycle/handle.go:853-905 | In every reachable world a promotion sent without its run learning that it is durable stays open under exactly the slot it contends for, and that slot is decided when the append was refused. |
| Progress.LostSlotsStopExactly | projection/lifecycle/handle.go:1366-1470 | From every reachable world with a clean stream, a run judged by a slot it lost is stopped exactly when the slot shows its attempt gone or claimed by another, and revoked exactly in the second case. |
| Progress.ReconcileStopsExactly | projection/lifecycle/handle.go:566-672 | From every such world a running run that reads the head is stopped exactly when its attempt is not there under its own claim, and revoked exactly when another claims it. |
| Progress.BlindRunsStop | projection/lifecycle/handle.go:566-692 | In every reachable world a running run that cannot read the stream, or reads a prefix that does not validate, is stopped and revoked. |
| Progress.RefusedClaimsShowTheWinner | projection/lifecycle/handle.go:1306-1360 | On a clean stream a claim that lost its slot leaves its handle over, showing the slot exactly when the winner changed the attempt or its runner. |
| Progress.ClaimsAreHandedOver | projection/lifecycle/handle.go:2116-2137 | From every reachable world with a clean stream, a run whose view is the head and whose claim stands there lets go in two steps, started or not, leaving the attempt as it is for anybody to claim without taking over. |
| NoDeadEnds.ResumedRunStarts | projection/lifecycle/handle.go:304-514 | From every reachable world with a clean stream, an unused handle can take up the attempt at the head if it was never claimed, was released, or is taken over, also when its claim became durable unobserved: its run starts and nothing else about the projection changes. |
| NoDeadEnds.RollbackReturns | projection/lifecycle/handle.go:1607-1672 | From every such world a promoted version whose previous one stands is rolled back to it in one step, at the next revision, leaving the slot free. |
| NoDeadEnds.SlotCanBeVacated | projection/lifecycle/handle.go:1695-1965 | Whatever attempt occupies the slot of a clean stream, in whatever phase, an idle handle can abandon it or complete its retirement, and what is served stays as it was. |
| NoDeadEnds.NextVersionCanServe | projection/lifecycle/orchestrator.go:144-185 | No reachable clean stream is a dead end: from every one of them, until a counter is exhausted, there are commands after which the next version number serves at the next revision. |
| RetryArbitration.NoWakeUpIsLost | projection/lifecycle/handle.go:1030-1102 | In every interleaving a pending command means no uncancelled retry is registered, and a waiting retry's channel is closed unless a command is still pending. |
| RetryArbitration.RetriesYieldToCommands | projection/lifecycle/handle.go:1020-1102 | From every reachable state with a command pending, a retry that holds the lock gives it up within two steps of its own, its append returning or not. |
| RetryArbitration.ProgressIsExact | projection/lifecycle/handle.go:853-1102 | With a command pending or a retry waiting, some thread can move by itself unless, and only unless, everything waits for something outside: an append that no command cancels, or a processor that has yet to stop. |
| RetryArbitration.CommandsWaitForTheRunsAppend | projection/lifecycle/handle.go:853-905 | A reachable state in which a command waits, nothing can move, and the lock is held by the run's own parked append. |
| RetryArbitration.Handle.PauseRetries | projection/lifecycle/handle.go:1079-1088 | Announcing a command keeps the arbitration's invariant and leaves no registered retry uncancelled. |
| RetryArbitration.Handle.Resume | projection/lifecycle/handle.go:1090-1101 | Withdrawing keeps the invariant; the last one leaves no retry waiting on an open channel. |
| RetryArbitration.Handle.LookOnce | projection/lifecycle/handle.go:1030-1054 | One look under the mutex keeps the invariant, and registers only with no command pending, under a context nobody has cancelled. |
| RetryArbitration.Handle.AwaitTurn | projection/lifecycle/handle.go:1030-1054 | The whole wait, over any number of wake-ups with commands coming and going, ends registered with no command pending and an uncancelled context, or given up. |
| RetryArbitration.Handle.FinishRetry | projection/lifecycle/handle.go:1056-1062 | Clearing the registration after the attempt keeps the invariant. |
| ExitErrors.LeavesMatchIsEveryLeaf | projection/lifecycle/handle.go:708-749 | The traversal matches exactly when every leaf of the error tree is a target, and none is nil. |
| ExitErrors.AttributionLosesNoFailure | projection/lifecycle/handle.go:1194-1208 | A result that returned first is reported whole, next to the local failure, unless it is nothing but the run's own cancellation; one that did not return first is dropped. |
| ExitErrors.CancellationLosesNoFailure | projection/processor/processor.go:327-338 | The cancellation is always reported, alone exactly when nothing else failed, and every other leaf is kept. |
| ExitErrors.OpeningLosesNoFailure | projection/lifecycle/worker.go:174-193 | A failure to open a read is reported with a cancellation that races it, and the cancellation alone when there is nothing else to it. |
| ExitErrors.ReadsLoseNoFailure | projection/lifecycle/worker.go:201-222 | A request's failure is reported with a cancellation that races it, and nothing is reported exactly when the stream merely ended. |
| ExitErrors.ClosingLosesNoFailure | projection/lifecycle/worker.go:250-275 | Failures of the read and of the close are both reported, whichever race with each other and a cancellation, and nothing is reported exactly when there is nothing. |
| EventLog.AppendKeepsWellFormed | eventstore/memory/event_store.go:77-162 | An append, refused, failed after spending positions, or committed, keeps both indexes in agreement. |
| EventLog.DeleteKeepsWellFormed | eventstore/memory/event_store.go:254-302 | A deletion or truncation keeps both indexes in agreement. |
| EventLog.IndexesAgree | eventstore/memory/event_store.go:25-58 | After any operations the global log filtered by stream is that stream's events at versions firstVersion..tip, and positions strictly increase up to the counter. |
| EventLog.RunSettles | eventstore/memory/event_store.go:47-51 | Nothing later ever appears at or below the counter; what is there is unchanged or gone. |
| EventLog.OnlyDeletionRemoves | eventstore/memory/event_store.go:254-302 | A committed event stays, at its version and position, unless a deletion of its stream reaches it. |
| EventLog.MismatchIsExact | eventstore/memory/event_store.go:77-112 | A version mismatch is reported, naming both versions, if and only if the stream's last version is not the expected one, or is positive under must-not-exist; then every stream, the log and the counter are as they were. |
| EventLog.AppendsFollowTheirGuard | eventstore/memory/event_store.go:92-162 | Whatever goes through under an expected version takes the very next ones; whatever goes through under must-not-exist starts at version 1 on a stream without events. |
| EventLog.GuardedAppendsExclude | eventstore/memory/event_store.go:100-112 | After any operations, of two non-empty appends under the same guard with no deletion of the whole stream between them, at most one goes through. |
| EventLog.VersionsAreNotReused | eventstore/memory/event_store.go:254-287 | Unless the whole stream is deleted in between, no version of a stream is given out twice, across truncations too. |
| EventLog.AppendsAllOrNothing | eventstore/memory/event_store.go:77-162 | An append goes through exactly when its guard admits the stream and every event can be encoded; otherwise no event is added anywhere, and only a failed encoding spends positions. |
| EventLog.CommittedAppendIsWhole | eventstore/memory/event_store.go:114-162 | What goes through is all at the end of the stream and of the log, in order and with its payloads, and no other stream changes. |
| EventLog.DeletionIsExact | eventstore/memory/event_store.go:254-302 | A deletion fails exactly on a negative version or a stream never written, and otherwise removes exactly the stream's events at or below the version, all of them for version zero, keeping the last version of a truncated stream. |
| EventLog.ResumedReadsMissNothing | eventstore/memory/event_store.go:221-250 | Whatever happens between two global reads, every event still in the log past the first bound was on the first page or is yet to be read past its last position. |
| EventLog.CursorSelects | eventstore/memory/event_store.go:166-190 | Starting at the cursor is the filter by version, in both directions, unless the 64-bit subtraction wraps; then nothing is read. |
| EventLog.ReadsAreFiltersExactly | eventstore/memory/event_store.go:166-174 | A forward read is its filter if and only if the boundary does not wrap or the stream holds nothing; non-negative boundaries never wrap. |
| EventLog.LeastBoundaryReadsNothing | eventstore/memory/event_store.go:166-174 | After one append and one truncation, a forward read from the least boundary yields nothing of the event its filter selects. |
| EventLog.RestStep | eventstore/memory/stream_iterator.go:20-48 | An iterator is at its end exactly when nothing is left, and otherwise its event is the first of what is left. |
| MemoryStore.GrowAll | eventstore/memory/event_store.go:153-159 | Appending to a slice adds the items at its end and writes nothing below it, in place or in a fresh array. |
| MemoryStore.Compact | eventstore/memory/event_store.go:291-302 | Compacting the log in place leaves exactly the entries not dropped, in order. |
| MemoryStore.EncodeAll | eventstore/memory/event_store.go:114-151 | Each event tried spends a position, the one that fails too; on success versions and positions are consecutive. |
| MemoryStore.StreamIterator.Next | eventstore/memory/stream_iterator.go:20-53 | Reports a closed iterator, which stays closed, or its end, or yields the first of what remains and leaves the rest. |
| MemoryStore.EventStore.AppendStream | eventstore/memory/event_store.go:77-162 | The new store and result are those of the append on values, and every open iterator still yields what it was to yield. |
| MemoryStore.EventStore.DeleteStream | eventstore/memory/event_store.go:254-287 | The new store and result are those of the deletion on values, and every open iterator still yields what it was to yield. |
| MemoryStore.EventStore.DropFromGlobalLog | eventstore/memory/event_store.go:291-302 | Only the named stream's entries up to the version leave the log; no stream is touched. |
| MemoryStore.EventStore.Search | eventstore/memory/event_store.go:225-230 | Binary search finds the first entry past a position. |
| MemoryStore.EventStore.ReadStream | eventstore/memory/event_store.go:194-217 | Not found exactly for a stream never written; otherwise the iterator yields the filter of the stream by direction, version and count. |
| MemoryStore.EventStore.ReadAll | eventstore/memory/event_store.go:221-250 | The iterator yields the log's events past the position, up to the count, as of the call. |
| SnapshotStores.ReadSnapshot | snapshotstore/eventstream/event_stream_store.go:96-175 | A read that succeeds is the first event readable within the bound on a backward walk of the snapshot stream, and one fails if and only if the event store did not open the stream or failed before the walk was over. |
| SnapshotStores.BoundedReadIsNewest | snapshotstore/eventstream/event_stream_store.go:76-91 | A bounded read returns the newest readable snapshot within the bound, and none exactly when there is none. |
| SnapshotStores.UnboundedReadIsNewestExactly | snapshotstore/eventstream/event_stream_store.go:76-108 | An unbounded read returns the newest readable snapshot if and only if the newest event is readable or none is. |
| SnapshotStores.UnreadableNewestHidesOlder | snapshotstore/eventstream/event_stream_store.go:86-108 | A snapshot followed by an event that carries none is missed by an unbounded read and found by a bounded one. |
| SnapshotStores.WriteSnapshot | snapshotstore/eventstream/event_stream_store.go:177-230 | Appends the snapshot and prunes; a pruning failure is not the write's. |
| SnapshotStores.WriteKeepsTheNewest | snapshotstore/eventstream/event_stream_store.go:177-230 | A successful write leaves exactly the newest retained snapshots with the new one last, every other stream untouched, and the store well-formed. |
| SnapshotStores.WrittenSnapshotIsRead | snapshotstore/eventstream/event_stream_store.go:92-230 | Reading after a write, unbounded or bounded at or past its version, gives the snapshot back. |
| SnapshotStores.MemorySnapshotStore.ReadSnapshot | snapshotstore/memory/snapshot_store.go:32-60 | Returns the greatest kept version within the bound, and nothing exactly when there is none. |
| SnapshotStores.MemorySnapshotStore.WriteSnapshot | snapshotstore/memory/snapshot_store.go:62-97 | Accepts exactly a version past every kept one, and keeps what the retention policy retains, versions ascending. |
| SnapshotStores.LastNRetains | snapshotstore/snapshot_store.go:57-63 | The default policy retains exactly the last N. |
| SaveOutcomes.SaveOutcome | aggregatestore/aggregate_store.go:274-327 | The level-order walk ends on every finite error tree with the verdict the tree means. |
| SaveOutcomes.MeansOne | aggregatestore/aggregate_store.go:261-273 | Every error means exactly one outcome: the unanimous marker of the shallowest marked depth of its whole tree, and unknown otherwise. |
| SaveOutcomes.WrappingKeepsTheVerdict | aggregatestore/aggregate_store.go:222-226 | Wrapping an error in an unmarked one keeps its verdict. |
| SaveOutcomes.MarkingShadows | aggregatestore/aggregate_store.go:328-334 | A marker put around an error decides alone, whatever is beneath it. |
| SaveOutcomes.JoiningTakesTheNearer | aggregatestore/aggregate_store.go:261-273 | Of two joined errors the one marked nearer the caller speaks for both, in either order. |
| SaveOutcomes.ContradictionVouchesForNothing | aggregatestore/aggregate_store.go:261-273 | Joined errors that disagree at the same depth mean unknown. |
| AggregateStores.Aggregate.ApplyNext | aggregatestore/aggregate.go:115-136 | Applies the oldest queued event exactly when it is the very next version and the version is not exhausted, and otherwise changes nothing. |
| AggregateStores.Storage.ReadStream | eventstore/event_store.go:19-34 | What an event store owes a read: consecutive recorded events past the boundary, whatever others wrote before, possibly breaking off. |
| AggregateStores.Storage.AppendStream | eventstore/event_store.go:89-110 | What an event store owes an append: a mismatch appends nothing, anything else may have committed, and what is appended follows exactly the expected version. |
| AggregateStores.ReplayStep | aggregatestore/event_sourced_store.go:425-468 | Applying the event at version v+1 to the replay of 1..v is the replay of 1..v+1. |
| AggregateStores.Store.Hydrate | aggregatestore/event_sourced_store.go:119-204 | Through any stack of stores the aggregate remains the replay of its version, success or not; a success on an untruncated stream reaches exactly the target, or the tip when no target lies below it; a failure without any call failing has a reason in the request, in events left over on the aggregate, or in the stream. |
| AggregateStores.Store.HydrateFromSnapshot | aggregatestore/snapshotting_store.go:111-221 | Hydrating over an installed snapshot, or falling back past an unusable one, agrees with plain replay. |
| AggregateStores.Store.Load | aggregatestore/cached_store.go:74-108 | Every loaded aggregate, from events, snapshot or cache, is the replay of its version, a versioned load of an untruncated stream reaches exactly its target, an unversioned one through a cache leaves it there, and a load fails only for a call that failed or a request that cannot be met. |
| AggregateStores.Store.Save | aggregatestore/aggregate_store.go:192-226 | Through any stack of stores what a save appends comes right after exactly the prefix folded into the aggregate; a failure that means appended has its events in the stream, one that means nothing appended added none; saving no aggregate means nothing appended if and only if the outermost store does not cache, and unknown otherwise; snapshots and caches keep agreeing with replay; and a save fails only for a call that failed, nothing it may append, another writer, or events left over. |
| AggregateStores.NilIsUnmarked | aggregatestore/cached_store.go:117-119 | The error a cached save of no aggregate raises means unknown, and not that nothing was appended. |
| AggregateStores.Store.SaveEvents | aggregatestore/event_sourced_store.go:215-354 | The event-sourced save meets that contract, with its guards, lost responses, short reports and apply loop; told to skip applying, it leaves version and state alone and queues exactly what was appended. |
| AggregateStores.Store.SaveAndSnapshot | aggregatestore/snapshotting_store.go:284-349 | The snapshotting save applies whatever the inner save queued, takes snapshots only of replayed states, marks a failed application as appended, and fails to apply only what was left over from before. |
| AggregateStores.Store.ApplyAndSnapshot | aggregatestore/snapshotting_store.go:305-349 | Applies everything queued in step, and keeps the last snapshot the policy asked for unless a write fails. |
| AggregateStores.Store.SaveAndCache | aggregatestore/cached_store.go:116-140 | The cached save caches only a state with nothing left to apply, and does cache it unless the cache fails. |
| AggregateStores.RetriedSave | aggregatestore/event_sourced_store.go:286-300 | A save retried after an error never appends its events twice, even when the first append committed and lost its response. |
| AggregateStores.SaveAfterDiscard | aggregatestore/aggregate.go:68-76 | After a failed save and a discard, the next save appends exactly what was queued since. |
| AggregateStores.TruthfulWrapped | aggregatestore/aggregate_store.go:222-226 | Wrapping an inner save error keeps it truthful about what was appended. |
| Processors.ReadIsPage | projection/processor/processor.go:216-262 | A batch, or the part read before the reader failed, is the log's next events with none left out; a short one that ended by itself reached the head. |
| Processors.OthersKeepSteady | projection/processor/processor.go:216-319 | Publishing and deletion by others disturb neither a run's account of what it delivered nor what is left of its batch. |
| Processors.AdvancedPast | projection/processor/processor.go:281-305 | Handing over and advancing past one event keeps the run gapless and leaves the rest of the batch next. |
| Processors.SavedKeepsSteady | projection/processor/processor.go:395-403 | Saving the position leaves nothing unsaved, and everything at or below it delivered. |
| Processors.Certifies | projection/processor/processor.go:155-172 | With the head handled and its position saved, the caught-up signal certifies both. |
| Processors.Processor.HandleNext | projection/processor/processor.go:281-305 | One event is handed over and the run advances past it unless something other than the handler fails, or the handler does and the option to go on is off; in that case the position stays before the event. |
| Processors.EndedIsHandledOnce | projection/processor/processor.go:281-305 | What earlier runs and this one handled covers everything at or below the saved checkpoint. |
| Processors.Processor.Drain | projection/processor/processor.go:216-319 | However a batch ends, the run stays in order and gapless; at the head everything published when it was read has been handed over, and short of it the batch was full; without the option to go on, everything up to the position was handled; and the batch fails if and only if something other than the handler failed, or the handler did and the option is off. |
| Processors.Processor.Run | projection/processor/processor.go:134-189 | From whatever checkpoint earlier runs left, wherever it stops: every event still in the log at or below the saved checkpoint was handed over, and handled without an error unless the option to go on is set; an event whose error ended the run lies past the saved checkpoint; deliveries are in order without gap or repeat, at most `checkpointEvery` of them will be repeated; a caught-up signal means the read frontier is handled and saved; and the run fails only for a fault or a handler error that counts. |

## Left out

- Encoding and metadata: JSON, content types, metadata maps and reflection are an assumed round trip, failing or not at will; states and events are values, so no aliasing between a decoded state and stored bytes is captured.
- Identifiers: UUIDs are distinct fresh numbers, and the derivation of a stream's UUID from a name (name-based version 5, section 5.5 of RFC 9562) is an injective address; type and event-type names and prefixes are not validated, except projection names.
- Time: contexts, deadlines, timers and poll intervals; a cancellation is a choice at each step, and a timestamp is an opaque value that no property depends on.
- Logging, error texts, functional options, constructor checks and missing collaborators, except the reader and writer a store can lack.
- Collaborators: handlers, teardown functions, retirement witnesses, snapshot policies, caches and checkpoint backends appear through their contracts, as free choices.
- Mutexes and goroutines: every critical section is one step; two calls on one aggregate value at a time are not modelled.
- The handle of `Protocol`: it is a value in a state machine over all handles, not an object updated in place, because the statements are about runs of many handles.
- Over-approximation in `Protocol`: `Begin` and a policy change leave a usable handle even when their append is refused, as a later resume would; a fresh fold may read any prefix; recording an exit and releasing a claim may be arbitrarily far apart. All of these only add runs.
- The deletion of a retired version's checkpoint: part of the teardown, which succeeds when both did.
- The deadline of a claim's release and the waits for a processor to stop: a release may simply never happen.
- Hand-written raw events on lifecycle streams: the poisoning arms and `PoisonIsPermanent` see them; the statements about runs assume that writers go through commands.
- Exactness of the audit stamps: the validation does not constrain the timestamps and catch-up position of an attempt in flight, so `RestStates.ValidateIsExact` is up to them there.
- Position and version overflow of the event store: the counter and stream versions are unbounded; only the cursor arithmetic wraps, and `MemoryStore.EventStore.ReadStream` asks for a tip within 64 bits.
- Events without a global position, and nil events or iterators from a reader: a read that breaks off stands for them.
- Setters within one delivery: a delivery of a cutover to all setters of a worker succeeds or fails as one.
- Deletion of a whole aggregate stream: `AggregateStores` allows truncation at any time but not deletion and re-creation, under which retained snapshots and caches belong to another history.
- The snapshot payload guards (content type, nil state, state validator): one choice, the payload cannot be used.
- Processors.Processor.Run: observes any finite number of drain cycles, since the source's loop has no end of its own; one processor at a time runs for a projection.
- AggregateStores.Storage.ReadSnapshot: any kept snapshot within the bound, not only the newest, so that the stores' properties do not rest on a particular snapshot store.
- The acceptance suites for stores, the checkpoint store, reserved stream names and typed identifiers: contracts or plain maps.
