# StreamLedger: a verified model

StreamLedger is an event-sourced ledger for account balances and stock. Commands read a stream of events, fold it
into a state, decide, and append new events under an optimistic version check; projections replay the log into
materialized views behind a checkpoint. This project models the four parts its safety rests on and proves what they
guarantee together, over every interleaving:

1. the append-only event store, as a class updated in place (`MemoryStore`) and as an atomic transition on a log and a
   dedupe index (`EventLog`), and the table-backed `Append` that checks and writes in one pass and rolls back
   (`PostgresStore`);
2. the command layer: the six decision rules and the folds (`Aggregates`), the seven commands (`Commands`), any number
   of them running concurrently as clients with program counters (`Protocol`), and the same commands as methods with
   their retry loops (`Service`, with `Interference` standing for the other clients);
3. the projector: one delivery as one critical section (`ReadModels`), any sequence of deliveries (`Deliveries`), the
   store, appliers and CatchUp loop as classes (`Projector`), and concurrent CatchUps, live deliveries and a growing
   log all interleaved (`ProjectorRuns`, `Separation`), and deliveries that jump ahead (`Jumps`);
4. Go's int64 arithmetic: every fold and rule takes an `Arith` argument that is either exact or wrapping (`Int64`).

## Main results

- **Serializability** (`Refinement`). The store an interleaved run leaves is the one an atomic ledger leaves that
  executes the committed commands one after the other, with the same answers; a business rejection is the atomic
  ledger's answer at the moment the deciding attempt first loaded.
- **No double spend** (`Solvency`, `WithdrawRace`). Balances and stock never go negative in pin-safe runs; k racing
  withdrawals of a from a balance B end with exactly min(k, B/a) applied, whatever the schedule, also in int64
  arithmetic.
- **The pin trap, exactly** (`ClientInvariant.FreshIffPinNotAhead`, `Witnesses.PinAheadOverdraws`). A successful append
  was decided on current data if and only if its pin, if it has one, is not above the version it loaded; a run with a
  pin one ahead overdraws.
- **Conflicts are paid for** (`Contention`, `Tightness`). ErrVersionConflict in auto mode needs more than maxRetries
  rivals on the command's own streams, and there are runs of ordinary commands in which that many are enough.
- **Idempotence** (`Idempotence`). At most one client per dedupe key is ever applied; a retry whose lookup follows the
  original append is told Duplicate with the original version; one that looked up earlier is told Duplicate if and only
  if the log it then loads would still let it through, and otherwise the refusal that log gives
  (`Witnesses.EarlyRetryIsRejected` is such a run).
- **Conservation** (`Conservation`, `ViewTotals`). The sum of balances is what flowed in minus what flowed out, at every
  point of the log and at every checkpoint of the balances projection, short by exactly one transfer's amount when the
  point falls between its two legs.
- **Views are folds** (`ProjectorRuns`, `Deliveries`). Under in-order live delivery and any number of CatchUps the views
  are the direct folds of the log below the checkpoint, and each relevant event is applied exactly once; under
  arbitrary delivery they are the folds of the record deliveries, and an event jumped over is lost for good.
- **Progress** (`Progress`, `CatchUpRuns`). Every command finishes within a bounded number of its own store calls in
  every interleaving, and from any point of a run one undisturbed CatchUp brings the views up to date.
- **Pins are compare-and-swap** (`Pins`). A command pinned at v lands iff its stream is at v, and then answers v + 1.
- **The jump trap, exactly** (`Jumps`). A delivery that jumps ahead leaves account views right if and only if for every
  account the jumped-over events add up to nothing, and there are none of them unless the delivered event is that
  account's own; likewise for stock and reservations.
- **Overflow** (`Overflow`, `ViewTotals.ViewsDoNotWrap`). From any starting store, if its total and what flows in fit in
  an int64, and each item's stock with what it receives does, the wrapping machine and the exact one go through the
  same states, however many transfers there are.
- **Two Appends, one specification** (`PostgresStore.RunBoth`).

Three hypotheses come back in many statements. `PinSafe`: a pinned client about to append has loaded at least the
version it pins; auto mode, transfers and OpenAccount always satisfy it, and so does any pin that its stream had
reached when the client took its first step, which is what a caller knows who has read the version before calling
(`Solvency.SeenPinsMakeSafeRuns`). `InOrder`: a live delivery is at most one beyond the checkpoint; the
bus does not guarantee this, since commands publish after the store's lock is released. `PrivateKey`: nobody else uses
the client's dedupe key. A schedule is any sequence of client indices, so a theorem about all schedules is one about all
interleavings. `hist`, `since`, `readAt`, `readLastAt` and `applied` only record history; no step depends on them.

The comment at internal/eventstore/eventstore.go:43-46 says that every expected version is checked against the stream
as it was before the batch. Both stores check a running version that counts the earlier items of the same batch; the
model follows the code.

## Model

| member | source | states |
|---|---|---|
| Int64.Wrap | internal/ledger/state.go:40-52 | the int64 that a Go addition or subtraction stores: in range, and a multiple of 2^64 away from the true sum |
| Solvency.AccountRulesAreExact | internal/ledger/decide.go:9-43 | on a well-formed, solvent account the three account rules let a command through iff its event keeps the account well formed and solvent |
| Solvency.ItemRulesAreExact | internal/ledger/decide.go:46-76 | the three inventory rules let a command through iff its event keeps stock and reservations from going negative, and is not an adjustment by nothing |
| Solvency.TransferRulesAreExact | internal/ledger/service.go:299-306 | a transfer goes through iff each of its legs keeps its own account in order |
| Solvency.TransferRefusalsAreExact | internal/ledger/service.go:299-306 | a transfer is refused for the sender's reason first: insufficient funds iff the debit fits the sender's stream but not its balance, not open iff the sender, or after a good debit the receiver, has no opening, a bad amount otherwise |
| Solvency.AccountRefusalsAreExact | internal/ledger/decide.go:9-43 | an account refusal has the right reason: insufficient funds iff the event would have fitted the stream but the balance could not pay for it, the others iff it would not have fitted |
| Solvency.ItemRefusalsAreExact | internal/ledger/decide.go:46-76 | an inventory refusal has the right reason: a shortage iff the event would have fitted but stock or reservations would have gone negative |
| Aggregates.ReplayAccount | internal/ledger/state.go:29-58 | the replay loop computes the recursive fold, in either arithmetic, errors included |
| Aggregates.ReplayInventory | internal/ledger/state.go:61-91 | the replay loop computes the recursive fold, in either arithmetic, errors included |
| Aggregates.FoldAccountSucceedsIff | internal/ledger/state.go:29-58 | an account replays iff every event is one of its own three types and decodes |
| Aggregates.FoldInventorySucceedsIff | internal/ledger/state.go:61-91 | an item replays iff every event is one of its own three types and decodes |
| Aggregates.FoldAccountError | internal/ledger/state.go:35-54 | the first event that is not understood decides the error: decode iff its type is one of the account's own, unknown type otherwise |
| Aggregates.FoldInventoryError | internal/ledger/state.go:67-87 | the same for items |
| Aggregates.FoldAccountFailureSticks | internal/ledger/state.go:33-58 | the first bad event decides the error of the whole replay |
| EventLog.SameVersionSameStream | internal/eventstore/memory/store.go:60-71 | if a stream has the version it had earlier, it is the same stream: versions are evidence |
| EventLog.StreamGrows | internal/eventstore/memory/store.go:73-97 | streams are append-only |
| EventLog.StreamVersionsAreDense | internal/eventstore/memory/store.go:124-135 | a stream's events carry versions 1, 2, ..., n |
| EventLog.StampedVersions | internal/eventstore/memory/store.go:73-97 | the version an item is given is the length its stream has just before it, for batches that repeat streams too |
| EventLog.AppendKeepsValidStore | internal/eventstore/memory/store.go:46-106 | every Append, whatever it answers, keeps: event i has GlobalSeq i and its dense version, each dedupe entry is exactly the contiguous block of events with its key |
| EventLog.BlocksAreDisjoint | internal/eventstore/memory/store.go:99-103 | no event belongs to the cached results of two keys |
| EventLog.AppendTwiceIsOnce | internal/eventstore/memory/store.go:50-56 | an Append that lands under a non-empty key turns every later Append under it, whatever its batch, into a replay of the same events that changes nothing; without a key nothing is ever a replay |
| MemoryStore.MemoryStore.Validate | internal/eventstore/memory/store.go:58-71 | the pending-map pass accepts iff each expected version is waived or equal to the stream version plus the earlier items of its stream |
| MemoryStore.MemoryStore.Write | internal/eventstore/memory/store.go:73-97 | the write pass appends exactly the stamped batch and keeps counter and version map in agreement with the log |
| MemoryStore.MemoryStore.Append | internal/eventstore/memory/store.go:46-106 | answer and whole new state are those of the atomic transition: replay of a known key, conflict without any change, or the batch and its dedupe entry |
| MemoryStore.MemoryStore.LookupDedupe | internal/eventstore/memory/store.go:108-122 | finds exactly the used non-empty keys and returns the cached events |
| MemoryStore.MemoryStore.LoadStream | internal/eventstore/memory/store.go:124-135 | the scan returns the stream, versions 1 to n |
| MemoryStore.MemoryStore.LoadSince | internal/eventstore/memory/store.go:137-151 | the scan with early exit returns the first `limit` events after the number, or all of them for a limit that is not positive |
| MemoryStore.PageIsNextStretch | internal/eventstore/memory/store.go:137-151 | a page is the next stretch of the log; empty only at the end, short only if it is the last |
| MemoryStore.MemoryStore.LatestGlobalSeq | internal/eventstore/memory/store.go:153-157 | the latest number is the number of events |
| PostgresStore.PostgresStore.Append | internal/eventstore/postgres/store.go:142-240 | the one-pass check-and-write over four tables answers and leaves what the abstract Append does, up to gaps in GlobalSeq; the events it answers are the rows it has added, numbers included, a replay answers rows of the table, and a conflict changes no table |
| PostgresStore.PostgresStore.WriteBatch | internal/eventstore/postgres/store.go:169-234 | checking item by item while writing accepts exactly the batches that checking all first accepts |
| PostgresStore.JoinsAgree | internal/eventstore/postgres/store.go:116-138 | the cached events of a key found by joining tables are the ones the dedupe index holds, up to renumbering |
| PostgresStore.CommittedTables | internal/eventstore/postgres/store.go:142-240 | after a commit the four tables stand for the old store with the batch recorded under its key |
| PostgresStore.RenumberingKeepsVersions | internal/eventstore/postgres/store.go:187-213 | gaps in the sequence never show in a stream's version |
| PostgresStore.RunBoth | internal/eventstore/postgres/store.go:142-240 | given any serial sequence of Appends the two stores agree on every answer, on all versions and on the dedupe contents |
| Pins.PinnedIsCompareAndSwap | internal/ledger/service.go:163-176 | a command pinned at version v, and OpenAccount at 0, lands iff its stream is at exactly v, answering v + 1, and otherwise reports a conflict at once |
| Pins.AutoModeRetriesUpToTheLimit | internal/ledger/service.go:163-223 | a command at -1 and a transfer land iff their streams still have the versions they loaded, and load again until they have tried once more than the configured limit, or than 8 |
| Pins.AppliedMeansPinHeld | internal/ledger/service.go:163-176 | in every run a command that pinned v and was applied landed on version v and was told v + 1 |
| Effects.EveryCommandIsAllOrNothing | internal/ledger/service.go:112-480 | an applied command has written exactly its own events, with its own stream, amount, key and answered version, next to each other; any other has written nothing |
| Effects.SameAccountIsRefused | internal/ledger/service.go:277-280 | a transfer between an account and itself is refused as such in every run, even if its key is taken |
| Effects.BadStreamIsReported | internal/ledger/service.go:70-84 | a command whose stream does not replay answers the replay's error and writes nothing |
| Effects.BadReceiverIsReported | internal/ledger/service.go:295-298 | a transfer whose receiver's stream does not replay answers that error |
| Effects.ReplayedVersionIsLast | internal/ledger/service.go:89-97 | a replayed result reports the version of the last cached event of the stream |
| Progress.EveryCommandFinishes | internal/ledger/service.go:182-339 | in every interleaving a client that has made its lookup's and all its attempts' store calls is finished: the retry loop starves nobody |
| Progress.SinceIsTheFirstStep | internal/ledger/service.go:182-339 | the recorded start of a client is the length the log had at its first step |
| ClientInvariant.StepMoves | internal/ledger/service.go:182-224 | every step of a client either leaves the store alone or lands its stamped, admissible batch |
| ClientInvariant.FreshIffPinNotAhead | internal/ledger/service.go:164-176 | when an append succeeds, the state decided on is the current one iff the pin is not above the loaded version; a transfer's receiver is always current |
| ClientInvariant.PlannedAdmissible | internal/ledger/service.go:308-323 | the store admits a decided batch iff the streams still have the versions it expects |
| ClientInvariant.TransferRejectionIsAtFirstLoad | internal/ledger/service.go:290-306 | a transfer refused after two loads at different times would have been refused for the same reason at the first |
| ClientInvariant.AppendMisses | internal/ledger/service.go:208-218 | an append that does not land means a used key or a version that moved, and leads to replay, the next attempt or the final conflict |
| History.RunKeepsInv | internal/ledger/service.go:182-339 | in every state of every run, with any pins: the log is the starting log followed by one block per committed command, in commit order, and each client's knowledge of the log is right |
| Refinement.CommitIsAtomic | internal/ledger/service.go:191-223 | a pin-safe append that succeeds is exactly the atomic ledger's step on the store just before it |
| Refinement.RunIsSerial | internal/ledger/service.go:182-339 | the final store is that of the committed commands executed atomically one by one |
| Refinement.AnswersAreSerial | internal/ledger/service.go:216-222 | each applied command answers what the atomic ledger answers at its turn |
| Refinement.RejectionIsAtomic | internal/ledger/service.go:238-247 | a rejection is the atomic ledger's answer at one moment inside the client's own run, the deciding attempt's first load |
| Alone.UndisturbedIsAtomic | internal/ledger/service.go:182-339 | without rivals every command, pinned or not, answers and leaves exactly what the atomic ledger does |
| Interference.RunIsDrive | internal/ledger/service.go:182-339 | every client of every interleaved run behaves as the retry machine that only sees what others append between its store calls |
| Interference.AnswersAsInTheRun | internal/ledger/service.go:182-339 | a method that answers on what a client saw gives that client's answer |
| Service.DuplicateResult | internal/ledger/service.go:89-97 | walking the cached events finds the version of the last one of the command's stream, 0 if there is none |
| Service.Service.LookupPrior | internal/ledger/service.go:183-189 | a used key answers Duplicate with the cached version at once; otherwise the first attempt begins |
| Service.Service.TryAppend | internal/ledger/service.go:200-222 | one Append of an attempt: applied, replayed, or a conflict that is retried only while attempts are left |
| Service.Service.OneStream | internal/ledger/service.go:182-224 | the loop of Deposit, shared by Withdraw, AdjustInventory, ReserveStock and ReleaseStock, and OpenAccount's single attempt, is the client machine under any interference, in at most 1 + 2 * (maxRetries + 1) store calls |
| Service.Service.Transfer | internal/ledger/service.go:277-339 | the two-load loop is the client machine under any interference, in at most 1 + 3 * (maxRetries + 1) store calls |
| Service.Service.Execute | internal/ledger/service.go:112-480 | every command ends after a bounded number of store calls with the client machine's answer, and undisturbed it is one atomic step |
| Solvency.AccountStreamsAreWellFormed | internal/ledger/service.go:112-144 | with any pins: each account stream is one AccountOpened at version 1, then positive deposits and withdrawals; folding never fails and open means not empty |
| Solvency.BalancesNeverNegative | internal/ledger/service.go:229-271 | in every state of every pin-safe run each balance is >= 0 |
| Solvency.StockNeverNegative | internal/ledger/service.go:346-480 | in every state of every pin-safe run stock and reservations are >= 0 and add up to the adjustments |
| Solvency.StockIsConserved | internal/ledger/state.go:61-91 | for every stream that replays, available plus reserved is the sum of the adjustments |
| Solvency.IntentIsSolvent | internal/ledger/decide.go:32-76 | what the rules let through on a solvent stream keeps it solvent |
| Solvency.SeenPinsMakeSafeRuns | internal/ledger/service.go:164-176 | a run in which every client pinned at most a version its stream had reached by its own first step is pin-safe in every interleaving |
| Solvency.UnpinnedRunsAreSafe | internal/ledger/service.go:164-169 | runs of auto-mode commands, transfers and OpenAccounts are always pin-safe |
| WithdrawRace.ExactlyWhatTheBalancePays | internal/ledger/service.go:229-271 | k racing withdrawals of a from balance B: exactly min(k, B/a) applied, the rest refused as insufficient funds, balance B - a * min(k, B/a) |
| WithdrawRace.RaceEnds | internal/ledger/service.go:238-247 | in such a race a finished command was applied, or found too little money at the moment it looked |
| WithdrawRace.ExactlyWhatTheBalancePaysInInt64 | internal/ledger/service.go:229-271 | the same count and balance on the wrapping int64 machine, if the store fits at the start |
| Contention.ConflictCostsRivals | internal/ledger/service.go:164-169 | ErrVersionConflict in auto mode or from a transfer: more than maxRetries other commands landed on its streams during its run |
| Contention.FewRivalsNoConflict | internal/ledger/service.go:191-223 | with at most maxRetries rival commands nobody is told to retry |
| Contention.UntouchedStream | internal/eventstore/memory/store.go:60-71 | a stream no later block writes to is unchanged |
| Tightness.EnoughRivalsConflict | internal/ledger/service.go:191-223 | for every retry limit there is a run of auto-mode deposits in which one of them has exactly maxRetries + 1 rivals and answers ErrVersionConflict: one rival more than the bound is too many |
| Tightness.RivalsWithinTheLimit | internal/ledger/service.go:57-62 | at most n rivals for a configured limit n > 0, at most 8 without one, never make a command at -1 or a transfer report a conflict |
| Tightness.OneRivalTooMany | internal/ledger/service.go:57-62 | n + 1 rivals, or 9, can: on every open account there is a run of deposits that shows it |
| Idempotence.AtMostOneApplied | internal/eventstore/memory/store.go:50-56 | commands sharing a non-empty key, even with different arguments, append at most one batch and at most one is told Applied |
| Idempotence.RetryGetsOriginalVersion | internal/ledger/service.go:89-97 | a retry that looks up or appends after the original gets Duplicate with the original NewVersion |
| Idempotence.LateRetryOutcome | internal/ledger/service.go:230-247 | once a key is taken, no unfinished client with it is applied or sees a conflict |
| Idempotence.EarlyRetryExactly | internal/ledger/service.go:191-200 | a command on one stream whose key is taken between its lookup and its load is told Duplicate iff the log it loads lets it through, otherwise the refusal that log gives, whatever runs before and after |
| Idempotence.EarlyRetryAfterFirstLoad | internal/ledger/service.go:294-306 | a transfer whose key is taken between its two loads: its second load decides in the same way |
| Idempotence.EarlyTransferRetryExactly | internal/ledger/service.go:290-306 | a transfer whose key is taken before its first load is told Duplicate iff the plan made from its two loads goes through |
| Idempotence.RetryAfterOriginalReplays | internal/ledger/service.go:229-269 | a retry that starts after the original has landed is told Duplicate with its version, whatever runs in between |
| Conservation.TotalIsNet | internal/ledger/state.go:29-58 | the sum of all folded balances is the net of all account events |
| Conservation.MoneyIsConserved | internal/ledger/service.go:308-323 | final total = initial total + opening balances and deposits - withdrawals; transfers contribute nothing |
| Conservation.ConservedAtEveryPoint | internal/ledger/service.go:308-323 | the same at every point of the log, short by exactly the amount of a transfer the point cuts in two |
| Conservation.TransferIsAllOrNothing | internal/ledger/service.go:308-323 | an applied transfer has its two legs adjacent in the log; any other has written nothing: every event since the start was written by another command |
| Overflow.FoldsDoNotWrap | internal/ledger/state.go:40-85 | under the bound no addition of either fold leaves the int64 range |
| Overflow.AdjustWrapsIff | internal/ledger/decide.go:46-54 | wrapping misleads the adjustment rule iff its guarded sum falls below the int64 range, which never happens on stock that is not negative |
| Overflow.WrappingAccountIsModular | internal/ledger/state.go:40-52 | without any bound the Go replay's balance is the one int64 with the same remainder modulo 2^64 as the exact balance |
| Overflow.WrappingInventoryIsModular | internal/ledger/state.go:71-85 | the same for stock and reservations |
| Overflow.WrappingNeverShows | internal/ledger/service.go:182-480 | from any solvent store, if the starting total plus inflow and each item's stock plus receipts fit in an int64, the wrapping and the exact machine go through the same states in every pin-safe run |
| Overflow.WrappingNeverShowsFromEmpty | internal/ledger/state.go:40-85 | from the empty store it is enough that opening balances plus deposits, and each item's positive adjustments, fit |
| Witnesses.PinAheadOverdraws | internal/ledger/service.go:171-176 | for every b > 0 a run with a pin one ahead applies two withdrawals of the same b and ends at balance -b |
| Witnesses.EarlyRetryIsRejected | internal/ledger/service.go:230-247 | a retry that looks its key up before the original lands and loads after it is told insufficient funds |
| Witnesses.OverfullAccountIsRefused | internal/ledger/state.go:40-52 | beyond the bound the Go machine refuses a withdrawal and a transfer that the exact ledger lets through |
| Witnesses.OverfullItemIsMisjudged | internal/ledger/decide.go:46-65 | beyond the bound it refuses a reservation, and its guarded sum wraps once more |
| ReadModels.FailsIffNotAccepted | internal/projections/projector.go:75-100 | a delivery fails iff it is above the checkpoint and undecodable or of an unexpected type; it then changes nothing; otherwise the checkpoint moves to it |
| ReadModels.AccountApplyFollows | internal/projections/account_applier.go:22-55 | one Apply on a view of a folded account gives the view of the next fold |
| ReadModels.ItemApplyFollows | internal/projections/inventory_applier.go:22-57 | one Apply on a view of a folded item gives the view of the next fold |
| ReadModels.FailedDeliveryAnswersFoldError | internal/projections/account_applier.go:29-49 | a delivery that fails answers the error that replaying the event's own stream gives |
| ReadModels.DeliveryFollows | internal/projections/projector.go:75-100 | one delivery extends what the views are the folds of by exactly that event, or by nothing |
| Deliveries.ViewsAreFoldOfRecords | internal/projections/projector.go:75-100 | after any deliveries in any order the views are the folds of what they stood for plus the strict left-to-right maxima above the checkpoint |
| Deliveries.AppliedIffRelevantRecord | internal/projections/projector.go:81-92 | among arbitrary deliveries, one is applied iff it is relevant and a strict left-to-right maximum above the starting checkpoint |
| Deliveries.AppliedNumbersIncrease | internal/projections/projector.go:81-84 | the deliveries that are applied carry strictly increasing numbers: no event is applied twice |
| Deliveries.PassedIsPassedForever | internal/projections/projector.go:81-84 | an event the checkpoint has passed, applied or jumped over, is never applied later |
| Deliveries.NextDeliveryStaysInStep | internal/projections/projector.go:75-100 | a delivery at most one beyond the checkpoint keeps the views equal to the folds of the log below the checkpoint |
| Jumps.HarmlessJump | internal/projections/projector.go:86-94 | jumping over irrelevant events only keeps them equal too |
| Jumps.AccountJumpIsHarmlessIff | internal/projections/projector.go:81-94 | after a jump the account views are the folds of the log below the new checkpoint iff for every account the jumped-over events add up to nothing, and there are none unless the delivered event is its own |
| Jumps.ItemJumpIsHarmlessIff | internal/projections/projector.go:81-94 | the same for stock views: neither stock nor reservations change in what is jumped over, and nothing is jumped over unless the delivered event is the item's own |
| Jumps.JumpLosesTheOpening | internal/projections/projector.go:81-94 | a deposit delivered before the opening leaves a view without the opening balance that no later delivery repairs |
| Separation.MixedIsAlone | internal/projections/projector.go:75-100 | projections of different name and kind on one store: checkpoint, views and answers of each are those of running alone |
| Separation.ForeignDeliveryKeepsSlice | internal/projections/memory/store.go:60-95 | a delivery to one projection leaves the other's checkpoint and views alone |
| ProjectorRuns.ViewsFollowTheLog | internal/projections/projector.go:75-135 | under any interleaving of appends, concurrent CatchUps, redeliveries and in-order live deliveries the views are the folds of the log below the checkpoint and each relevant event was applied exactly once |
| ProjectorRuns.NewProjectionStarts | internal/projections/memory/store.go:84-87 | a new projection, with no views and no checkpoint, is a valid starting point over any log |
| ProjectorRuns.ViewIsTheFold | internal/projections/account_applier.go:22-55 | spelled out: a view exists iff its stream has an event at or below the checkpoint, and shows that stream's fold |
| CatchUpRuns.NextDeliveryAdvances | internal/projections/projector.go:75-100 | an in-order delivery of the next event moves the checkpoint to it, whoever else is at work |
| CatchUpRuns.ThreeStepsAdvance | internal/projections/projector.go:109-135 | a ready CatchUp moves the checkpoint over the next event in three undisturbed steps, whatever its batch size |
| CatchUpRuns.AloneIsCatchUp | internal/projections/projector.go:109-135 | a CatchUp worker of the interleaved runs, left alone on a log that stands still, ends with exactly the result of the CatchUp method |
| CatchUpRuns.OneCatchUpIsEnough | internal/projections/projector.go:102-109 | from any point of any run with in-order deliveries one more undisturbed CatchUp brings the views to the folds of the whole log, or of the log below the first bad event |
| CatchUpRuns.RunGrowsTheLog | internal/eventstore/memory/store.go:73-97 | appends during a run are never lost: the log grows by exactly what was appended |
| Projector.ReadModelStore.SetCheckpoint | internal/projections/memory/store.go:89-95 | checkpoints never move back and other projections' are left alone |
| Projector.ReadModelStore.GetAccount | internal/projections/memory/store.go:60-64 | the stored view, or the zero view when there is none |
| Projector.AccountApplier.Apply | internal/projections/account_applier.go:22-55 | the view is replaced by its next state, or an error and no change |
| Projector.InventoryApplier.Apply | internal/projections/inventory_applier.go:22-57 | the view is replaced by its next state, or an error and no change |
| Projector.Projector.ApplyEvent | internal/projections/projector.go:75-100 | answer and whole new read model are those of the atomic delivery |
| Projector.Projector.CatchUp | internal/projections/projector.go:109-135 | ends for every batch size, zero and negative included, with everything up to the first bad event delivered once in order, the checkpoint just below that event, the relevant ones counted, and an error iff there is such an event; nothing depends on the batch size |
| Projector.CatchUpKeepsInStep | internal/projections/projector.go:109-135 | after a CatchUp the views are the folds of the log up to where it stopped |
| Projector.Projector.Lag | internal/projections/projector.go:139-150 | the distance to the latest number, 0 iff the checkpoint has reached it |
| Projector.Projector.Checkpoint | internal/projections/projector.go:154-156 | the stored checkpoint, 0 if none was ever set |
| ViewTotals.ViewTotalIsLedgerTotal | internal/projections/account_applier.go:22-55 | the views exist for exactly the accounts with events and add up to the ledger's total at the checkpoint |
| ViewTotals.ViewsShowTheConservedTotal | internal/ledger/service.go:308-323 | at any checkpoint over any command run the views show the conserved total, short by exactly a transfer cut in two, never in excess |
| ViewTotals.CatchUpShowsTheLedger | internal/projections/projector.go:109-135 | a CatchUp over the log of any command run succeeds, reaches the latest event and shows the conserved total |
| ViewTotals.ViewsDoNotWrap | internal/projections/account_applier.go:33-46 | under the inflow bound the appliers' wrapping additions give the exact views |

## Left out

- Payload details: account and item ids repeated inside payloads, reasons, order ids and correlation ids are dropped; a payload is a datatype, and bytes that do not decode are the value `Malformed`. Nothing is claimed per order, since releases are not tracked per order.
- Clocks: CreatedAt and UpdatedAt.
- The five looped commands and OpenAccount share one method, `Service.OneStream`, which takes the command as a value; in the source they are separate bodies that differ in the load and the decision only. Transfer has its own.
- A command without a dedupe key makes no lookup; the model gives it a first step that does nothing, so that all commands have the same shape. A transfer between the same account is refused in that step, as in the source before any store call.
- Publishing, the in-memory bus and the NATS bus: they only matter as sources of deliveries, and the projector theorems hold for all delivery sequences, or name the order they need.
- The two EventApplier implementations are chosen by a projection's kind instead of an interface value.
- WithTx: one method call, or one step, is the critical section; the mutex and the context value that marks it are not modelled.
- Context cancellation and store I/O errors: store calls succeed, except for the version conflict and the decode and unknown-event errors.
- Width of versions, global sequence numbers and attempt counters: unbounded; only money and stock arithmetic is modelled with its int64 width.
- PostgresStore: SQL, pools, row locks and real transaction isolation; the model is the serial algorithm over four tables, whose reads and writes see each other. Its LoadStream, LoadSince and the Postgres read-model store are not modelled.
- gRPC, protobuf, flags, signals, HTTP and metrics.
- Jumps.AccountJumpIsHarmlessIff: for logs that commands write, in exact arithmetic; on a log with foreign or undecodable events a jump may also fail or skip a failure.
