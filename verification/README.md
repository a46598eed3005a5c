# TradeJournal MT5 worker: a model of its two ingestion paths

The worker moves the trades of an MT5 account into a journal by two paths: a one-off **history
import**, which reconstructs positions from the account ledger, and a continuous **live stream**, which
replays the terminal's event files and reconciles them with snapshots. This project models both paths,
the handoff between them, the durable outbox they deliver through, and the registry of verified broker
endpoints. What it proves is what the worker exists for: that the two paths give the same deal the same
identity, what is lost at the seam or in a crash and what is not, and what readers can see of a write that is
not finished.

Check the whole project with `dafny verify dfyconfig.toml`.

## How it is organised

| file | what it models |
|---|---|
| `Prelude.dfy` | option and result types, finite sums |
| `Ledger.dfy` | effect of a ledger row, the backward balance walk, attribution of commissions |
| `PositionMachine.dfy` | the volume and average-price machine of one position and its verdict |
| `Projection.dfy`, `Lifecycle.dfy` | the rows the importer publishes, the loops that compute them, and what the rows of a position look like together |
| `Events.dfy` | raw events and their identity |
| `SnapshotDiff.dfy` | detection of events by comparing two snapshots |
| `LiveStream.dfy` | replay of a batch of event files and the merge with the snapshot diff |
| `Agreement.dfy` | history and live give every deal the same event; where polls cut the stream does not matter |
| `Outbox.dfy` | the FIFO outbox and its causal order |
| `LivePoll.dfy`, `LiveSync.dfy` | one live poll as steps over durable files, with a crash possible between any two; `poll_once` as a path through those steps |
| `Delivery.dfy` | what a consumer of the deliveries knows after a poll, and what the dedup table keeps from it |
| `Handoff.dfy`, `Seam.dfy` | the write-ahead protocol from history to live, and what holds where the two meet |
| `Registry.dfy`, `RegistryRuns.dfy`, `RegistryWitnesses.dfy` | endpoint records, resolving, publishing, invalidating, the registry over whole runs with crashes between writes, and concrete publications that fail |
| `HistoryWindows.dfy`, `HistoryArchive.dfy` | the windowed import loop with its checkpoint, and the grouping of events into a document |

The source changes state step by step, so the loops are methods with invariants and the stores are
classes. Each method is tied to a specification function, and the theorems are about those functions.
The two crash-prone protocols, the live poll and the handoff, are state machines whose steps are single
durable writes. Their classes (`LiveSync`, `Connection`) carry the run they have made so far and are
proved to be runs of the machine, so every theorem about runs holds of the methods, and of a crash at any
point inside them.

## Assumptions

- Amounts, volumes and prices are exact reals. The tolerance 1e-8 is the same constant on both paths.
- SHA-256 is injective: an event's digest is its identity fields, a document's digest is the document.
- A native ticket has one representation on both paths, and the terminal numbers event files in strictly
  increasing order (mt5/experts/TradeJournalBridge.mq5:718-726).
- Each single file replacement and each insertion in the dedup table is atomic, and one job or one poll
  at a time works on a connection.
- `Seam.LedgerCoversAnchor`: a deal whose event is not beyond the handoff's anchor is already in the
  frozen ledger. It is an explicit hypothesis of the seam theorems, as it is a promise of the terminal.
- `Seam.MarksLedger`: the document of a bundle is projected from one ledger whose rows carry distinct
  tickets. `Seam.Frozen`, that this ledger has every deal which the bundle's snapshot shows, is a hypothesis
  only where it is needed, and `Seam.LosesOnlyUnimportableIffFrozen` shows that it is exactly what is needed.
- `RegistryRuns.Sane` and `FoldKeepsPadding`: stripping takes characters away and is done once, and case
  folding leaves blanks at the ends of a name where they are.
- Sorting of tickets in the detector is replaced by any enumeration of them.

## Findings

These are places where a stronger property is false of the code. Each has a concrete input or run, and
where the code has a guard to name, the exact condition.

- **Ids across a crash.** A comment in `poll_once` says that a crash regenerates stable ids
  (windows_agent/worker/live_sync.py:560-561). A fill is named again by its own id exactly when the
  checkpoint has not passed it (`LiveWorker.RetryNamesFillIffUnread`). Between the acknowledgement and the
  saved snapshot it has passed. `LiveWorker.CrashAfterAcknowledgeRepeatsOpening` is a run with a crash
  there, after which the same opening is held under two ids. The event itself is never lost.
- **A history job can block itself.** A crash after staging, another job's bundle, and a crash right after
  capturing anew leave a stage that disagrees with the pending bundle, since a document carries the time
  at which it was built; from then on every retry of the job is refused
  (`Handoff.StaleStageBlocksEveryRetry`). `Handoff.RetryGoesAheadIff` says exactly when a committed job can
  go on.
- **A late anchor.** An archived job whose bundle is pending can still be activated exactly when its anchor
  is not behind the event checkpoint (`Handoff.ActivatesIffAnchorNotLate`). When live polls have gone past
  it, a retry replaces the current live snapshot by the old baseline before it fails, and every later retry
  fails too (`Handoff.LateAnchorReplacesSnapshot`).
- **Publications that are undone.** A publication that passes every check of the publisher resolves, and is
  not undone, exactly when its label is one that readers accept and the label holds no active record whose
  server name matches only after stripping (`RegistryRuns.PublicationResolvesIff`). Readers refuse a label
  without letter or digit, and a label that reads like a secret-bearing field, for every query
  (`RegistryRuns.RefusedLabelBlocksRegistry`); the publisher asks neither of a promotion, and compares names
  as stored. `RegistryWitnesses.EachReasonHasAnInput` has one publication for each of the three reasons. A
  process that dies before it has undone one with a refused label leaves a registry that cannot be loaded
  any more (`RegistryWitnesses.RefusedLabelBlocksPublication`).
- **An undone publication is seen.** Publications that resolve are atomic to readers. During one that is
  undone, between the registry write and its undoing, the answer disappears for exactly the queries that
  `RegistryRuns.UndoneReadersLoseExactly` names; at every other point readers get the answer from before.
  `RegistryWitnesses.UndonePublicationBlinksOut` is a query that resolves, does not, and does again.
- **Numeric entry codes.** History accepts the codes 0 to 3, live only names. The deals of a safe position
  get one id each on both paths exactly when every entry is a name
  (`Agreement.IdsAgreeIffEntriesAreNames`); one that is not is in `Agreement.NumericOpeningHasTwoIds`.
- **Archived is not imported.** Every deal that the frozen snapshot shows is archived, so live skips it, but
  only rows that can be imported are in the document. A deal reaches neither path exactly when the snapshot
  shows it and the document's ledger does not have it, or has it in a row without symbol or with an unknown
  entry, of a position that cannot be reconstructed, or not asked for (`Seam.NeitherPathIff`). An exit whose
  opening lies before the ledger is one (`Seam.ExitAloneReachesNeitherPath`).
- **Which bundles lose deals that could be imported.** Exactly those whose snapshot shows a deal that the
  document's ledger does not have (`Seam.LosesOnlyUnimportableIffFrozen`); a run with one is
  `Seam.UnfrozenBundleLosesDeal`. A snapshot that shows fewer deals does no harm.
- **Repeated transitions.** An id carries no occurrence, so the dedup table keeps back the second of two equal
  transitions: of a batch exactly the ids never recorded are queued (`Delivery.QueuedIffNotRecorded`), and a
  stop loss moved to a price for the second time is not reported (`Delivery.StopLossMovedAgainIsSilent`). It is
  only just that move which is kept back (`Delivery.NewMoveIsQueued`).
- **Unsized entries.** A reduction that a deal closes is told once, unless the batch also has an entry deal of
  the position without a volume of its own, which is read from the snapshots and tells it again
  (`LiveStream.ReductionsCountedOnce`, `LiveStream.UnsizedEntryRepeatsReduction`).
- **New-only history without a checkpoint** starts at its own present, covers nothing and writes no
  checkpoint, so repeating it never imports anything (`HistoryWindows.NewOnlyRunsTile`).

## Model

| member | source | states |
|---|---|---|
| Ledger.WalkBackwards | windows_agent/worker/history_balance.py:95-124 | a row gets a balance-before if and only if the anchor is usable and it and every later row have known effects; that value plus all effects from the row on is the anchor balance; otherwise the reason given is the right one |
| Ledger.BalanceKnownIff | windows_agent/worker/history_balance.py:68-124 | the balance before a row is known iff balance and credit of the anchor are there and coherent, and every row from there on is of types 0 to 12 or 15 to 17 and has profit, commission, swap and fee |
| Ledger.BalancesChainForward | windows_agent/worker/history_balance.py:68-124 | read forwards, each known balance plus its row's profit, commission, swap and fee is the next known balance; a credit row leaves it alone |
| Ledger.AccumulateOwnCosts | windows_agent/worker/history_balance.py:126-142 | one pass books on each position exactly the commission and fee of its complete rows, and marks it complete iff all its rows are |
| Ledger.FindTarget | windows_agent/worker/history_balance.py:162-171 | a separate commission goes to the position it names, else to the only position under its order, else nowhere |
| Ledger.ChargedIff | windows_agent/worker/history_balance.py:144-173 | which position pays a separate commission, and how much: the sum of the row's four amounts, if not zero, to the position it names if that one trades, else to the only one that trades under its order |
| Ledger.AccumulateCosts | windows_agent/worker/history_balance.py:151-177 | the second pass adds every attributed commission once, and a total is publishable iff all rows of the position are complete and no commission anywhere is unresolved |
| Ledger.CostsConserved | windows_agent/worker/history_balance.py:126-177 | summed over all positions, the accumulated costs are the own costs of complete rows plus every attributed commission: none lost, none counted twice |
| PositionMachine.SafePrefix | windows_agent/worker/history_balance.py:233-271 | a position that ends safe was safe at every prefix |
| PositionMachine.VolumeConserved | windows_agent/worker/history_balance.py:227-271 | at every prefix of a safe position, opened minus exited volume is the running volume, and within 0.00000001 of zero once closed |
| PositionMachine.SafeIff | windows_agent/worker/history_balance.py:183-274 | a position can be projected iff its rows are complete (an opening, tickets, no reversal, volumes, prices and amounts, one direction) and every deal fits the two sums: nothing after an exit that took the rest within 1e-8, and no exit of more than 1e-8 beyond what is left or from less than that |
| PositionMachine.ClosesIffNothingLeft | windows_agent/worker/history_balance.py:250-271 | an exit of a safe position closes the machine iff openings and exits up to it cancel within 1e-8 |
| PositionMachine.AverageBetweenOpenings | windows_agent/worker/history_balance.py:242-249 | the average price stays within any bounds that hold of the opening prices so far |
| PositionMachine.PartialExitKeepsAverage | windows_agent/worker/history_balance.py:267-271 | an exit that leaves volume open leaves more than 1e-8 and leaves the average price as it was |
| Projection.Precheck | windows_agent/worker/history_balance.py:184-225 | the loop finds the first failing check in the source's order, and the first opening |
| Projection.Step | windows_agent/worker/history_balance.py:234-271 | the branches for one deal on the loop's own variables compute one step of the position machine, the published opening state and the exit type |
| Projection.RunMachine | windows_agent/worker/history_balance.py:230-274 | the loop over one position's deals computes the machine's verdict, every opening state it accepted and the type of every exit, dropped when the position is unsafe |
| Projection.IndexPositions | windows_agent/worker/history_balance.py:138-142 | the index lists of all positions are exactly their rows, ascending |
| Projection.ReconstructTradeDeals | windows_agent/worker/history_balance.py:82-337 | the whole importer publishes, in ledger order, exactly the rows the specification describes |
| Lifecycle.ProjectedPositionsFollowLifecycle | windows_agent/worker/history_balance.py:179-336 | once one row of a fully named position is projected as a trade, its events are one opening, then scale-ins and partial exits, then at most one close and nothing after |
| Lifecycle.CloseIffNothingLeft | windows_agent/worker/history_balance.py:257-271 | an exit of a safe position is published as the close iff openings and exits up to it cancel within 1e-8, else as a partial close |
| Lifecycle.TotalsPublishedOnce | windows_agent/worker/history_balance.py:329-335 | a position's total cost is on at most one row and is its accumulated cost; one unresolved commission suppresses all totals |
| Lifecycle.PublishedBalanceIsExact | windows_agent/worker/history_balance.py:296-315 | a row publishes an opening balance iff it is a safe position's first opening with a known ledger from there on, and the balance is the positive one that leads to the anchor |
| Events.SameIdIff | worker/event_normalizer.py:32-149 | two events have one id iff account, type and ticket agree and either both carry the same deal ticket or neither is told by one and they agree on the fields listed for their type |
| SnapshotDiff.DetectWindowsEvents | windows_agent/worker/live_sync.py:448-471 | the scans over the tickets, in the detector's order, produce exactly the specified events |
| SnapshotDiff.DetectedMember | worker/event_detector.py:32-176 | an event is detected iff some scan reports it for the ticket it carries |
| SnapshotDiff.DetectedIff | worker/event_detector.py:24-163 | exactly which events are detected, with all their fields: of positions that are new, changed in a stop or in volume (a partial close iff the volume went down) or gone, of orders that are new, changed or gone and not a position, and of new deals |
| SnapshotDiff.ClosingDealIsFirst | worker/event_detector.py:76-80 | a closed position takes price, costs and time from the first listed deal that is booked on it, if there is one |
| SnapshotDiff.DiffThenPatch | worker/event_detector.py:32-176 | applying the detected events to the previous view of any ticket gives the current one, up to an order that became a position |
| SnapshotDiff.QuietIffUnchanged | worker/event_detector.py:166-176 | no event is detected iff nothing a consumer can see has changed and no deal is new |
| LiveStream.Follow | windows_agent/worker/live_sync.py:321-399 | the bookkeeping for one fill updates tracked volumes and prices and shows the event the position just before and just after it |
| LiveStream.ReplayBatch | windows_agent/worker/live_sync.py:298-400 | the loop gives one event per record that is not archived, in order, each read against what the replay tracks at that point |
| LiveStream.EntryIsOpeningIff | windows_agent/worker/live_sync.py:168-194 | an entry deal with position and volume opens the position iff it is not tracked, else tells the volumes before and after it; any other entry deal is read from the two snapshots |
| LiveStream.ExitIsCloseIff | windows_agent/worker/live_sync.py:195-216 | an exit deal reads as a close iff it leaves at most 0.00000001 of a tracked position, or of an untracked one iff the snapshot no longer has it; else as a partial close; it carries its own ticket, volume and price |
| LiveStream.RecordedIff | windows_agent/worker/live_sync.py:217-289 | a record is told as an accounting note iff it is a deal with an unnamed entry, a note of a position that is gone, or of an unknown kind |
| LiveStream.StreamVolumeChange | windows_agent/worker/live_sync.py:168-241 | a volume change in the stream is a note of an open position, flagged as partial close iff the volume went down, or an entry deal, never flagged and never a reduction if it has a position and a volume |
| LiveStream.NoteTellsTheDiff | windows_agent/worker/live_sync.py:227-258 | a position note tells, under the same id, what comparing the snapshots tells of the position |
| LiveStream.OrderNoteTellsTheDiff | windows_agent/worker/live_sync.py:259-281 | an order note tells what comparing the snapshots tells of the order, without the values before a change and the stops of a cancelled one; new and cancelled orders have one id in both |
| LiveStream.MergeEventStream | windows_agent/worker/live_sync.py:292-445 | replay, drop the echoes, add what only the snapshots show |
| LiveStream.MergeMembers | windows_agent/worker/live_sync.py:402-445 | a stream event survives iff it does not echo a close; a diff event survives iff the stream does not cover it |
| LiveStream.ReductionsCountedOnce | windows_agent/worker/live_sync.py:402-438 | no ticket has both a close, whole or partial, and a volume change from a larger to a smaller volume, except one told by an entry deal without position or volume; reconciliation repeats no (type, ticket) pair of the stream |
| LiveStream.UnsizedEntryRepeatsReduction | windows_agent/worker/live_sync.py:168-186 | that exception has an input: an entry deal without volume beside an exit of one half |
| LiveStream.DroppedOnlyWhenCovered | windows_agent/worker/live_sync.py:406-444 | every event of stream or diff that the merge drops is a diff event of a type and ticket that the stream has, a volume change downwards beside a close of its ticket in the stream, or a deal whose record is in the batch |
| LiveStream.DealSurvivesMerge | windows_agent/worker/live_sync.py:140-226 | every deal record that history does not hold yields an event under its deal id, else its ticket, for its position, else its order |
| LiveStream.NativeEventsComeFromLiveDeals | windows_agent/worker/live_sync.py:311-317 | every native ticket in the merged batch comes from a deal record that is not archived |
| Agreement.ReplayFollowsMachine | windows_agent/worker/live_sync.py:311-399 | from wherever live takes up a safe position, at corresponding places of ledger and stream it tracks exactly the volume and average price of the history machine, whatever other rows and records lie between its deals |
| Agreement.ImportedFromSums | windows_agent/real_handlers.py:1731-1816 | what the import says of each deal of a safe position, from the rows and the two sums alone: the first opening opens, a later one tells the volumes left before and after it, an exit tells its own volume and closes iff openings and exits cancel within 1e-8 |
| Agreement.HistoryAndLiveAgree | windows_agent/real_handlers.py:1739-1816 | for every deal of a safe position from the row where live takes it up, open or not, the live event and the imported event agree on type, ticket, deal, volumes and prices, and have the same event id |
| Agreement.SameIdsOnBothPaths | worker/event_normalizer.py:126-149 | the deal ids of a position in the merged live batch are exactly the ids the history import sends for its rows from there on, order and position notes of the same number included in the batch |
| Agreement.NumericEntriesDisagree | windows_agent/worker/history_balance.py:327-328 | a deal whose entry is a numeric code gets different ids on the two paths |
| Agreement.IdsAgreeIffEntriesAreNames | windows_agent/worker/live_sync.py:168-226 | all deals of a safe position get one id on both paths iff every entry is given by its name |
| Agreement.NumericOpeningHasTwoIds | windows_agent/worker/live_sync.py:168-226 | one opening given by code 0 that gets two ids |
| Agreement.PollCutsDoNotMatter | windows_agent/worker/live_sync.py:298-400 | cutting a stream into polls anywhere, with snapshots that have caught up, gives the same deal events in the same order as one poll |
| Agreement.PollsSendTheHistory | windows_agent/worker/live_sync.py:292-445 | over any caught-up polls, what live says about the deals of a safe position, one open at the start included, is event by event and in order what the import of the whole ledger sends for them |
| Agreement.LateImportRepeatsIds | worker/event_normalizer.py:135-149 | an import that comes after live has delivered sends those deals only under ids that the polls have already sent |
| Agreement.LongerLedgerSameEvent | windows_agent/worker/history_balance.py:227-336 | an import from a longer ledger sends every row of a safe position that it shares with an earlier one as the same event, whatever the anchors |
| Agreement.PrefixIsSafe | windows_agent/worker/history_balance.py:183-274 | a safe position is safe in every shorter ledger that has an opening of it |
| Outbox.EventOutbox.EnqueueMany | worker/event_outbox.py:118-139 | one replacement appends, in order, the payloads whose id is neither queued, dead-lettered nor earlier in the batch |
| Outbox.EventOutbox.Drain | worker/event_outbox.py:141-206 | the loop sends in order, stores each delivery, and stops at the first outcome that is not one |
| Outbox.DrainStopsAtFirstFailure | worker/event_outbox.py:141-206 | a drain delivers up to the first outcome that is not a delivery; that payload is handed over too, becomes the dead letter if it was rejected for good, and stays first in the queue otherwise |
| Outbox.EveryRunIsCausal | worker/event_outbox.py:118-206 | over any run from empty, accepted = delivered ++ dead ++ pending with at most one dead letter, and the sends walk that order without skipping, repeating only in place, and never past a dead letter |
| Outbox.SendsAreTheLog | worker/event_outbox.py:155-206 | the recorded sends are exactly the payloads the loop hands to the sender |
| LivePoll.StepKeepsInv | windows_agent/worker/live_sync.py:513-570 | every durable step of a poll, a crash included, keeps the invariant and never moves the checkpoint back |
| LivePoll.NoCrashLosesAnEvent | windows_agent/worker/live_sync.py:558-570 | in every run, each id computed for a batch that checkpoint or snapshot has passed is delivered, pending or dead-lettered, and the dedup table holds only delivered ids |
| LivePoll.NoCrashLosesADeal | windows_agent/worker/mql5_file_adapter.py:430-510 | in every run, each unarchived fill that the checkpoint has passed is delivered, pending or dead-lettered under an id of its own deal ticket |
| LivePoll.BatchAvoidsArchive | windows_agent/worker/mql5_file_adapter.py:455-462 | no id of a batch names a deal of the archive |
| LivePoll.ArchivedDealsStayOut | windows_agent/worker/live_sync.py:311-317 | over any run, no archived deal enters the outbox or is delivered under its ticket, beyond what had been delivered or queued before |
| LiveWorker.LiveSync.DrainOutbox | windows_agent/worker/live_sync.py:498-511 | draining ends with an empty outbox or ends the poll, touches nothing else, and an accepting server always empties it |
| LiveWorker.LiveSync.PollOnce | windows_agent/worker/live_sync.py:513-570 | a poll is a run of the steps; a dead letter stops it before it reads; when it completes, outbox, snapshot, checkpoint and dedup table are exactly the specified ones and the whole batch is recorded; an accepting server lets it complete |
| LiveWorker.RetryRegeneratesDeals | windows_agent/worker/live_sync.py:560-562 | a poll repeated before the acknowledgement regenerates the same deal events in the same order and goes on with the later records |
| LiveWorker.RetryNamesFillIffUnread | windows_agent/worker/live_sync.py:560-567 | a fill's own id is computed again iff the checkpoint has not passed it |
| LiveWorker.CrashAfterAcknowledgeRepeatsOpening | windows_agent/worker/live_sync.py:513-570 | a run with a crash between acknowledgement and saved snapshot, after which one opening is delivered or queued under two ids |
| Delivery.QueuedIffNotRecorded | windows_agent/worker/live_sync.py:553-557 | of a batch exactly the ids that were never recorded as delivered are queued |
| Delivery.QueuedIffUntold | windows_agent/worker/live_sync.py:553-557 | an event of a batch is queued iff no event recorded before repeats it: same type, ticket and deal ticket, or the same fields of its type |
| Delivery.NewMoveIsQueued | worker/event_normalizer.py:36-41 | a moved stop loss or take profit is queued with the values before and after it, unless just this move of just this position was recorded before |
| Delivery.StopLossMovedOnIsQueued | worker/event_normalizer.py:36-41 | one input for it: a stop loss moved to 2 and then to 3 is queued the second time too |
| Delivery.RepeatedTransitionIsSilent | windows_agent/worker/live_sync.py:553-569 | after completed polls there and back, the same transition queues nothing |
| Delivery.StopLossMovedAgainIsSilent | worker/event_normalizer.py:36-41 | a stop loss moved to the same price for the second time is an event and is not queued |
| Delivery.FreshPollReachesView | windows_agent/worker/live_sync.py:526-561 | when no event of a poll without event files repeats one recorded before, the queued events take a consumer from the previous snapshot to the current one, up to an order that became a position |
| Handoff.StepKeepsInv | windows_agent/real_handlers.py:2152-2265 | every durable step of the handoff, crash, retry and other jobs included, keeps the invariant that binds stage, archive, bundle and marker |
| Handoff.OneJobOneDocument | windows_agent/real_handlers.py:2297-2384 | all uploads for one job carry the same document, build time included, each made while the bundle binding it was on disk |
| Handoff.ActivatedJobsTouchNothing | windows_agent/real_handlers.py:2437-2461 | the event checkpoint never moves back, and apart from live polls only a job that was never activated changes it or the live snapshot |
| Handoff.MarkerMeansActivated | windows_agent/real_handlers.py:2458-2473 | when the marker is written, checkpoint and live snapshot are those of the marked bundle, whose imported deals are the document's and are all archived |
| Handoff.SavesBaselineIff | windows_agent/real_handlers.py:2400-2458 | activation starts iff the bundle imports only archived deals, its baseline holds none, its own archive is there unchanged and its job has no marker yet; else nothing is touched |
| Handoff.ActivationRestoresCapture | windows_agent/real_handlers.py:2437-2474 | at the marker, checkpoint and live snapshot are the sequence, positions and orders captured at the start of a job of the run, and the marker archives the deals its snapshot showed |
| Handoff.FirstComparisonIsQuiet | windows_agent/real_handlers.py:2381-2382 | comparing what live then goes on from with the account as captured gives no position and no order event, and one accounting note for each deal that the snapshot showed |
| Handoff.RetryGoesAheadIff | windows_agent/real_handlers.py:2167-2263 | a committed job's retry goes ahead iff it has the committed document's scope, its bundle is still pending and no stale stage disagrees; it recaptures nothing and carries the committed document |
| Handoff.NewJobGoesAheadIff | windows_agent/real_handlers.py:2337-2366 | a job without a committed document goes ahead iff every captured event carries the ticket of a deal in the snapshot and the import counted as many; then its document has the captured events and time, else nothing is written |
| Handoff.StaleStageBlocksEveryRetry | windows_agent/real_handlers.py:2225-2240 | a run after which every retry of a job is refused, even if both captures had the same events |
| Handoff.ActivatesIffAnchorNotLate | windows_agent/worker/mql5_file_adapter.py:495-504 | an archived job whose bundle is pending can still be activated by some run iff its anchor is not behind the event checkpoint |
| Handoff.LateAnchorReplacesSnapshot | windows_agent/real_handlers.py:2458-2461 | a run in which a retry replaces the live snapshot by the old baseline and fails, as every later retry does |
| Handoff.PendingWasCaptured | windows_agent/real_handlers.py:2354-2384 | the bundle a run leaves pending is what one of its jobs captured: events, time and scope in the document, the captured sequence as anchor, the captured positions and orders as baseline, and exactly the shown deals archived |
| Handoff.Connection.RunHistorySync | windows_agent/real_handlers.py:1832-2072 | a job is refused at its entry, or uploads once the document its archive holds; it succeeds iff the server acknowledges every event |
| Handoff.Connection.PrepareHandoff | windows_agent/real_handlers.py:2387-2474 | the state after activation in every case: nothing touched when already active or in conflict, otherwise baseline, checkpoint and marker; the checks of bundle and archive never fail after an accepted delivery |
| Seam.HandoffPartitionsDeals | windows_agent/real_handlers.py:2387-2474 | at activation every native deal is archived or still ahead of live, never both and never neither |
| Seam.ArchivedDealIsNeverReplayed | windows_agent/worker/mql5_file_adapter.py:455-462 | no id of an archived deal is computed by any later poll |
| Seam.EveryFillOnOneSide | windows_agent/worker/mql5_file_adapter.py:441-510 | over any live run after the handoff, a fill the checkpoint has passed is archived and gets no further live id, or a live id that names it is delivered, pending or dead-lettered |
| Seam.EveryFillOnExactlyOneSide | windows_agent/worker/mql5_file_adapter.py:441-510 | after a first import, such a fill is archived iff no live id names it |
| Seam.SendsIffImportable | windows_agent/real_handlers.py:1875-1896 | the importer sends exactly the trade rows with a symbol and a known entry of positions that can be reconstructed and that the job asks for |
| Seam.NeitherPathIff | windows_agent/real_handlers.py:1875-1896 | whatever the bundle, a deal is neither imported nor read by live iff the snapshot shows it and the document's ledger does not have it or has it in a row that cannot be imported |
| Seam.LosesOnlyUnimportableIffFrozen | windows_agent/real_handlers.py:2348-2358 | a handoff loses, in any stream, only deals that cannot be imported iff its ledger has every deal that its snapshot shows |
| Seam.EveryFillReachesTheServerIff | windows_agent/real_handlers.py:2342-2384 | over any live run after a first import with such a bundle, a passed fill is imported or live holds its id, unless the snapshot shows it and its ledger row cannot be imported |
| Seam.ImportThenLiveTellHistory | windows_agent/real_handlers.py:2368-2384 | for a position opened before the handoff, what the document says followed by what live says from the baseline is event by event and in order what an import of the whole ledger would say |
| Seam.OpenPositionIsToldOnce | windows_agent/real_handlers.py:2458-2461 | one input for it: a position opened in the imported ledger and closed by live after a run of the handoff |
| Seam.ExitAloneReachesNeitherPath | windows_agent/worker/history_balance.py:189-191 | a run with a frozen bundle after which an exit without its opening is on neither path |
| Seam.MarkedBundleWasCaptured | windows_agent/real_handlers.py:2461-2473 | the marker of an activated job is that of a bundle captured in the run |
| Seam.UnfrozenBundleLosesDeal | windows_agent/real_handlers.py:2342-2358 | a run that activates a document from an empty cached ledger with a snapshot that shows an opening, which then is on neither path |
| Registry.Resolve | windows_agent/broker_endpoint_resolver.py:384-426 | whatever is returned has a manifest entry and an artifact with its own digest |
| Registry.AnswerIsSoleVerified | windows_agent/broker_endpoint_resolver.py:335-426 | an answer is a verified record for that server under a fitting label, with port, process and times in range and its manifest entry and artifact in place, and no other verified record fits |
| Registry.ResolvesTo | windows_agent/broker_endpoint_resolver.py:344-426 | in a registry that can be read, with no label refused, when one active record fits the query it is the answer iff its manifest entry and artifact are intact |
| Registry.Publisher.SupersedeRecords | windows_agent/broker_endpoint_registry.py:770-784 | the loop supersedes exactly the active records of the promoted server |
| Registry.Publisher.Publish | windows_agent/broker_endpoint_registry.py:618-894 | it writes iff registry and promotion are admissible and both evidence files are the promoted ones and say field by field what the promotion says; between the writes the disk is what the specification says; on failure to resolve everything is undone |
| Registry.Publisher.Invalidate | windows_agent/broker_endpoint_registry.py:896-1007 | it ends exactly the one record it names, and leaves everything alone iff there is no such single record that reads back |
| Registry.MayInvalidateIff | windows_agent/broker_endpoint_registry.py:906-995 | an invalidation takes effect iff it gives one of five reasons against the endpoint and a time not before it was observed, its label is known once, exactly one verified record has the named server, host, port, session and digest, and no other such record was ended by the same event |
| Registry.EndsTheNamedRecord | windows_agent/broker_endpoint_registry.py:959-963 | it then ends just that record, with its own time, reason and event |
| RegistryRuns.MayPublishIff | windows_agent/broker_endpoint_registry.py:619-835 | a publication is admissible iff both evidence files have the promoted digests, the artifact tells of a verified read-only login what the promotion tells, texts and numbers are in range, everything bound by the manifest is there, and the two artifacts are new or the same |
| RegistryRuns.ReadersSeeBefore | windows_agent/broker_endpoint_registry.py:833-894 | at every point but between the registry write and its undoing, every query is answered as before |
| RegistryRuns.ReadersSeeBeforeOrAfter | windows_agent/broker_endpoint_registry.py:833-852 | at every point of a publication that is not undone, every query is answered as before up to the registry write and as after from there |
| RegistryRuns.UndoneReadersLoseExactly | windows_agent/broker_endpoint_registry.py:853-894 | for a publication that is undone, which queries lose their answer between the registry write and its undoing, and that all others keep it |
| RegistryRuns.DuringKeepsInv | windows_agent/broker_endpoint_registry.py:835-885 | a publication may die after any of its writes, undoing ones included, and the registry invariant holds iff it is not a refused label's record that has just been written |
| RegistryRuns.RefusedLabelBlocksRegistry | windows_agent/broker_endpoint_resolver.py:122-130 | no query is answered from, and nothing loads, a registry that holds a refused label |
| RegistryRuns.RegistryOverRuns | windows_agent/broker_endpoint_registry.py:758-814 | over any run of publications, publications that die between two writes, and invalidations: at most one active record per broker and case-folded server, no record removed, statuses only move from VERIFIED to SUPERSEDED or INVALID, and only records ended for want of provenance lack a server or process |
| RegistryRuns.ResolvesIffActive | windows_agent/broker_endpoint_resolver.py:384-403 | a labelled query returns an endpoint iff it is the active one it asks for |
| RegistryRuns.LastPublishedUntilDisplaced | windows_agent/broker_endpoint_registry.py:785-814 | after a publication, resolving returns host, port, server, session, process and time as the verification artifact states them, with that artifact's path and digest, until the record is replaced or invalidated |
| RegistryRuns.PublicationResolvesIff | windows_agent/broker_endpoint_registry.py:619-814 | an admissible publication resolves iff its label is not refused by readers and no active record of the label matches only after stripping, and then to what the verification artifact states |
| RegistryWitnesses.EachReasonHasAnInput | windows_agent/broker_endpoint_resolver.py:335-402 | admissible publications that do not resolve: under a label without letters, under one that mentions a secret word, and beside a padded name |
| RegistryWitnesses.RefusedLabelBlocksPublication | windows_agent/broker_endpoint_registry.py:503-516 | a first publication under a refused label passes every check, does not resolve, and if it dies before it is undone leaves a registry that does not load |
| RegistryWitnesses.UndonePublicationBlinksOut | windows_agent/broker_endpoint_registry.py:842-862 | a query that resolves before an undone publication, not in its middle, and again afterwards |
| HistoryWindows.WindowsMeet | windows_agent/worker/history_sync.py:50-54 | two windows that meet hold together what the whole window holds, each record once |
| HistoryWindows.WithinCounts | windows_agent/worker/history_sync.py:50-54 | a window [start, end) has each record at start <= time < end as often as the terminal has it, and no other |
| HistoryWindows.WindowLength | windows_agent/worker/history_sync.py:44-49 | a window goes forward, not past the present, and covers the days asked for, at least 1 and at most 31, or all at once from an immutable history |
| HistoryWindows.SweptCovers | windows_agent/worker/history_sync.py:44-90 | the windows tile the span: whatever the chunk size, every record of it is handed over exactly once |
| HistoryWindows.HistorySync.Sweep | windows_agent/worker/history_sync.py:44-91 | the loop hands over window after window, in order, with matching counts and the checkpoint at the end |
| HistoryWindows.HistorySync.Run | windows_agent/worker/history_sync.py:25-91 | every record from the checkpoint or else the present, from the given date, or from 1970 on is handed over once; it is refused iff a start date is missing or its time zone unknown, and then, or when there is no span, nothing changes |
| HistoryWindows.NewOnlyRunsTile | windows_agent/worker/history_sync.py:35-37 | consecutive new-only runs leave no gap and no overlap when a checkpoint exists, and hand over nothing when none does |
| HistoryArchive.Collect | windows_agent/worker/history_archive.py:30-44 | the events per trade in order; refused iff an event names no trade or there are more than 50,000 |
| HistoryArchive.OfTradeInOrder | windows_agent/worker/history_archive.py:30-41 | the events of a trade are exactly those that name it, in the order in which they came |
| HistoryArchive.Cut | windows_agent/worker/history_archive.py:46-54 | one trade's events are cut, in order, into groups of four, the last one of one to four |
| HistoryArchive.Groups | windows_agent/worker/history_archive.py:29-55 | concatenating a trade's groups gives back its events, and the document's event count is the number of events |

## Left out

- HistoryArchive.Groups: does not state the order between groups of different trades, because neither the document nor its acknowledgement depends on it.
- Events.BuildEventId: the fingerprint of events without a deal ticket omits the millisecond time, the excursion extrema and the total commission, which the modelled code only copies.
- LiveWorker.RetryRegeneratesDeals: only for fills that move a tracked position, because an exit of an untracked position is read from the snapshots.
- Agreement.PollCutsDoNotMatter: same restriction, and snapshots between polls must have caught up with the replay.
- Agreement.HistoryAndLiveAgree: only for positions whose entries are named IN, OUT or OUT_BY, the exact condition by `Agreement.IdsAgreeIffEntriesAreNames`; profit, costs, times and stops are copied from each path's own source and not compared.
- Agreement.SameIdsOnBothPaths: assumes that no fill of another position falls back to a ticket that reads like the position's number.
- Agreement.LateImportRepeatsIds: assumes caught-up snapshots between the polls, like `Agreement.PollCutsDoNotMatter`.
- RegistryRuns.LastPublishedUntilDisplaced: only for queries that name a broker; a query without one is ambiguous as soon as two brokers share a server name.
- Rounding: amounts are reals, so float conversion of published numbers is not modelled.
- Text: JSON, timestamps, regular expressions and number parsing; fields arrive parsed, absent when unusable.
- Symbol resolution and preflight validation in the poll: their refusals are the `Fail` step.
- The excursion tracker, whose extrema are attached to close events.
- Eligibility filtering in the adapter's `history_deals` by date: the positions a job asks for are a parameter, and an adapter is assumed to return exactly the records of the window.
- The importer's own removal of repeated event ids, which drops nothing when ledger rows carry distinct tickets.
- Adapters without a file handoff, and the repair of legacy stage bytes.
- The balance backfill report, a summary of the published rows.
- Outbox migration from its first file format, and registry migrations from versions 1 and 2.
- Registry.Publisher.Publish: does not model the formats of host, run id and digests, the confidence label, the constant schema and protocol fields of the evidence, and links or reparse points among the evidence files.
- Registry labels are assumed stripped, and two labels of one broker key are excluded by the registry's own validation. Files are assumed to stay below the size that both sides accept.
- Delivery.FreshPollReachesView: only for polls without event files; with them the stream's own events take the place of the snapshot diff.
- Seam.ImportThenLiveTellHistory: only for positions with an opening before the handoff; for the others all deals are live ones and `Agreement.PollsSendTheHistory` says the same.
- Network clients, Windows process control, provisioning, the broker wizard and the lab tools.
