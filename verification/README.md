# The capture pipeline, modelled and proved

The capture pipeline turns order events seen in a trading front end into broker orders, and later
decides from what the broker reports whether a copied trade really happened. This project models it in
Dafny and proves what it is built to guarantee: that a broker write is made at most once, that a doubtful
trade is left alone until it is reconciled, that evidence is never over-claimed, and that the logs and
events it replicates arrive complete, in order and once. `dafny verify dfyconfig.toml` checks all of it.

## How it is laid out

Values and their laws:

- `Decimals` decimals as sign, coefficient and exponent, with the rounding and the `normalize` of Python's
  `decimal`; `Events` the source event and the broker's records; `Wrappers` options and refusals.
- `Prices` rounding prices and lots to what an instrument accepts (`router.py`).
- `Identity`, `Fills` links and execution reports (`mapping.py`); `Observations`, `ClosedHistory` read-back rows
  under unreliable clocks (`mapping.py`, `store.py`); `Verified` the classifier (`verified.py`).

Dispatch:

- `Journal` every transaction of `store.py` as a function on the tables; `CaptureStore` the same store as an
  object whose methods carry those functions out.
- `Attempts`, `Router`, `ManualSend`, `Unwind`, `Reconcile` the dispatchers as functions of the ledger, what
  they read, and how the broker answered; `Dispatchers` the same as methods on the store and a broker session.
- `Protocol` all of them interleaved: each process takes one transaction or the one broker call at a time, may
  stop anywhere, and the journal may be restarted at any point. `SingleWriter`, `AtMostOnce`, `Absorption`,
  `Settlement`, `Redelivery` and `FillLedger` prove what holds in every run; `Limits` gives the runs that show the conditions in
  `Absorption` are met; `Refinement` proves that each dispatcher, undisturbed, is such a run.

Replication and the edges:

- `RelayStore`, `RelayCollector`, `RelayArchive`, `RelayPoll` the log archive: the receiver, the collector's
  steps, the invariants of every run, and the polling object; `RelayStuck` what one refused chunk does to the rest.
- `Outbox` the sender's durable outbox together with the journal that receives from it; `Senders` shows that the
  rest of the program leaves one sender's part of that journal alone.
- `Ingress` the WebSocket receiver's bounded queue, worker, writers and shutdown; `Inflight` the bound on what one
  client can have waiting.
- `ChunkedBody` and `EventStream` the two parsers; `Pacing` the rate limiter and session renewals.

Where the source changes state, the model does too: `CaptureStore.Store`, `Dispatchers.CaptureRouter`,
`RelayStore.RelayLogStore`, `RelayPoll.Collector`, `Outbox.DurableOutbox`, `Ingress.CaptureServer`,
`ChunkedBody.Source`, `EventStream.Follower`, `Pacing.RateLimiter`, `Pacing.Registry` and `Pacing.Connection` are
classes whose methods are specified by the functions the theorems are about.

## What turned out not to hold as it reads

- *Once uncertain or resolved, never written again.* In every continuation exactly if no attempt is open on the trade
  (`Absorption.AbsorptionIff`). A step can leave a row uncertain or resolved under an open attempt in three ways and no
  other: another dispatcher's bookkeeping fails after its outcome was written, an event ends the trade at its source,
  or a reconciliation moves the row (`Absorption.CoveredIff`, `Absorption.EscapesIffDisturbed`). Each does happen:
  `Limits.LateWriteIsReachable`, `Limits.EventUnderAnAttempt` and `Limits.ReconciliationIsReachable` are runs from an
  empty journal. The controller's lock around every dispatch, send, unwind, event and reconciliation
  (`v4/src/matchtrader/dashboard/controller.py:297-318`, `:417`, `:534`, `:654`, `:747`) rules all three out
  (`Absorption.LockedRunsAbsorb`).
- *Resolved is final.* Exactly as long as no dispatcher of the trade fails after having written its outcome
  (`Absorption.ResolvedIsTerminalIff`): `record_failure` writes `uncertain` over any state. The lock does not help:
  `Limits.ResolvedCanBeLost` is a run under the lock, from an empty journal, in which a confirmed cancel resolves the
  trade and its own bookkeeping then fails. An unwind can fail even behind `finish`, when `record_reason` raises.
- *Stopping between claim and outcome restarts as uncertain.* Exactly if the row is still dispatching or uncertain
  (`Absorption.CrashIff`), which it is as long as nothing moved it (`Absorption.CrashLeavesUncertain`). In
  `Limits.CrashCanHideAnAttempt`, from an empty journal, an event moved it, and the trade restarts resolved.
- *Two spellings of one number get one key.* True of nonzero numbers of up to 28 digits; `0` and `-0`, which are
  equal, get different keys (`Decimals.OppositeZerosDiffer`), and a 29th digit is lost
  (`Decimals.TwentyNinthDigitIsLost`).
- *A client's `inflight` set bounds its jobs.* It does in every run in which no client sends an event again between its
  answer and the writer's release of it (`Inflight.InflightBoundsJobs`), and each such sending breaks the
  correspondence the bound rests on (`Inflight.CleanIffNotResent`); `Inflight.CanUndercount` is a run in which a client
  under a limit of one has two jobs waiting.
- *At most four renewals in an hour.* In any hour that leaves out one of its ends, yes
  (`Pacing.AnyHourHoldsFour`). Counting both ends, five fit exactly if the fifth comes exactly 3600 seconds after
  the first (`Pacing.ClosedHourHoldsFiveIff`), as in `Pacing.FiveCanFitAClosedHour`.
- *The receiver accepts what the collector sends, and the directory is archived.* The receiver refuses exactly what is
  badly named (for example when the machine's own name is empty or over 100 characters, or the file's over 240 or with
  a backslash in it) or lies beyond 2^63 - 8192 bytes (`RelayArchive.OnlyNamesAndHugeOffsetsAreRefused`;
  `RelayStuck.ABadNameIsRefused` sends such a message). A refused chunk stays on record, and then no other file is ever
  looked at (`RelayStuck.RefusedChunksStopTheRest`). So polling drains a directory exactly if no unread chunk of it is
  one of these (`RelayPoll.Drain`), and one log with a backslash in its name keeps the log beside it from ever being
  archived (`RelayStuck.OneBackslashStopsTheDirectory`).
- *The outbox drains.* As many exchanges as there are files empty the directory exactly if none of the waiting events,
  when its turn comes, is new to the journal and a fill that contradicts one on record
  (`Outbox.ExchangesEmptyTheDirectoryIff`). Such a fill stays in front for good, whatever happens after, and so does
  every file behind it (`Outbox.BlockedForever`); `Outbox.AFillCanStayForGood` is a run that ends there.
- *The closed volume is exact.* For a position of one symbol and side, exactly if no two executions read share a key
  (`ClosedHistory.ClosedVolumeExactIff`); of two that do, one is lost (`ClosedHistory.SharedKeysAreLost`), for example
  of two equal partial closes in one second without a broker id (`ClosedHistory.TwoClosesLookLikeOne`).
- *Trailer values survive.* They do up to white space in Python's sense, which includes U+0085 and U+00A0: a value
  is kept whole exactly if it neither starts nor ends in such a character (`ChunkedBody.StripKeepsIff`);
  `ChunkedBody.ATrailerLosesItsNoBreakSpace` is a message whose trailer does.

## Model

| member | source | states |
|---|---|---|
| Decimals.StrippedKeepsValue | v4/src/matchtrader/capture/store.py:35-42 | normalising a decimal removes trailing zeros and keeps its value |
| Decimals.CanonicalIsUnique | v4/src/matchtrader/capture/store.py:35-42 | two canonical decimals of one value are the same decimal |
| Decimals.StrippedEqualIffValueEqual | v4/src/matchtrader/capture/store.py:35-42 | two stripped decimals agree exactly when the numbers do, zeros of opposite sign aside |
| Decimals.NormalizedEqualIffValueEqual | v4/src/matchtrader/capture/store.py:35-42 | up to 28 digits, two spellings get one execution key exactly when their values are equal |
| Decimals.OppositeZerosDiffer | v4/src/matchtrader/capture/store.py:35-42 | 0 and -0 are equal and yet get two keys |
| Decimals.TwentyNinthDigitIsLost | v4/src/matchtrader/capture/store.py:35-42 | a number of 29 digits shares its key with another number |
| Prices.QuantizedIsNearest | v4/src/matchtrader/capture/router.py:303-328 | a quantised price is on the grid, within half a quantum of the source price, and quantising again changes nothing |
| Prices.QuantizedIsMonotone | v4/src/matchtrader/capture/router.py:303-328 | a higher source price never gets a lower quantised price |
| Prices.OnStepIffWholeSteps | v4/src/matchtrader/capture/router.py:330-359 | the step check accepts exactly the whole multiples of the step |
| Prices.ValidatedTerms | v4/src/matchtrader/capture/router.py:330-359 | a validated order names the one listed instrument and carries lots and prices it accepts, each bracket on its side of entry |
| Identity.UnsharedMeansSoleOwner | v4/src/matchtrader/capture/mapping.py:220-230 | the guard passes only a trade none of whose positions another trade is linked to |
| Fills.RedeliveryChangesNothing | v4/src/matchtrader/capture/mapping.py:144-158 | a repeated report changes nothing, and a reuse of its execution id for other data is refused and changes nothing |
| Fills.ConsistentDeliveries | v4/src/matchtrader/capture/mapping.py:144-158 | after deliveries that reuse no execution id for other data there is exactly one row for each distinct execution, with its data |
| Fills.TotalsDependOnReportsOnly | v4/src/matchtrader/capture/mapping.py:232-265 | two delivery sequences that report the same executions, each in whatever order, repetition and decimal spelling, give every trade the same totals |
| Fills.TotalIsContributionsPlusUnplaced | v4/src/matchtrader/capture/mapping.py:232-265 | a total is the sum of its contributions over the linked positions plus the fills without a position |
| Fills.DeliveredIsBacked | v4/src/matchtrader/capture/mapping.py:144-158 | whatever is delivered, every fill row's order and position are linked to its trade, and links and rows only grow |
| FillLedger.LedgerTotalsAddUp | v4/src/matchtrader/capture/mapping.py:232-265 | on the journal's own ledger, in every run, a trade's total is the sum of its contributions over the linked positions plus the fills without a position |
| Observations.StoredRow | v4/src/matchtrader/capture/mapping.py:182-218 | for any deliveries on one key: first non-blank open time, first open millis, fields of the last delivery with the largest timestamp |
| Observations.RecordedTimeIsKept | v4/src/matchtrader/capture/mapping.py:182-218 | a recorded broker time is never lost, changed or blanked by any later delivery |
| ClosedHistory.ClosedVolumeNeverOverclaims | v4/src/matchtrader/capture/store.py:275-296 | with executions that report stable ids, times and values, the closed volume on record never exceeds what the broker closed of the position |
| ClosedHistory.ClosedVolumeIsExact | v4/src/matchtrader/capture/store.py:275-296 | where the keys tell apart the executions read at the position, the closed volume is exactly their sum, however often and in whatever order they were read |
| ClosedHistory.SharedKeysAreLost | v4/src/matchtrader/capture/store.py:275-296 | two executions of one key that were both read and both closed something make the closed volume too small |
| ClosedHistory.ClosedVolumeExactIff | v4/src/matchtrader/capture/store.py:275-296 | for a position of one symbol and side the closed volume is exact if and only if no two executions read share a key |
| ClosedHistory.TwoClosesLookLikeOne | v4/src/matchtrader/capture/store.py:275-296 | two equal partial closes in one second without a broker id, both read, count once |
| Verified.VerifiedIff | v4/src/matchtrader/capture/verified.py:76-163 | verified exactly with a source link, one unshared named position and a timed matching read-back row |
| Verified.ForeignRowsNeverCount | v4/src/matchtrader/capture/verified.py:76-163 | a row that names another reader, broker, account, position, symbol or side never changes the result, wherever it stands |
| Verified.ClosureIgnoresState | v4/src/matchtrader/capture/verified.py:76-163 | verified, and verified closed, do not depend on the trade's state |
| Verified.VerifiedClosedMeansClosed | v4/src/matchtrader/capture/verified.py:61-122 | verified closed means the broker really reported closes of at least the requested quantity |
| Redelivery.RedeliveryNeverRecordsTwice | v4/src/matchtrader/capture/store.py:109-120 | after any run, with any restarts in it, an event delivered again is answered from the record and changes nothing, and a reuse of its id for other data is refused and changes nothing |
| Journal.RecordOnlyAdds | v4/src/matchtrader/capture/store.py:109-181 | recording an event adds links and rows, leaves attempts alone, and moves a state only to resolved, for its own trade without destination |
| Journal.UpdateOnlyRow | v4/src/matchtrader/capture/store.py:188-219 | an update changes one trade's row and otherwise only adds links |
| Journal.PositionLinkedAdds | v4/src/matchtrader/capture/store.py:259-273 | observing positions links each named one to the trade and removes no link |
| CaptureStore.Store.constructor | v4/src/matchtrader/capture/store.py:82-88 | opening a journal turns everything in flight into uncertain |
| CaptureStore.Store.Record | v4/src/matchtrader/capture/store.py:109-181 | the object's transaction is the journal's record, or no change when it is refused |
| CaptureStore.Store.Claim | v4/src/matchtrader/capture/store.py:221-238 | the claim succeeds exactly when it may, and then the attempt, the row and the history are written together |
| CaptureStore.Store.Update | v4/src/matchtrader/capture/store.py:188-219 | the object's transaction is the journal's update |
| CaptureStore.Store.Finish | v4/src/matchtrader/capture/store.py:240-249 | the object's transaction is the journal's finish: the attempt's outcome, and in the history the outcome with the broker ids of the row |
| CaptureStore.Store.ObservePositions | v4/src/matchtrader/capture/store.py:259-273 | the loop over positions leaves the links and rows that observing them one by one gives |
| CaptureStore.Store.ObserveClosed | v4/src/matchtrader/capture/store.py:275-296 | the loop over closed trades leaves the rows that observing them one by one gives |
| Attempts.PerformedState | v4/src/matchtrader/capture/router.py:225-281 | an attempt writes at most once and leaves the row in the state its answer established, uncertain when it established nothing |
| Attempts.PerformedTables | v4/src/matchtrader/capture/store.py:188-249 | an attempt's record and history say what was asked and established; its row carries just the two changes; no other row, attempt or history is touched |
| Attempts.RelatedAre | v4/src/matchtrader/capture/router.py:182-188 | related positions are exactly those tied by id or opening order with the trade's symbol and side |
| SingleWriter.GuardClearsOneTrade | v4/src/matchtrader/capture/router.py:189-222 | the guard clears a position for one trade only, since the trade linked it before it checked |
| SingleWriter.OneTradePerPosition | v4/src/matchtrader/capture/router.py:172-222 | in every run, all closes, partial closes and edits of one position are made for one trade |
| AtMostOnce.OneCallPerAction | v4/src/matchtrader/capture/store.py:221-249 | in every run, no two broker calls share a trade and an action key |
| AtMostOnce.OneCreatePerTrade | v4/src/matchtrader/capture/router.py:225-242 | in every run, of all the broker writes that open a position or place an order at most one is for the same trade |
| Absorption.CoveredIff | v4/src/matchtrader/capture/store.py:221-238 | a step leaves the open attempt of a trade alone with a dispatching row if and only if it is not one of three: a failure behind another outcome, an event that ends the trade, a reconciliation that moves it |
| Absorption.AbsorbedStep | v4/src/matchtrader/capture/reconcile.py:30-60 | with no attempt open, any step keeps an uncertain or resolved row one of the two and sends nothing for it; resolved is left exactly by a failure behind an outcome |
| Absorption.AbsorbedForever | v4/src/matchtrader/capture/router.py:240-281 | over any run, an uncertain or resolved trade with no attempt open is never written for again |
| Absorption.AbsorptionIff | v4/src/matchtrader/capture/router.py:26-58 | an uncertain or resolved trade stays so in every continuation if and only if no attempt is open on it |
| Absorption.EscapesIffDisturbed | v4/src/matchtrader/capture/router.py:26-58 | when a step leaves a trade uncertain or resolved, some continuation writes for it or reopens it if and only if the step was one of the three |
| Absorption.ResolvedIsTerminalIff | v4/src/matchtrader/capture/router.py:254-281 | resolved is final in a run if and only if no dispatcher of the trade fails in it after having written its outcome |
| Absorption.CrashLeavesUncertain | v4/src/matchtrader/capture/store.py:82-88 | stopping between claim and outcome restarts as uncertain as long as none of the three steps moved the row |
| Limits.ResolvedCanBeLost | v4/src/matchtrader/capture/router.py:26-58 | from an empty journal and under the lock, a run in which a trade is resolved and then uncertain again |
| Limits.LateWriteIsReachable | v4/src/matchtrader/capture/router.py:26-58 | from an empty journal, a run whose last step writes for a trade that was uncertain before it, because another attempt's bookkeeping failed |
| Limits.EventUnderAnAttempt | v4/src/matchtrader/capture/store.py:109-181 | from an empty journal, a run whose last step writes for a trade that an event resolved under the attempt |
| Limits.ReconciliationIsReachable | v4/src/matchtrader/capture/reconcile.py:30-60 | from an empty journal, a run whose last step writes for a trade that a reconciliation resolved under the attempt |
| Limits.CrashCanHideAnAttempt | v4/src/matchtrader/capture/store.py:82-88 | from an empty journal, a run stopped between claim and outcome whose trade restarts resolved |
| Absorption.LockedRunsAbsorb | v4/src/matchtrader/dashboard/controller.py:297-318 | with one dispatcher at a time, and no event or reconciliation beside an open attempt, every run from a restarted journal absorbs |
| Router.DispatchPromise | v4/src/matchtrader/capture/router.py:122-281 | at most one write; without one nothing is claimed; nothing established means uncertain; resolved exactly when nothing of the trade is left |
| Router.EstablishedResolves | v4/src/matchtrader/capture/router.py:254-265 | a confirmed cancel or close resolves exactly when, relative to what was read and confirmed, no pending order and no related position remains |
| Router.LifecycleStaysOwn | v4/src/matchtrader/capture/router.py:171-224 | an edit, cancel or close touches only the trade's own listed order or its own unshared position, takes no more than there is, and carries the checked prices in place |
| Router.PlacedOrdersAreAcceptable | v4/src/matchtrader/capture/router.py:154-167 | every order the router places is one its instrument accepts |
| Redelivery.RedeliveryNeverSends | v4/src/matchtrader/capture/router.py:70-120 | after any run, an event the router received once is never dispatched again, whatever settings and broker are by then |
| Redelivery.SentStaysSent | v4/src/matchtrader/capture/manual_send.py:35-96 | after any run, with any restarts in it, a trade that was sent once, on paper or live, is never sent again |
| ManualSend.SendPromise | v4/src/matchtrader/capture/manual_send.py:102-185 | a live send is exactly one create, with lots and prices its instrument accepts, and it ends pending, open or uncertain |
| Unwind.ChoiceRemovesOwnExposure | v4/src/matchtrader/capture/unwind.py:187-309 | what is chosen is the trade's own order or its own sole position, in full |
| Unwind.UnwindPromise | v4/src/matchtrader/capture/unwind.py:87-172 | an unwind writes at most once, only against the linked trade's own order or position, and anything but an explicit OK leaves it uncertain |
| Reconcile.ReconciliationIsSound | v4/src/matchtrader/capture/reconcile.py:9-60 | the state of every trade after a reconciliation, exactly: resolved, open or as before; unlisted, observed and resolved trades keep their rows, and links are only added |
| Reconcile.ResolvedOnlyWhenGone | v4/src/matchtrader/capture/reconcile.py:30-60 | a trade is resolved only if it is missing at the broker, no other trade was linked to its position, and the closed history of that position covers its whole lots |
| Settlement.ReconciliationSettlesIff | v4/src/matchtrader/capture/reconcile.py:9-60 | on any ledger whose trades are linked to their own broker ids: a reconciliation raises exactly if it comes to a row with closings and without lots; a listed trade ends resolved exactly if it was, or if it is missing, unshared and fully closed and no such row is ahead of it |
| Settlement.EveryReconciliationSettles | v4/src/matchtrader/capture/reconcile.py:40-60 | in every run from a journal without trades no reconciliation raises, and every listed trade that is missing, unshared and fully closed ends resolved, and no other does |
| Refinement.AttemptIsRun | v4/src/matchtrader/capture/router.py:225-281 | an undisturbed attempt is a run of the protocol |
| Refinement.DispatchIsRun | v4/src/matchtrader/capture/router.py:122-281 | an undisturbed router dispatch is a run of the protocol |
| Refinement.SendIsRun | v4/src/matchtrader/capture/manual_send.py:102-185 | an undisturbed manual send is a run of the protocol |
| Refinement.PaperIsRun | v4/src/matchtrader/capture/manual_send.py:139-150 | a paper send is a run of the protocol, and sends nothing |
| Refinement.UnwindIsRun | v4/src/matchtrader/capture/unwind.py:87-172 | an undisturbed unwind is a run of the protocol |
| Dispatchers.Prepare | v4/src/matchtrader/capture/router.py:225-242 | claiming and noting on the store is the journal's preparation of an attempt |
| Dispatchers.Conclude | v4/src/matchtrader/capture/router.py:243-281 | calling the broker and writing the outcome on the store is the whole attempt |
| Dispatchers.CaptureRouter.Dispatch | v4/src/matchtrader/capture/router.py:122-281 | the method leaves the ledger, the outcome and the writes of the dispatch function |
| Dispatchers.Send | v4/src/matchtrader/capture/manual_send.py:102-185 | the method leaves the ledger and the writes of the send function |
| Dispatchers.Apply | v4/src/matchtrader/capture/unwind.py:87-172 | the method leaves the ledger, the outcome and the writes of the unwind function |
| Dispatchers.ReconcileAccount | v4/src/matchtrader/capture/reconcile.py:9-60 | the loops over trades and read-backs leave the reconciled ledger, and raise exactly where it says |
| RelayStore.AcceptKeepsSound | v4/src/matchtrader/capture/relay_store.py:58-74 | whatever is sent, each stream stays contiguous from 0, only grows, and an acknowledged chunk is stored; a duplicate changes nothing |
| RelayStore.ChunkIsStored | v4/src/matchtrader/capture/relay_store.py:58-72 | a chunk's bytes stand at its offset in its stream |
| RelayStore.PlacesAreUnique | v4/src/matchtrader/capture/relay_store.py:58-72 | two chunks of a stream never overlap |
| RelayStore.PagingReadsEveryChunkOnce | v4/src/matchtrader/capture/relay_store.py:76-86 | paging a growing archive from 0 yields its chunks in order, each once; after a page that brings nothing, all of them |
| RelayStore.RelayLogStore.Accept | v4/src/matchtrader/capture/relay_store.py:32-74 | the method accepts, refuses and stores exactly as the archive function says |
| RelayCollector.WholeLinesEndInNewline | v4/src/matchtrader/capture/relay_collector.py:78-81 | a chunk ends at the last newline read, or is everything read when there is none |
| RelayArchive.NextKeepsWired | v4/src/matchtrader/capture/relay_collector.py:52-104 | every step keeps: the receiver's next offset is the checkpoint or the checkpoint plus the pending payload, and a message on the network is archived or next |
| RelayArchive.OnlyNamesAndHugeOffsetsAreRefused | v4/src/matchtrader/capture/relay_store.py:45-68 | what the collector sends is refused exactly for its name or an offset past the limit; it is a duplicate exactly if it is archived |
| RelayArchive.ConfirmedIsArchived | v4/src/matchtrader/capture/relay_collector.py:94-104 | an acknowledgement that confirms the pending chunk means it is archived and the receiver stands behind it |
| RelayArchive.NoReset | v4/src/matchtrader/capture/relay_collector.py:63-73 | a file that only grew is never taken for another one |
| RelayArchive.ArchiveIsAPrefixOfTheFile | v4/src/matchtrader/capture/relay_collector.py:52-104 | in every run the archived bytes are exactly the first bytes of an appended-to file, in its only stream |
| RelayArchive.NothingSentIsEverRefused | v4/src/matchtrader/capture/relay_store.py:45-68 | in every run no message is refused as a gap, a conflict, a bad checksum or a bad size |
| RelayArchive.FeedIsThePrefix | v4/src/matchtrader/capture/relay_store.py:76-86 | what paging the feed returns of a file is a prefix of the file |
| RelayPoll.ScanTakesTheNextBytes | v4/src/matchtrader/capture/relay_collector.py:57-89 | looking at a grown file puts its next 1 to 8192 bytes on record, none only at its end |
| RelayPoll.Collector.DeliverPending | v4/src/matchtrader/capture/relay_collector.py:94-104 | a delivery is a run; the checkpoint moves exactly when it succeeds; when the receiver answers it succeeds exactly if the chunk is not badly named or beyond the limit |
| RelayPoll.Collector.Scan | v4/src/matchtrader/capture/relay_collector.py:60-89 | the two transactions for one file leave the checkpoint the scan function gives |
| RelayPoll.Collector.Follow | v4/src/matchtrader/capture/relay_collector.py:57-91 | one file of a poll is a run, and unread bytes advance it by 1 to 8192 |
| RelayPoll.Collector.Poll | v4/src/matchtrader/capture/relay_collector.py:52-92 | a poll is a run, while files may grow from look to look; with a receiver that answers it fails exactly if a chunk is on record that the receiver never takes, and otherwise every listed file that had unread bytes when it was looked at has advanced; with such a chunk on record before it, it fails and moves only what was on record |
| RelayPoll.Drain | v4/src/matchtrader/capture/relay_collector.py:128-143 | polling until nothing is delivered or a poll fails ends; it drains the directory, so that the archive holds every file byte for byte, if and only if no unread chunk is badly named or beyond the limit |
| RelayPoll.DrainedFeedIsTheDirectory | v4/src/matchtrader/capture/relay_store.py:76-86 | a reader that pages a drained archive to its end puts together every listed file, byte for byte |
| RelayStuck.RefusedChunksStopTheRest | v4/src/matchtrader/capture/relay_collector.py:52-56 | in every run, once a chunk the receiver refuses is on record, it stays there, no other file is looked at, and nothing is archived but what was on record with it |
| RelayStuck.ABadNameIsRefused | v4/src/matchtrader/capture/relay_store.py:40-46 | the first look at any badly named file with anything in it puts such a chunk on record, and its message is refused |
| RelayStuck.OneBackslashStopsTheDirectory | v4/src/matchtrader/capture/relay_collector.py:52-104 | a directory of two logs in which one backslash keeps the other log from ever being archived |
| Outbox.NextKeeps | v4/quantower/HCAMM.QuantowerCapture/DurableOutbox.cs:29-75 | every step keeps the files in order, the journal at the event being sent or just past it |
| Outbox.PostedIsKnownOrNext | v4/src/matchtrader/capture/store.py:109-120 | an event on the network is recorded with the same data, or is the next one to record |
| Outbox.AnsweredIsRecorded | v4/quantower/HCAMM.QuantowerCapture/DurableOutbox.cs:65-69 | an answer naming the event being sent means the journal has it |
| Outbox.RestartKeeps | v4/quantower/HCAMM.QuantowerCapture/DurableOutbox.cs:23 | counting on from the files found keeps the order |
| Outbox.ExactlyOnceInOrder | v4/quantower/HCAMM.QuantowerCapture/DurableOutbox.cs:29-75 | in every run the journal holds the persisted events in order, each once; every deleted file was recorded, at most one recorded file still waits |
| Outbox.AnExchangeDeliversTheFirst | v4/quantower/HCAMM.QuantowerCapture/DurableOutbox.cs:57-75 | one undisturbed exchange records the first waiting event, if it was not, and deletes its file, if and only if the event is on record or contradicts no fill on record |
| Outbox.RefusedIff | v4/src/matchtrader/capture/mapping.py:144-158 | an event new to the journal is refused if and only if it is a fill whose execution id is on record for other data |
| Outbox.BlockedForever | v4/quantower/HCAMM.QuantowerCapture/DurableOutbox.cs:57-75 | in every continuation such an event in front is never recorded, and no file from it on is ever deleted |
| Outbox.ExchangesEmptyTheDirectoryIff | v4/quantower/HCAMM.QuantowerCapture/DurableOutbox.cs:57-75 | as many exchanges as there are files empty the directory if and only if no event, when its turn comes, is new and contradicts a fill on record |
| Outbox.AFillCanStayForGood | v4/quantower/HCAMM.QuantowerCapture/DurableOutbox.cs:57-75 | a run that ends with such a fill in front |
| Senders.OtherStepsLeaveSender | v4/src/matchtrader/capture/store.py:109-181 | every step of the protocol but an event of the sender's own machine leaves the sender's events, source keys, fills and source links as they are, and trades it adds are new |
| Outbox.DurableOutbox.constructor | v4/quantower/HCAMM.QuantowerCapture/DurableOutbox.cs:18-27 | the sequence starts at the highest number among the files found |
| Outbox.DurableOutbox.Enqueue | v4/quantower/HCAMM.QuantowerCapture/DurableOutbox.cs:29-45 | a full outbox refuses and changes nothing but its health; otherwise the event is filed under the next number |
| Outbox.DurableOutbox.PumpOnce | v4/quantower/HCAMM.QuantowerCapture/DurableOutbox.cs:57-75 | the lowest file is sent, and deleted exactly if the answer names its event |
| Ingress.AdmitKeeps | v4/src/matchtrader/capture/ws_ingress.py:202-225 | admission keeps the limits, the line and who waits for what |
| Ingress.TakeKeeps | v4/src/matchtrader/capture/ws_ingress.py:232-241 | taking a job, answering it at once after the stop signal, and the sentinel keep them too |
| Ingress.FinishKeeps | v4/src/matchtrader/capture/ws_ingress.py:242-258 | finishing a job keeps them too |
| Ingress.BoundedFirstInFirstOut | v4/src/matchtrader/capture/ws_ingress.py:202-258 | in every run queue and inflight sets are within limits, jobs run in admission order, pending is exactly what is queued or in progress, no key twice |
| Ingress.OneResponsePerRequest | v4/src/matchtrader/capture/ws_ingress.py:121-141 | in every run each finished job's one terminal response is offered exactly once to each distinct waiter still open, and to no other |
| Ingress.ShutdownAnswersEverything | v4/src/matchtrader/capture/ws_ingress.py:86-90 | when the worker has ended, every admitted job was answered and nothing is pending |
| Inflight.CleanIffNotResent | v4/src/matchtrader/capture/ws_ingress.py:202-258 | a step keeps every waiting job's place in its client's inflight set if and only if it does not admit an event whose release is still to come |
| Inflight.InflightBoundsJobs | v4/src/matchtrader/capture/ws_ingress.py:131-141 | in every run without such a step, the unfinished jobs a client waits for number at most its inflight set, and that at most the limit |
| Inflight.CanUndercount | v4/src/matchtrader/capture/ws_ingress.py:131-141 | a run from the start in which a client has two jobs waiting under a limit of one |
| Ingress.CaptureServer.Offer | v4/src/matchtrader/capture/ws_ingress.py:121-129 | an offer is queued, dropped for a closed client, or closes a slow one |
| Ingress.CaptureServer.Admit | v4/src/matchtrader/capture/ws_ingress.py:202-225 | the method changes queue, pending, table, inflight set and waiters as admission says |
| Ingress.CaptureServer.Complete | v4/src/matchtrader/capture/ws_ingress.py:253-258 | the loop offers the response to every waiter in order and forgets the key |
| Ingress.CaptureServer.Take | v4/src/matchtrader/capture/ws_ingress.py:232-241 | the method takes the next job, the sentinel, or answers at once after the stop signal |
| Ingress.CaptureServer.WriterTakes | v4/src/matchtrader/capture/ws_ingress.py:131-135 | the writer takes the oldest message of its client's output queue and nothing else changes |
| Ingress.CaptureServer.WriterSent | v4/src/matchtrader/capture/ws_ingress.py:135-139 | behind the send, a terminal response and only that leaves the inflight set |
| Ingress.CaptureServer.Drain | v4/src/matchtrader/capture/ws_ingress.py:86-90 | after the stop signal the worker ends, with capture_stopped for every job still queued |
| ChunkedBody.HexIntReadsDigits | v4/relay/transparent_proxy.py:88 | any spelling in hexadecimal digits is read as its number |
| ChunkedBody.SizeIsRead | v4/relay/transparent_proxy.py:87-88 | a size line gives its number, whatever padding and extensions it carries |
| ChunkedBody.StripKeepsIff | v4/relay/transparent_proxy.py:100 | a text is kept whole exactly if it neither starts nor ends in white space |
| ChunkedBody.ATrailerLosesItsNoBreakSpace | v4/relay/transparent_proxy.py:92-101 | a trailer value that ends in U+00A0 arrives without it |
| ChunkedBody.DecodingInvertsEncoding | v4/relay/transparent_proxy.py:85-105 | for every body, chunking, spelling, extensions and trailers whose lines fit: exactly the body and the trimmed trailers, consuming exactly the message |
| ChunkedBody.DecodingReadsOnlyTheMessage | v4/relay/transparent_proxy.py:85-105 | what is decoded and consumed never depends on what follows the message |
| ChunkedBody.ReadTrailers | v4/relay/transparent_proxy.py:92-101 | the inner loop reads exactly the trailers of the decoder |
| ChunkedBody.ReadChunks | v4/relay/transparent_proxy.py:85-105 | the outer loop reads exactly the body and trailers of the decoder, and stops behind them |
| ChunkedBody.ReadBody | v4/relay/transparent_proxy.py:77-112 | the method reads the body either framing gives, and refuses exactly the ambiguous, unsupported, malformed and incomplete ones |
| EventStream.LaterTextOnlyAdds | v4/frontend/src/stream.js:29-41 | later text never changes what earlier text was framed into |
| EventStream.FramingIgnoresReadBoundaries | v4/frontend/src/stream.js:23-41 | every way of cutting a text into reads gives the same packets and the same failure, and leaves no blank line behind |
| EventStream.PayloadsArrive | v4/frontend/src/stream.js:29-41 | what the server writes arrives in order, each payload once, up to the first one refused; heartbeats leave no trace |
| EventStream.Follower.Read | v4/frontend/src/stream.js:29-41 | the loop frames exactly what the function says and ends with the newest payload |
| Pacing.TurnsKeepTheirDistance | v3/src/matchtrader/core/rate_limiter.py:32-38 | the j-th turn after one is due at least j of that one's intervals later |
| Pacing.WindowHoldsFew | v3/src/matchtrader/core/rate_limiter.py:32-38 | a window of length W holds at most W / interval + 1 turns, for the smallest interval in force in it |
| Pacing.WindowGrantsFew | v3/src/matchtrader/core/rate_limiter.py:32-38 | the same bound for the clock readings at which turns were granted, when each was granted as it came due |
| Pacing.RateLimiter.Wait | v3/src/matchtrader/core/rate_limiter.py:32-38 | turns are spaced whatever the clock does; as long as it does not run back during a call and no sleep is cut short, every turn so far was granted exactly when it was due |
| Pacing.RateLimiter.Share | v3/src/matchtrader/core/rate_limiter.py:21-23 | sharing a limiter only ever slows it down |
| Pacing.Registry.ForOrigin | v3/src/matchtrader/core/rate_limiter.py:13-24 | all who hold a limiter of one origin hold the same one, and it is at least as slow as every rate ever asked of it; other origins keep theirs |
| Pacing.Registry.Forget | v3/src/matchtrader/core/rate_limiter.py:13-24 | a limiter that everyone has let go of (`Release`) may be forgotten, and the registry stays valid |
| Pacing.AnyHourHoldsFour | v3/src/matchtrader/core/rest_connection.py:167-173 | any hour that leaves out an end holds at most four renewals |
| Pacing.ClosedHourHoldsFiveIff | v3/src/matchtrader/core/rest_connection.py:167-173 | with both ends counted five fit exactly if the fifth comes exactly an hour after the first |
| Pacing.FiveCanFitAClosedHour | v3/src/matchtrader/core/rest_connection.py:167-173 | five renewals a quarter of an hour apart are within the rule and within one closed hour |
| Pacing.Connection.ReserveRenewal | v3/src/matchtrader/core/rest_connection.py:167-173 | a renewal is granted exactly unless four were granted in the hour up to it |
| Pacing.Connection.Renew | v3/src/matchtrader/core/rest_connection.py:175-218 | a renewal needs a session and room in the hour, and counts even when it fails |
| Pacing.Connection.Request | v3/src/matchtrader/core/rest_connection.py:220-255 | a call is sent at most twice and renews at most once; only a safe read refused for authentication is sent again; a disabled write sends nothing |

## Left out

- Quantity observations and position observations (`mapping.py:160-181`): the last delivery wins, so nothing about them is independent of order.
- `automatic.py`, endpoints, pydantic models, the command line, dashboard servers and the front end's components: glue and display.
- Outcome reasons, decisions, notifications, CSV export, redacted raw logs and metrics: they change no state the theorems are about.
- The one-time migration of older journals.
- The reading of the databases and of JSON, SQL and TLS themselves: tables are maps, a transaction is one step that happens or does not, SHA-256 is injective, UUIDs are fresh.
- Clocks, time zones and timestamps: integers (or reals in `Pacing`), given as parameters; nothing is assumed about them where it is not stated.
- Rows the store's own queries return (the trades to reconcile and the order they are listed in, a trade's snapshot, its latest accepted create, the trades linked to a lifecycle): parameters.
- Nested position groups: positions are given flattened.
- Decimal products and sums past 28 digits, and exponents at the limits of Python's context: rounding is modelled for `normalize` and for prices, not for sums.
- The key of a closed execution without a broker id is kept apart from broker ids; in the program both are text, and a broker id that reads like such a key would collide.
- `reconcile` is one step towards the dispatchers, as the controller's lock makes it.
- The protocol lets every dispatcher fail behind its finish; in the program only the unwind does something there that can fail.
- CaptureStore.Store.Update: leaves out the quantity observation of changed lots, whose last write wins.
- CaptureStore.Store.ObservePositions: leaves out the position volume snapshots, whose last write wins.
- In the router a refusal because writes are disabled counts as a write that was made; it can only lead to uncertain.
- SingleWriter.OneTradePerPosition: says nothing of writes to a position without an id, because a blank id is never linked.
- Unwind.UnwindPromise: does not say that the trade is gone when it is resolved, because the program decides that from the ledger and a partial read.
- RelayPoll.Collector.Poll: has files grow between looks only; growth between the stat and the read of one look, and files rewritten during a poll, are covered by the steps of `RelayCollector`, not by this method.
- RelayPoll.Drain: takes the receiver to answer every delivery; the waiting between failed polls is left out.
- Outbox.DurableOutbox.PumpOnce: does not model the event handler called afterwards, nor the two seconds' wait after a failure; a concurrent enqueue is a step of `Outbox.Next`.
- The outbox's sequence is unbounded; the program's is 64 bits wide.
- A directory entry in the outbox that is not one of its own files is left out.
- Ingress.CaptureServer.Admit: takes the number of connections and one connection per machine as given; the handshake, the hello message and message validation only decide whether it is called.
- Ingress.OneResponsePerRequest: speaks of offering, not of the socket; a client that is closed or reads too slowly gets nothing.
- ChunkedBody.ReadBody: takes the parsing of a Content-Length as a parameter, and reads bytes as characters below 256.
- EventStream.Follower.Read: works on decoded text; the UTF-8 decoder, the idle timer, reconnecting, frame coalescing and the merging of dashboard sections are left out, and JSON parsing and validation are one predicate.
- Pacing.RateLimiter.Wait: times a turn at the clock reading behind the sleep; what happens before the request leaves is outside of it.
- Pacing.Connection.Request: tokens, accounts and response bodies are left out; how a send, a login or a renewal ends is a parameter.
