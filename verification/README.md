# Verified cores of the QuantGrid services

This project models the parts of the repository whose behaviour spans several functions, several
workers or several runs, and proves what they keep. Each imperative core is a class or a method with
loops, proved equal to a specification function; the laws are lemmas about that function.
`dafny verify dfyconfig.toml` checks everything.

## What is modelled

- **Durable broker submission** (`SubmissionIntents`, `EvidenceOrder`, `IntentOutcomes`). One row a local order, moved by
  three single-transaction calls that any number of workers interleave. The table's unique indexes are
  those of the migration (`schema_migrations.py:188-205`). Delivery order of evidence matters unless
  the delivered statuses form a chain, which is an exact condition.
- **Broker reconciliation** (`LocalOrders`, `Reconciliation`, `ReconciliationRun`,
  `ReconciliationIntents`, `ReconciliationPositions`, `ReconciliationOrders`, `ReconciliationFills`,
  `ReconciliationSafety`, `ReconciliationAborts`, `ReconciliationExposure`, `ReconciliationRepeats`,
  `ReconciliationClosing`, `ReconciliationOutcomes`, `ReconciliationTurns`, `ReconciliationCounters`,
  `LocalOrderContents`).
  A run over the intents, the order rows and the positions. The broker is an arbitrary function from
  lookups to answers, lookups that raise included; other workers commit arbitrary intent calls before
  an order's durable row is read and again between that read and the write. An exception leaves the
  run with everything written so far in place.
- **Closed-candle replay** (`CandleFrames`, `Normalization`, `Resampling`, `ResampleLaws`,
  `ResampleComposition`, `ResampleConservation`, `ResampleRows`, `NormalizationOutcomes`, `Replay`,
  `ReplayEvents`). Time is in UTC minutes with IST as +330,
  prices are reals, and indicator, trend, trigger and zone detectors are arbitrary functions.
- **Backtest jobs** (`BacktestJobs`, `BacktestLaws`, `BacktestExactlyOnce`, `BacktestClaims`,
  `BacktestWorker`, `BacktestRecovery`, `BacktestOutcomes`). One worker per job, cancellations, crashes, recovery by later processes under
  leases, and saves that fail inside any locked block.
- **Broker circuit breaker** (`CircuitBreaker`, `CircuitHistory`, `CircuitLock`, `CircuitOutcomes`). The pruned state file
  against a reference that keeps all failures, and lock, load, save and unlock as separate moves of
  many processes.
- **Frontend arithmetic** (`Ohlcv`, `SessionAggregation`, `AggregationOutcomes`, `OptionChain`). Candle aggregation by session
  and the max-pain strike.
- **Money and candles** (`FoodTruck`, `FoodTruckLaws`, `FoodTruckOutcomes`, `FoodTruckService`;
  `MarketData`, `MarketDataLaws`, `MarketDataHistory`, `MarketDataOutcomes`, `MarketDownloader`). Orders, Razorpay payments and dashboard; backfill windows,
  the candle table and the latest-candle cache.

`Wrappers` and `StatusWords` hold the shared option and result types and the status vocabulary.

## What the code does that its texts do not say

The model follows the code; each point has a lemma with its exact condition or a branch of the
specification.

- The second pass of a reconciliation closes an unbacked position also when its lookup raised or
  answered `partially_filled` (`broker_reconciliation.py:590-626`, `PassClosesExactly`).
- A live `filled` answer with fill count zero, or below the order quantity, records a position larger
  than any stop was asked to cover (`broker_reconciliation.py:296-298`, `NewExposureIsCoveredIff`,
  witness `UncountedFillIsUncovered`).
- The holdings index keeps only the last entry of a symbol and side, so an empty entry hides a holding
  (`broker_reconciliation.py:1031`, `IndexIsLastWins`).
- Answers are matched on the stripped broker id but positions store it unstripped
  (`broker_reconciliation.py:149-153, 1012`), so a padded id is recorded again by the next run
  (`NextRunRecordsAgainIff`, `PaddedFillIsRecordedTwice`). Both clients of the repository return the id
  they were asked for, and with such a client it cannot happen (`EchoedFillsAreRecordedOnce`); the point
  concerns other clients.
- The partial-fill branch calls `update_open_position` with keyword arguments that the function does
  not take (`broker_reconciliation.py:507-511`, `position_store.py:275`): the call raises and ends the
  run, so a partial fill that grows between two runs is not recorded and the entries after it are
  skipped (`RunAbortsIff`, witness `GrownFillAborts`).
- `claimed` rows pass the checks before the write but not the statement's guard; evidence for one
  ends the run (`EvidenceFailsOnlyIf`).
- The max-pain sum pairs call open interest with strikes above the settlement price and put open
  interest with strikes below it, the reverse of the usual payoff (`OptionChain.tsx:46-48`). The
  optimum is proved for the orientation as coded; it is global iff both totals are non-negative.
  `PainIsSwappedPayout` says what is minimised, and `OrientationMatters` shows a chain.
- `_normalize_strategies` does not remove duplicates. A repeated strategy can lose a result after a
  crash (`ExactlyOnceIffNoDuplicates`), a cancellation whose save failed is lost in a crash
  (`CancellationSurvivesIffSaved`).
- A crash between the last saved result and the final block strands a job: recovery skips records that
  miss no result (`backtest_jobs.py:380`), so it stays RUNNING (`CrashedCanCompleteIff`). Stranded jobs
  and hard timeouts stay in an unfinished status and use up the recovery limit (`DeadRowsBlockForEver`).
- The breaker takes its time before it waits for the lock, so sections commit out of time order. No
  failure of the window is lost and bursts still trip; the reported flag is that of the full history
  when times do not go back (`StoredIsHistory`, `BurstTrips`, `StatusIsHistory`), and can fall behind it
  when they do (`LateCommitIsUndercounted`).
- A cache write that raises comes after the commit and leaves the cache behind the table until the next
  newer candle (`candle_repository.py:182-216`, `SaveAheadCoherentIff`, `FetchStoresAndCaches`).
- A first backfill that raises after it stored a candle is never repeated (`downloader.py:45-57`), so the
  dates it missed stay missing (`MissedDatesStayMissing`).
- The latest-candle cache is keyed by symbol without interval (`redis_client.py:20`,
  `SharedKeyAgreesIff`).
- A `payment.failed` webhook that reads before and writes after a capture leaves a completed order
  with a failed payment (`StaleFailureSettlesIff`).

## Model

| member | source | states |
|---|---|---|
| `SubmissionIntents.IntentStore.ClaimSubmission` | services/trading-service/Backend/application/broker_submission_intent.py:18-36 | inserts a claimed row, or refuses an empty id or key, a used id, a used correlation or a key that an active row holds |
| `SubmissionIntents.IntentStore.MarkSubmissionStarted` | services/trading-service/Backend/application/broker_submission_intent.py:39-47 | moves exactly a claimed row to reconciliation_required, or raises |
| `SubmissionIntents.IntentStore.RecordBrokerEvidence` | services/trading-service/Backend/application/broker_submission_intent.py:50-75 | one guarded update: rejects anything that is not evidence, raises when the guard matches no row or a unique index is violated |
| `SubmissionIntents.StoreKeepsValid` | services/trading-service/Backend/core/schema_migrations.py:187-205 | a row that fits the unique indexes can be stored without breaking them for the others |
| `SubmissionIntents.ApplyKeepsValid` | services/trading-service/Backend/application/broker_submission_intent.py:18-75 | each call keeps: broker id set iff past reconciliation_required, one row per broker id, one active row per key |
| `SubmissionIntents.EveryRunIsValid` | services/trading-service/Backend/application/broker_submission_intent.py:18-75 | that holds after every interleaving of claim, mark and evidence calls from an empty table |
| `SubmissionIntents.EvidenceIntegrity` | services/trading-service/Backend/core/schema_migrations.py:196-205 | evidence the guard accepts is stopped exactly when another row owns the broker id, never by the active-key index |
| `SubmissionIntents.RowsEvolve` | services/trading-service/Backend/application/broker_submission_intent.py:39-75 | along every run key and correlation are fixed, a broker id never changes once set, statuses only advance, terminal ones are absorbing |
| `SubmissionIntents.EvolvesBetween` | services/trading-service/Backend/application/broker_submission_intent.py:39-75 | the same between any two points of a run |
| `SubmissionIntents.SendsAtMostOnce` | services/trading-service/Backend/application/broker_submission_intent.py:39-47 | mark_submission_started succeeds at most once per local order under every interleaving |
| `SubmissionIntents.SecondSendNeedsTerminalEvidence` | services/trading-service/Backend/application/broker_submission_intent.py:18-75 | when a second order of the same key crosses the send boundary, the first is already terminal with a broker id |
| `EvidenceOrder.MovesArePartialOrder` | services/trading-service/Backend/application/broker_submission_intent.py:63-71 | the allowed moves are reflexive, antisymmetric and transitive, and two statuses with a common successor are comparable |
| `EvidenceOrder.DeliverOne` | services/trading-service/Backend/application/broker_submission_intent.py:50-75 | what one delivery does to a row that awaits reconciliation or has the broker id: accepted iff awaiting or an allowed move, no other row touched |
| `EvidenceOrder.DeliveriesSettle` | services/trading-service/Backend/application/broker_submission_intent.py:50-75 | any sequence of deliveries for one broker id folds to one status, refused ones ignored |
| `EvidenceOrder.ChainSettles` | services/trading-service/Backend/application/broker_submission_intent.py:62-71 | on a chain of statuses the end is an upper bound that was delivered |
| `EvidenceOrder.ChainEndsInMaximum` | services/trading-service/Backend/application/broker_submission_intent.py:50-75 | from reconciliation_required any listing of a chain of evidence for one broker id, refused calls included, ends with that id and the maximum of the chain, all other rows untouched |
| `EvidenceOrder.OrderInsensitiveIffChain` | services/trading-service/Backend/application/broker_submission_intent.py:50-75 | every order with any duplicates of a set of evidence ends alike if and only if the set is a chain, and then in its maximum |
| `LocalOrders.LocalOrders` | services/trading-service/Backend/application/broker_reconciliation.py:707-804 | the dict filled source by source from the newest 500 rows each; its values have pairwise distinct broker ids |
| `LocalOrders.EntriesAreDistinctAndComplete` | services/trading-service/Backend/application/broker_reconciliation.py:707-804 | every order row of the mode and every listed open position with a broker id has its entry; only an order row gives a local id |
| `ReconciliationRun.Reconciler.TransitionLocalOrderIfPresent` | services/trading-service/Backend/application/broker_reconciliation.py:820-838 | writes the entry's own order row, if it has one, and no other; an unknown row raises |
| `ReconciliationRun.Reconciler.CreateOpenPosition` | services/trading-service/Backend/application/position_store.py:111-155 | appends the open position with a new time stamp |
| `ReconciliationRun.Reconciler.CloseOpenPosition` | services/trading-service/Backend/application/position_store.py:328-345 | closes the position if it is open |
| `ReconciliationRun.Reconciler.UpdateOpenPosition` | services/trading-service/Backend/application/position_store.py:275-325 | changes the entry price of an open position |
| `ReconciliationRun.Reconciler.RecordIntentEvidence` | services/trading-service/Backend/application/broker_reconciliation.py:62-96 | evidence call; only a missing intent may refuse it, any other refusal aborts the run |
| `ReconciliationRun.Reconciler.FixPositionDifferences` | services/trading-service/Backend/application/broker_reconciliation.py:841-885 | a differing quantity is reviewed, a differing price alone is fixed |
| `ReconciliationRun.Reconciler.ReconcileRejected` | services/trading-service/Backend/application/broker_reconciliation.py:419-473 | rejecting answer: evidence, order row, then review in live mode or close in paper mode |
| `ReconciliationRun.Reconciler.ReconcilePartial` | services/trading-service/Backend/application/broker_reconciliation.py:475-512 | partial fill: evidence, order row, position created, or the run aborts on a differing quantity |
| `ReconciliationRun.Reconciler.ReconcileFilledOrOpen` | services/trading-service/Backend/application/broker_reconciliation.py:514-553 | fill: evidence, order row, missing position created; otherwise price and quantity compared |
| `ReconciliationRun.Reconciler.ProtectionVerified` | services/trading-service/Backend/application/broker_reconciliation.py:289-343 | true iff not live, nothing at stake, or a verified stop of this very order covers the larger of reported fill and open position |
| `ReconciliationRun.Reconciler.ReconcileAnswer` | services/trading-service/Backend/application/broker_reconciliation.py:284-553 | the live gate and then the branch of the answer |
| `ReconciliationRun.Reconciler.ReconcileOrder` | services/trading-service/Backend/application/broker_reconciliation.py:136-282 | one turn: lookup, identity, durable identity, regression and confirmation checks before anything is written |
| `ReconciliationRun.Reconciler.ReconcileOrders` | services/trading-service/Backend/application/broker_reconciliation.py:136-553 | the loop over all entries, ended by an exception |
| `ReconciliationRun.Reconciler.CloseUnbacked` | services/trading-service/Backend/application/broker_reconciliation.py:578-626 | the second pass over the listed open positions |
| `ReconciliationRun.Reconciler.ReconcileBrokerState` | services/trading-service/Backend/application/broker_reconciliation.py:99-629 | the whole run equals its specification on stores and counters, whatever the broker and the other workers do |
| `ReconciliationRun.BuildIndex` | services/trading-service/Backend/application/broker_reconciliation.py:1025-1032 | the loop builds the index of the specification |
| `Reconciliation.FindPosition` | services/trading-service/Backend/application/position_store.py:182-216 | a position of that broker order and mode if there is one |
| `Reconciliation.UnheardTurn` | services/trading-service/Backend/application/broker_reconciliation.py:141-282 | a lookup that raises, answers for another order, conflicts, regresses or is terminal without confirmation changes no order, position or intent |
| `ReconciliationIntents.EncodingsAgree` | services/trading-service/Backend/application/broker_reconciliation.py:173-258 | on valid rows the identity check and transition table accept an observation iff the SQL guard does, except that the guard also refuses claimed rows |
| `ReconciliationIntents.EvidenceFailsOnlyIf` | services/trading-service/Backend/application/broker_reconciliation.py:82-96 | without interference an accepted answer's evidence aborts the run iff the intent is still claimed or another intent owns the broker id |
| `ReconciliationIntents.SettleIntents` | services/trading-service/Backend/application/broker_reconciliation.py:284-553 | settling an answer makes at most the one evidence call that the answer and the gate allow |
| `ReconciliationIntents.LoopIsProtocolRun` | services/trading-service/Backend/application/broker_reconciliation.py:136-553 | the loop touches the intents only through protocol calls, so it is one more worker of the intent protocol |
| `ReconciliationIntents.LoopCallsHaveOrigin` | services/trading-service/Backend/application/broker_reconciliation.py:141-386 | every call of the loop on the intents is another worker's, or evidence that an answer under that very broker id reported, confirmed if terminal, and that passed the live gate in the state its turn began in |
| `ReconciliationIntents.TerminalOnlyIfConfirmed` | services/trading-service/Backend/application/broker_reconciliation.py:62-96 | over a whole run an intent becomes filled, cancelled or rejected only by another worker's evidence of it or on a confirmed, gated answer whose id is the order's broker id |
| `ReconciliationIntents.UnsupportedAnswersKeepIntent` | services/trading-service/Backend/application/broker_reconciliation.py:141-282 | failed, expired, not_found, unconfirmed terminal, mismatching and raising lookups make no call on the intent: all calls on it are other workers', and without any it is exactly as it was |
| `ReconciliationIntents.TerminalNeedsEvidence` | services/trading-service/Backend/application/broker_submission_intent.py:50-75 | a row turns terminal only through evidence of that status, and carries its broker id |
| `ReconciliationIntents.RunKeepsIntentsValid` | services/trading-service/Backend/application/broker_reconciliation.py:99-629 | a run keeps the intent table valid and every row only evolves |
| `ReconciliationPositions.MismatchesAreAccounted` | services/trading-service/Backend/application/broker_reconciliation.py:888-1006 | mismatches equals fixed plus needs_review after every run, aborted ones included |
| `ReconciliationPositions.SettleEffect` | services/trading-service/Backend/application/broker_reconciliation.py:284-553 | what one answer may do to an existing position; any change needs the gate open |
| `ReconciliationPositions.TurnKeepsPosition` | services/trading-service/Backend/application/broker_reconciliation.py:284-553 | one turn changes only the open position of its own broker order, in live mode under a stop covering its quantity |
| `ReconciliationPositions.LoopKeepsPosition` | services/trading-service/Backend/application/broker_reconciliation.py:136-553 | the order loop never resizes or reopens a position and closes one only in paper mode on a confirmed rejection |
| `ReconciliationOrders.LoopOrdersAreJustified` | services/trading-service/Backend/application/broker_reconciliation.py:136-553 | a changed order row carries a status that an answer under its own id justifies; in live mode any but reconciliation_required needs a verified stop for the larger of reported fill and open position at that turn |
| `ReconciliationFills.NewPositionsRecordFills` | services/trading-service/Backend/application/broker_reconciliation.py:475-550 | every position the loop adds records what an answer under its own broker id reported; live partial fills only at a covered quantity |
| `ReconciliationSafety.UncoveredTurnOnlySuspends` | services/trading-service/Backend/application/broker_reconciliation.py:289-368 | a live turn with a reported fill or open exposure and no stop covering the larger of them changes nothing but the order row, to reconciliation_required |
| `ReconciliationSafety.UncoveredOrderIsFrozen` | services/trading-service/Backend/application/broker_reconciliation.py:289-386 | over a whole live loop, an order each of whose answers finds a reported fill or open exposure that no stop covers in full, judged in the state that turn begins in, is as before or waits for reconciliation; its positions are untouched, it gains none and only other workers call on its intent |
| `ReconciliationAborts.SettleAbortsIff` | services/trading-service/Backend/application/broker_reconciliation.py:284-553 | applying an answer raises iff its order row is missing where it is written, an existing intent refuses the evidence, or a partial fill meets a position of another quantity |
| `ReconciliationAborts.TurnAbortsIff` | services/trading-service/Backend/application/broker_reconciliation.py:136-553 | the same for a turn, on the state the other workers leave |
| `ReconciliationAborts.RunAbortsIff` | services/trading-service/Backend/application/broker_reconciliation.py:99-629 | a run ends in an exception iff one of its turns raises; the position pass never does |
| `ReconciliationExposure.GrownFillAborts` | services/trading-service/Backend/application/broker_reconciliation.py:506-511 | witness: a live partial fill of 5 on a recorded position of 3, with an active stop of 5, ends the run |
| `ReconciliationExposure.RecordsIff` | services/trading-service/Backend/application/broker_reconciliation.py:475-550 | an answer adds exactly one position, of the reported quantity, iff it reports a fill without a position, passes the gate and does not raise |
| `ReconciliationExposure.NewExposureIsCoveredIff` | services/trading-service/Backend/application/broker_reconciliation.py:296-298 | for a fill without a position the gate guarantees a stop for the whole quantity to be recorded iff the reported fill is positive and at least that quantity |
| `ReconciliationExposure.UncountedFillIsUncovered` | services/trading-service/Backend/application/broker_reconciliation.py:539-550 | witness: a live filled answer with fill count zero records a position of 10 with no stop at all |
| `ReconciliationRepeats.EchoedFillsAreRecordedOnce` | services/trading-service/Backend/application/broker_reconciliation.py:475-550 | with a broker that returns the id it was asked for, each broker order keeps at most one position a mode over every run, whatever else it answers |
| `ReconciliationRepeats.PaddedFillIsRecordedTwice` | services/trading-service/Backend/application/broker_reconciliation.py:1009-1022 | witness: with a broker that pads the id, two runs record one fill as two positions |
| `ReconciliationRepeats.NextRunRecordsAgainIff` | services/trading-service/Backend/application/broker_reconciliation.py:1009-1022 | a fill that one run records is recorded again by the next run iff the broker returned the order's id padded |
| `ReconciliationClosing.LoopClosesOnlyRejected` | services/trading-service/Backend/application/broker_reconciliation.py:450-472 | the order loop closes a position, old or its own, only in paper mode on a confirmed rejection of its submitted order |
| `ReconciliationClosing.PassClosesExactly` | services/trading-service/Backend/application/broker_reconciliation.py:555-626 | the second pass closes a position iff it is listed, holdings were fetched and hold none of it, and its lookup does not keep it; a raising or partially_filled lookup keeps nothing |
| `ReconciliationClosing.ListingMissesOnlyOlder` | services/trading-service/Backend/application/position_store.py:507-526 | an open position missing from the listing is older than all listed ones, and the listing is full |
| `ReconciliationClosing.IndexIsLastWins` | services/trading-service/Backend/application/broker_reconciliation.py:1025-1032 | the index holds exactly the last entry of each symbol and side |
| `ReconciliationClosing.BackedIffLastHolds` | services/trading-service/Backend/application/broker_reconciliation.py:582-588 | a holding backs a position iff the last entry of its symbol and side has a nonzero quantity |
| `ReconciliationClosing.ClosedOnlyIf` | services/trading-service/Backend/application/broker_reconciliation.py:450-626 | over a whole run a position, old or added by it, closes only on a confirmed paper rejection or when the fetched holdings hold none of it and its lookup does not keep it |
| `ReconciliationClosing.LiveClosedOnlyIfBrokerHoldsNone` | services/trading-service/Backend/application/broker_reconciliation.py:126-134 | in live mode a closed position, old or added by the run, needs fetched holdings whose last entry for it is not positive |
| `ReconciliationClosing.NotFoundKeepsOpen` | services/trading-service/Backend/application/broker_reconciliation.py:388-417 | an order whose every lookup answers not_found never has its position closed, in either mode |
| `ReconciliationClosing.SurvivorClosedIff` | services/trading-service/Backend/application/broker_reconciliation.py:578-626 | a position open and listed after the loop is closed by the run iff it is abandoned |
| `CandleFrames.SortSorts` | scripts/replay_nifty_smc.py:131 | sorting by time gives a non-decreasing permutation |
| `CandleFrames.SortOfSorted` | scripts/replay_nifty_smc.py:131 | a sorted frame is left as it is |
| `Normalization.AcceptedIsNormalized` | scripts/replay_nifty_smc.py:75-148 | an accepted frame is strictly increasing, gap-free inside days, aligned, inside the session and sane |
| `Normalization.NormalizedIsFixed` | scripts/replay_nifty_smc.py:75-148 | a frame is normalized iff normalizing it returns it unchanged |
| `Normalization.CloseStampsEquivalent` | scripts/replay_nifty_smc.py:110-111 | close stamps give the same result as the corresponding open stamps, errors included |
| `Resampling.GroupBars` | scripts/replay_nifty_smc.py:159-163 | the dict of groups holds for each key exactly its bars in order |
| `Resampling.BuildRows` | scripts/replay_nifty_smc.py:164-188 | one row for each complete, contiguous, aligned group in key order |
| `Resampling.ResampleComplete` | scripts/replay_nifty_smc.py:151-191 | the grouping and row loops compute the specified frame or the divisibility error |
| `Resampling.KeysOfFrame` | scripts/replay_nifty_smc.py:159-165 | the sorted group keys are exactly those of the bars |
| `Resampling.RowsMembers` | scripts/replay_nifty_smc.py:164-188 | a bar is in the rows iff it is the row of one of the keys |
| `Resampling.ResampleMembers` | scripts/replay_nifty_smc.py:164-191 | the result is strictly increasing and holds exactly the rows of complete groups |
| `ResampleLaws.RowOfAligned` | scripts/replay_nifty_smc.py:165-188 | on an aligned frame a group gives a row iff it has all its bars, stamped at the slot start |
| `ResampleLaws.ResampleAligned` | scripts/replay_nifty_smc.py:151-191 | the result is aligned to the target timeframe |
| `ResampleComposition.TwoStageIsOneStage` | scripts/replay_nifty_smc.py:151-191 | resampling in two stages gives the same bars as in one, for every source and every two factors; 1m to 5m to 15m is one case |
| `ResampleConservation.RowsAreSane` | scripts/replay_nifty_smc.py:181-188 | low <= open, close <= high and positive prices in every row |
| `ResampleConservation.VolumeOfCompleteGroups` | scripts/replay_nifty_smc.py:187 | the volume of the result is that of the bars of the complete groups |
| `Replay.ReplayFrame` | scripts/replay_nifty_smc.py:216-259 | the replay loop computes the events of the specification |
| `Replay.CompletedIsCausal` | scripts/replay_nifty_smc.py:230-232 | the completed 15m bars at a close are the same with and without later 5m bars |
| `Replay.ReplayIsEvents` | scripts/replay_nifty_smc.py:225-226 | the early exit on short frames loses no event |
| `Replay.ReplayIsCausal` | scripts/replay_nifty_smc.py:216-259 | for every cutoff the replay of the prefix equals the events of the full replay up to that close, for arbitrary detectors |
| `Replay.MakeReport` | scripts/replay_nifty_smc.py:262-292 | report or error as specified, with the runtime check at half the frame |
| `Replay.PrefixCheckNeverFires` | scripts/replay_nifty_smc.py:267-274 | on aligned frames the runtime check never fails; a report is given iff there are enough bars |
| `Replay.RunAudit` | scripts/replay_nifty_smc.py:318-328 | normalizing, resampling and reporting never end in the changed-signals failure |
| `Ohlcv.MergeSpans` | apps/frontend/src/hooks/useAutoSignals.ts:57-64 | a merged candle spans its group: extremes are bounds and attained |
| `Ohlcv.MergeOfMerges` | apps/frontend/src/hooks/useAutoSignals.ts:57-64 | merging merged groups equals merging all their candles |
| `SessionAggregation.AggregateCandles` | apps/frontend/src/hooks/useAutoSignals.ts:50-82 | the session loop with its flushes computes the grouped candles |
| `SessionAggregation.AggregateDailyCandles` | apps/frontend/src/hooks/useAutoSignals.ts:84-110 | the session loop computes one candle per run of a session |
| `SessionAggregation.BufferFlushes` | apps/frontend/src/hooks/useAutoSignals.ts:67-82 | flushing the buffered session aggregates all candles read so far, for groups and for daily candles |
| `SessionAggregation.SessionSpan` | apps/frontend/src/hooks/useAutoSignals.ts:74-79 | a session run is maximal and of one session |
| `SessionAggregation.GroupsCompose` | apps/frontend/src/hooks/useAutoSignals.ts:67-70 | inside a session groups of groups are groups of the product size |
| `SessionAggregation.ChunkComposition` | apps/frontend/src/hooks/useAutoSignals.ts:50-82 | aggregating by a and then by b equals aggregating by a*b, for all a, b >= 1 |
| `SessionAggregation.DailyAfterChunks` | apps/frontend/src/hooks/useAutoSignals.ts:84-110 | daily candles of aggregated candles equal the daily candles |
| `SessionAggregation.VolumeConserved` | apps/frontend/src/hooks/useAutoSignals.ts:63 | no group size loses or repeats volume |
| `OptionChain.ScanFindsFirst` | apps/frontend/src/pages/OptionChain.tsx:41-51 | the nested reduce keeps the first row of least pain |
| `OptionChain.PainAffine` | apps/frontend/src/pages/OptionChain.tsx:44-49 | between neighbouring strikes the pain is affine |
| `OptionChain.PainBelow` | apps/frontend/src/pages/OptionChain.tsx:44-49 | below all strikes the pain grows with the total call open interest |
| `OptionChain.PainAbove` | apps/frontend/src/pages/OptionChain.tsx:44-49 | above all strikes the pain grows with the total put open interest |
| `OptionChain.SomeStrikeAsGood` | apps/frontend/src/pages/OptionChain.tsx:44-49 | no settlement price beats every listed strike when both totals are non-negative |
| `OptionChain.NegativeTotalsUnbounded` | apps/frontend/src/pages/OptionChain.tsx:44-49 | with a negative total the pain has no least value |
| `OptionChain.PainIsSwappedPayout` | apps/frontend/src/pages/OptionChain.tsx:46-48 | the pain is what option writers pay on the chain with its two open-interest columns exchanged |
| `OptionChain.OrientationMatters` | apps/frontend/src/pages/OptionChain.tsx:46-48 | a chain on which the picked strike costs the writers more than the other one |
| `OptionChain.MaxPainIsGlobal` | apps/frontend/src/pages/OptionChain.tsx:37-52 | the picked strike is the first row of least pain, and least over every settlement price iff both totals are non-negative |
| `BacktestWorker.BacktestService.StartBacktestJob` | services/trading-service/Backend/application/backtest_jobs.py:213-229 | object, record and submitted worker of a new job |
| `BacktestWorker.BacktestService.PersistJob` | services/trading-service/Backend/application/backtest_jobs.py:386-389 | lease renewal of a recovery owner, object and record written, a failing save leaving the record |
| `BacktestWorker.BacktestService.CancelBacktestJob` | services/trading-service/Backend/application/backtest_jobs.py:240-254 | sets the flag, cancels an unfinished job, persists; other jobs untouched |
| `BacktestWorker.BacktestService.PickJob` | services/trading-service/Backend/application/backtest_jobs.py:271-286 | the first locked block and the list of strategies still to run |
| `BacktestWorker.BacktestService.AnnounceStrategy` | services/trading-service/Backend/application/backtest_jobs.py:286-295 | the locked block before a calculation |
| `BacktestWorker.BacktestService.PublishRun` | services/trading-service/Backend/application/backtest_jobs.py:307-327 | the locked block after it: the run with its metrics appended, or nothing on a stopped job |
| `BacktestWorker.BacktestService.FinishJob` | services/trading-service/Backend/application/backtest_jobs.py:329-340 | the final block, which keeps CANCELLED |
| `BacktestWorker.BacktestService.ExpireJob` | services/trading-service/Backend/application/backtest_jobs.py:343-354 | the hard-timeout block |
| `BacktestWorker.BacktestService.FailJob` | services/trading-service/Backend/application/backtest_jobs.py:355-369 | the failure block, which never overwrites a cancellation |
| `BacktestWorker.BacktestService.RunBacktestJob` | services/trading-service/Backend/application/backtest_jobs.py:271-369 | the whole worker, with cancellations between its blocks, ends and is a run of the job life cycle |
| `BacktestWorker.BacktestService.ClaimRecoverable` | services/trading-service/Backend/application/backtest_job_store.py:116-155 | the claim loop returns and stamps exactly the selected rows with a free lease |
| `BacktestWorker.BacktestService.SubmitResumable` | services/trading-service/Backend/application/backtest_jobs.py:378-382 | loads and submits exactly the claimed jobs that can go on |
| `BacktestWorker.BacktestService.EnsureRecoveredJobs` | services/trading-service/Backend/application/backtest_jobs.py:372-383 | recovery once per process, on every job the life cycle's recovery step |
| `BacktestLaws.StepKeepsInv` | services/trading-service/Backend/application/backtest_jobs.py:240-383 | each block, cancellation, crash and recovery keeps the coherence of memory, record and worker |
| `BacktestLaws.DecidedStays` | services/trading-service/Backend/application/backtest_jobs.py:271-383 | COMPLETED, FAILED, CANCELLED and hard-timed-out records keep status and partial results for ever; a hard timeout can still be cancelled |
| `BacktestLaws.CancellationIsPermanent` | services/trading-service/Backend/application/backtest_jobs.py:240-369 | within one process a cancelled job stays cancelled and gains no result |
| `BacktestExactlyOnce.RemainingAfterPrefix` | services/trading-service/Backend/application/backtest_jobs.py:285-286 | after n strategies of a duplicate-free list exactly the others are to do |
| `BacktestExactlyOnce.ExactlyOnce` | services/trading-service/Backend/application/backtest_jobs.py:271-383 | with a duplicate-free list durable results are a prefix of it in order, counted by completed_strategies; COMPLETED means one per strategy |
| `BacktestExactlyOnce.CompletedLacksNothing` | services/trading-service/Backend/application/backtest_jobs.py:285-340 | for any list a completed job has a result of every requested strategy |
| `BacktestExactlyOnce.RestartForgetsRepeat` | services/trading-service/Backend/application/backtest_jobs.py:285-286 | a restart drops a repeated strategy whose first run was saved |
| `BacktestExactlyOnce.ExactlyOnceIffNoDuplicates` | services/trading-service/Backend/application/backtest_jobs.py:285-286 | one result per strategy in every completed job is guaranteed iff the list has no duplicates |
| `BacktestExactlyOnce.ResumableCanComplete` | services/trading-service/Backend/application/backtest_jobs.py:372-383 | a resumable job can be completed after a crash, keeping its saved results and adding one for each remaining strategy |
| `BacktestRecovery.CrashedCanCompleteIff` | services/trading-service/Backend/application/backtest_jobs.py:329-383 | from any reachable state, an undecided job can be completed after a crash, without a cancellation, iff its record still misses a result; otherwise recovery never resumes it |
| `BacktestRecovery.EveryListCanStrand` | services/trading-service/Backend/application/backtest_jobs.py:329-340 | witness for every list: all results saved, a crash before the final block, and no run without a cancellation completes the job |
| `BacktestRecovery.DeadStays` | services/trading-service/Backend/application/backtest_jobs.py:372-383 | a job without a worker that recovery leases but does not resume stays unfinished for ever, unless it is cancelled |
| `BacktestRecovery.HardTimeoutIsDead` | services/trading-service/Backend/application/backtest_jobs.py:343-354 | a hard timeout is such a job |
| `BacktestRecovery.CancellationSurvivesIffSaved` | services/trading-service/Backend/application/backtest_jobs.py:240-254 | a cancellation of an unfinished job is there after every crash and all that follows iff its save succeeded; if not, the job can even complete when its record misses a result |
| `BacktestRecovery.DeadRowsBlockForEver` | services/trading-service/Backend/application/backtest_job_store.py:128-141 | once limit older rows are dead no claim at any time reaches a younger row, whatever happens to the other rows, while nobody cancels them |
| `BacktestClaims.EverClaimedIff` | services/trading-service/Backend/application/backtest_job_store.py:128-141 | on a table that stays as it is a row gets claimed at some time iff it is unfinished, not cancelled and inside the limit |
| `BacktestClaims.Selected` | services/trading-service/Backend/application/backtest_job_store.py:128-137 | at most limit rows, all unfinished |
| `BacktestClaims.ClaimedIff` | services/trading-service/Backend/application/backtest_job_store.py:116-171 | a row is claimed iff it is unfinished, its lease is free and fewer than limit unfinished rows are older |
| `BacktestClaims.ClaimsAreDisjoint` | services/trading-service/Backend/application/backtest_job_store.py:167-171 | two claims within one lease share no row |
| `CircuitBreaker.Breaker.RecentFailures` | services/trading-service/Backend/application/broker_circuit_breaker.py:209-216 | the loop keeps exactly the failures of the window |
| `CircuitBreaker.Breaker.Status` | services/trading-service/Backend/application/broker_circuit_breaker.py:55-79 | reports activity, count, limits and times, and takes back an expired activation |
| `CircuitBreaker.Breaker.RecordFailure` | services/trading-service/Backend/application/broker_circuit_breaker.py:86-133 | prunes, appends and activates at the threshold while inactive |
| `CircuitBreaker.Breaker.ResetCircuit` | services/trading-service/Backend/application/broker_circuit_breaker.py:136-150 | forgets everything |
| `CircuitHistory.StoredIsHistory` | services/trading-service/Backend/application/broker_circuit_breaker.py:97-111 | seen from any time not before the sections so far, the pruned list shows the same failures as the full history, whatever the order of times |
| `CircuitHistory.RecordStoresWindow` | services/trading-service/Backend/application/broker_circuit_breaker.py:99-101 | with a monotone clock a record stores exactly the window of the history |
| `CircuitHistory.FlagFollowsHistory` | services/trading-service/Backend/application/broker_circuit_breaker.py:104-111 | the stored flag and cooldown are those of the last trip of the history |
| `CircuitHistory.ActivatesIffTrips` | services/trading-service/Backend/application/broker_circuit_breaker.py:104-109 | a record activates iff the history trips |
| `CircuitHistory.StatusIsHistory` | services/trading-service/Backend/application/broker_circuit_breaker.py:55-79 | with a monotone clock every report is the one of the full history, active exactly until the last trip plus cooldown |
| `CircuitHistory.LateCommitIsUndercounted` | services/trading-service/Backend/application/broker_circuit_breaker.py:94-99 | out of time order a report can count fewer failures than the history: two for three, for every configuration |
| `CircuitHistory.TripsAreApart` | services/trading-service/Backend/application/broker_circuit_breaker.py:104-109 | two trips without a reset are at least a cooldown apart |
| `CircuitHistory.BurstTrips` | services/trading-service/Backend/application/broker_circuit_breaker.py:97-111 | a threshold of failures in one window always leaves the breaker active, even with times out of order |
| `CircuitLock.LockSerializes` | services/trading-service/Backend/application/broker_circuit_breaker.py:32-52 | under the lock every interleaving of lock, load, save, unlock and process death leaves the file of a serial order |
| `CircuitLock.UnlockedLosesFailure` | services/trading-service/Backend/application/broker_circuit_breaker.py:42-45 | without the lock one of two simultaneous failures is lost |
| `CircuitLock.SerialIffLocked` | services/trading-service/Backend/application/broker_circuit_breaker.py:32-52 | the file is serial for every interleaving iff the lock is there |
| `CircuitLock.NoLostFailures` | services/trading-service/Backend/application/broker_circuit_breaker.py:97-111 | under the lock every saved failure inside the window is in the file |
| `CircuitLock.ConcurrentBurstTrips` | services/trading-service/Backend/application/broker_circuit_breaker.py:97-111 | a threshold of concurrent failures in one window trips the breaker |
| `FoodTruckService.Service.PriceItems` | services/foodtruck-api/app/main.py:763-800 | lines and running totals, or the first item that cannot be sold |
| `FoodTruckService.Service.CreateOrder` | services/foodtruck-api/app/main.py:533-677 | a completed cash or UPI order with its lines and totals, or the error |
| `FoodTruckService.Service.CreateRazorpayOrder` | services/foodtruck-api/app/main.py:731-963 | a pending order, then a created payment or a failed order |
| `FoodTruckService.Service.VerifyRazorpayPayment` | services/foodtruck-api/app/main.py:966-1105 | captures after all checks, or the first error with nothing changed |
| `FoodTruckService.Service.RazorpayWebhook` | services/foodtruck-api/app/main.py:1108-1333 | signature, secret and JSON errors; captured, paid and failed events; a captured payment is not failed |
| `FoodTruckService.Service.Dashboard` | services/foodtruck-api/app/main.py:1549-1641 | on any tables count, food cost, sales by method, expenses, profit, average and cash balance are those of completed orders and expenses; the sales add up when every order has one of the three methods, and Razorpay sales are the captured amounts when the books are settled |
| `FoodTruckLaws.PaiseIsExact` | services/foodtruck-api/app/main.py:808-810 | amount_paise is exactly 100 times a total in two decimals |
| `FoodTruckLaws.PricedInCents` | services/foodtruck-api/app/main.py:763-800 | menu prices in two decimals give totals in two decimals |
| `FoodTruckLaws.ExecKeepsInv` | services/foodtruck-api/app/main.py:533-1333 | over all request sequences, failed-webhook statements interleaved: totals are sums of lines, paise 100 times them, a captured payment's order is completed |
| `FoodTruckLaws.RequestsFromEmptyTables` | services/foodtruck-api/app/main.py:533-1333 | from empty tables every request sequence keeps these, and a serial one leaves captured iff completed |
| `FoodTruckLaws.CompletedIsAbsorbing` | services/foodtruck-api/app/main.py:1085-1097 | a completed order stays completed, even interleaved |
| `FoodTruckLaws.SerialRequestsSettle` | services/foodtruck-api/app/main.py:966-1333 | with serial requests captured iff completed, and Razorpay sales equal the captured amounts |
| `FoodTruckLaws.CapturedIsAbsorbing` | services/foodtruck-api/app/main.py:1284-1285 | with serial requests a captured payment stays captured |
| `FoodTruckLaws.StaleFailureSettlesIff` | services/foodtruck-api/app/main.py:1264-1305 | a failed-payment write that comes after its read keeps the books iff no capture came between |
| `FoodTruckLaws.CaptureCanBeOverwritten` | services/foodtruck-api/app/main.py:1264-1305 | that interleaving exists for every uncaptured payment |
| `FoodTruckLaws.SalesArePartitioned` | services/foodtruck-api/app/main.py:1553-1582 | sales split into the three payment methods |
| `MarketDownloader.Downloader.GetLatestTimestamp` | services/market-data-service/app/repository/candle_repository.py:276-295 | the newest stored time of the series, or none |
| `MarketDownloader.Downloader.SaveFrame` | services/market-data-service/app/repository/candle_repository.py:76-240 | new rows inserted or nothing on a key violation, then the cache set to the last candle unless its write raises after the commit |
| `MarketDownloader.Downloader.Backfill` | services/market-data-service/app/services/backfill_service.py:14-58 | one save for each window until a call raises |
| `MarketDownloader.Downloader.DownloadSymbol` | services/market-data-service/app/scheduler/downloader.py:18-274 | backfill of an empty series, then the incremental fetch |
| `MarketDownloader.Downloader.DownloadMarketData` | services/market-data-service/app/scheduler/jobs.py:33-92 | nothing outside market hours, otherwise symbol after symbol until one raises |
| `MarketDataLaws.WindowsPartition` | services/market-data-service/app/services/backfill_service.py:32-56 | the windows are adjacent, of at most 31 dates, from the first date to the last |
| `MarketDataLaws.DateInOneWindow` | services/market-data-service/app/services/backfill_service.py:32-56 | every date of the range is in exactly one window, no other date in any |
| `MarketDataLaws.WindowCount` | services/market-data-service/app/services/backfill_service.py:32-56 | the number of calls is the least that 31 dates a call allow |
| `MarketDataLaws.SaveAheadStores` | services/market-data-service/app/repository/candle_repository.py:76-240 | a save of newer candles commits distinct ones, whatever becomes of the cache write, and nothing otherwise |
| `MarketDataLaws.SaveAheadCoherentIff` | services/market-data-service/app/repository/candle_repository.py:76-240 | it keeps the cache at the newest candle iff nothing was committed or the cache write succeeded |
| `MarketDataLaws.BackfillKeepsCoherent` | services/market-data-service/app/services/backfill_service.py:32-56 | with a working cache a backfill keeps it at the newest candle, even when a call raises or an insert is refused |
| `MarketDataLaws.FetchStoresAndCaches` | services/market-data-service/app/scheduler/downloader.py:70-258 | the incremental fetch stores exactly the newer times, keeps the cache iff its write succeeded, and a successful write repairs a cache that fell behind |
| `MarketDataHistory.BackfillStoresAll` | services/market-data-service/app/services/backfill_service.py:32-58 | a backfill that succeeds leaves exactly the old times and all answered ones, and its total is what was added |
| `MarketDataHistory.MissedDatesStayMissing` | services/market-data-service/app/scheduler/downloader.py:45-77 | a series with one candle is never backfilled again: over all later cycles only dates within the last five days are added, so the gap of a broken backfill stays |
| `MarketDataLaws.SharedKeyAgreesIff` | services/market-data-service/app/cache/redis_client.py:14-28 | after another interval of a symbol is saved the cache agrees with this one iff it has no candle |
| `MarketDataLaws.CacheIsNewest` | services/market-data-service/app/scheduler/downloader.py:18-274 | from empty stores and with a working cache, after any sequence of cycles, provider calls that raise included, the cached candle of every symbol is the newest row of the table |
| `IntentOutcomes.SpellingsCollideIff` | services/trading-service/Backend/application/broker_submission_intent.py:31 | two spellings of a logical key are one key iff their texts without surrounding blanks are equal up to case |
| `IntentOutcomes.ClaimIff` | services/trading-service/Backend/application/broker_submission_intent.py:18-36 | a claim succeeds iff id and key are given, id and correlation are new and no unresolved order has the key; the new row, or the unchanged table |
| `IntentOutcomes.MarkIff` | services/trading-service/Backend/application/broker_submission_intent.py:39-47 | the send boundary is crossed exactly from claimed, and nothing but the status moves |
| `IntentOutcomes.EvidenceIff` | services/trading-service/Backend/application/broker_submission_intent.py:50-75 | on every reachable table evidence is recorded iff it is known, the row awaits it and no other row owns the broker id; the error of each other case, and all other rows as they were |
| `IntentOutcomes.NoSecondClaim` | services/trading-service/Backend/application/broker_submission_intent.py:18-36 | in every run no second order of a key is claimed while the first is unresolved, however either spells the key |
| `ReconciliationOutcomes.FoundIsLatest` | services/trading-service/Backend/application/position_store.py:182-216 | the position found is the last updated one of the broker order and mode, none iff there is none |
| `ReconciliationOutcomes.GateIsCover` | services/trading-service/Backend/application/broker_reconciliation.py:289-343 | the gate is open iff the mode is paper, nothing is reported filled or held, or a confirmed active stop of this order is left for both |
| `ReconciliationOutcomes.SettledOutcome` | services/trading-service/Backend/application/broker_reconciliation.py:284-553 | what an answer that does not raise leaves in order rows, intents, positions and counters, in each of six situations, with the fields of a recorded position and of a corrected price |
| `ReconciliationTurns.HeardIff` | services/trading-service/Backend/application/broker_reconciliation.py:141-282 | on every reachable intent table exactly these answers are acted on: of this order, confirmed if an end, and neither contradicting nor going behind the intent |
| `ReconciliationTurns.TurnOutcome` | services/trading-service/Backend/application/broker_reconciliation.py:136-553 | every turn that does not raise leaves that outcome, and one without an answer to act on leaves only its counters |
| `ReconciliationTurns.RowAfterLoop` | services/trading-service/Backend/application/broker_reconciliation.py:136-553 | what the last turn of an order row leaves in it, status, broker id, word and price, is there when the loop is over |
| `ReconciliationTurns.RowAfterRun` | services/trading-service/Backend/application/broker_reconciliation.py:284-553 | after every run that does not raise the row of an entry says what the answer means for it: reconciliation_required without cover or when not found, the rejection, partially_filled or filled, under its broker id, or it is unchanged |
| `ReconciliationCounters.PassCounts` | services/trading-service/Backend/application/broker_reconciliation.py:555-626 | one review for each holding no listed position has, one fix for each position closed, all listed positions and holdings counted |
| `ReconciliationCounters.RunCounts` | services/trading-service/Backend/application/broker_reconciliation.py:99-629 | the orders asked about, the lookups that failed and the positions looked at, over a whole run |
| `LocalOrderContents.EntryTells` | services/trading-service/Backend/application/broker_reconciliation.py:707-804 | an entry comes from the last order row, else the first paper trade, else the first audit row, else the last listed position, which always gives the quantity |
| `ResampleRows.RowIff` | scripts/replay_nifty_smc.py:165-188 | on any group: a row iff the bars are one for each step from a start on the grid, whatever their order; open, close, extremes and volume of the row |
| `ResampleRows.RowsExactly` | scripts/replay_nifty_smc.py:151-191 | a bar is in the result of any frame iff its group has that form and the bar spans it |
| `NormalizationOutcomes.NormalizeIff` | scripts/replay_nifty_smc.py:75-148 | a file in any order is accepted iff it has none of eight faults read off its rows, and otherwise the error is the first of them; an accepted one comes back ordered, the same bars with opening stamps |
| `NormalizationOutcomes.GapsIff` | scripts/replay_nifty_smc.py:131-135 | the gap check on the sorted frame is a condition on rows with none between them in the file |
| `ReplayEvents.ZonesAreListed` | scripts/replay_nifty_smc.py:243-252 | the zones of an event are the gaps and order blocks on the side of the trend, in order and rounded |
| `ReplayEvents.ReplayReportsExactly` | scripts/replay_nifty_smc.py:216-259 | the bars reported are exactly those from the 30th on with eight completed 15m bars, a trend with a side and a valid trigger, in order, and every field of their events |
| `AggregationOutcomes.GroupAt` | apps/frontend/src/hooks/useAutoSignals.ts:50-71 | a session gives as many candles as it takes; the j-th is stamped, opened, closed, bounded and summed over candles j*size to (j+1)*size or the end |
| `AggregationOutcomes.SessionsAreSeparate` | apps/frontend/src/hooks/useAutoSignals.ts:72-110 | every session contributes its own groups, or its one daily candle, between those of the candles before and after it |
| `BacktestOutcomes.ResultsHaveOrigin` | services/trading-service/Backend/application/backtest_jobs.py:300-327 | over every interleaving the k-th durable result, partial or final, has the metrics of a calculation of its strategy that ended when exactly k results were there |
| `BacktestOutcomes.StepOutcome` | services/trading-service/Backend/application/backtest_jobs.py:240-383 | in every reachable state what each event leaves of object, record, lease and worker: each field written by each block, request, crash and recovery |
| `FoodTruckOutcomes.PricedIff` | services/foodtruck-api/app/main.py:763-800 | items are priced iff all can be sold, at price times quantity; otherwise the first that cannot is named |
| `FoodTruckOutcomes.CapturedIff` | services/foodtruck-api/app/main.py:966-1333 | in any state a step captures a payment iff it is a signed check of it that the provider confirms, or a paid notification for it with its amount or none |
| `FoodTruckOutcomes.CaptureIsEarned` | services/foodtruck-api/app/main.py:966-1333 | over every request sequence, interleaved or not, no payment is captured without such a request |
| `FoodTruckOutcomes.SerialCapturedIff` | services/foodtruck-api/app/main.py:966-1333 | with serial requests from empty tables the captured payments are exactly those with such a request |
| `FoodTruckOutcomes.PlaceOutcome` | services/foodtruck-api/app/main.py:533-677 | the stored order with its lines and totals, or the refusal with nothing stored |
| `FoodTruckOutcomes.BeginOutcome` | services/foodtruck-api/app/main.py:731-840 | the pending order, or the refusal with nothing stored |
| `FoodTruckOutcomes.EndOutcome` | services/foodtruck-api/app/main.py:805-963 | a payment over exactly the order's total, or the failed order |
| `FoodTruckOutcomes.CheckOutcome` | services/foodtruck-api/app/main.py:966-1105 | the first fault of a check and nothing changed, or payment and order after the capture |
| `FoodTruckOutcomes.NotifyOutcome` | services/foodtruck-api/app/main.py:1176-1333 | payment and order after each kind of notification, or nothing changed |
| `MarketDataOutcomes.DownloadStores` | services/market-data-service/app/scheduler/downloader.py:45-258 | a first download that succeeds leaves exactly the times answered for the windows of 365 days and the newer recent ones, any later one the old times and the newer recent ones; it counts what the recent answer added |
| `MarketDataOutcomes.DownloadGainsAnswers` | services/market-data-service/app/scheduler/downloader.py:45-258 | whatever raises, a download changes no stored row and adds only candles the provider answered |
| `MarketDataOutcomes.BackfillSucceedsIff` | services/market-data-service/app/services/backfill_service.py:32-58 | a backfill of dates after all stored ones succeeds iff every window is answered without a repeated time and can be cached |
| `MarketDataOutcomes.DownloadSucceedsIff` | services/market-data-service/app/scheduler/downloader.py:70-274 | a later download succeeds iff the recent answer comes and, if any of it is newer, both cache writes succeed |
| `MarketDataOutcomes.CycleGoesThrough` | services/market-data-service/app/scheduler/jobs.py:33-92 | inside market hours symbol after symbol is downloaded, each on what the one before left, up to the first that raises; outside nothing changes |
| `CircuitOutcomes.RecordOutcome` | services/trading-service/Backend/application/broker_circuit_breaker.py:86-133 | a failure joins exactly those of the window; the threshold opens a breaker whose cooldown does not run, with time, count and a new cooldown, and nothing else moves |
| `CircuitOutcomes.StatusOutcome` | services/trading-service/Backend/application/broker_circuit_breaker.py:55-79 | a status request takes back exactly an expired activation; every field of its report |
| `MarketDataOutcomes.FetchStoresFirst` | services/market-data-service/app/scheduler/downloader.py:70-175 | of a recent answer that repeats a time the first candle is stored |
| `FoodTruckOutcomes.PaiseIsNearest` | services/foodtruck-api/app/main.py:808-810 | any total goes to the nearest paisa, halves to the even one |

## Left out

- Reconciliation: stale-order recovery before the loop, paper-trade status rows, audit rows, alerts and protection episodes, and the status file; a failing audit write is not modelled.
- Reconciliation: current and exit prices, profit and loss, stop and target of a position; numbers in raw holdings are taken as parsed, with integer quantities.
- Reconciliation: the store's price refresh stamps open positions while listing them; the model's time stamps move only when a run writes, so which of several positions of one broker order is newest may differ.
- ListingMissesOnlyOlder: takes newest to mean the highest id; the store orders by `updated_at`, which its refresh has just stamped on all open rows in the order of an unordered query (`position_store.py:522, 615-626`).
- Reconciliation: the listing of open positions follows the SQLAlchemy store, which filters by mode before the limit of 100 (`position_store.py:507-526`); the SQLite store filters after it.
- Reconciliation: the validation of stored modes; the entries handed to `ReconcileBrokerState` are arbitrary, and `LocalOrders` shows how they are gathered.
- Reconciliation: other workers act on the intents only; order and position rows have one writer during a run.
- Statuses are words after trimming, lower-casing and joining blanks; upper-casing and trimming of ids cover ASCII.
- ChainEndsInMaximum: assumes, like `DeliveriesSettle`, that no other intent owns the broker id; otherwise `EvidenceIntegrity` says that the delivery is refused.
- LoopKeepsPosition: bounds what may happen to a position in the order loop; exactly when its entry price is corrected is `TurnOutcome`.
- CreateOpenPosition: keeps broker id, mode, symbol, side, quantity and entry price; current price, stop, target and opening time play no part in a run's decisions.
- CloseOpenPosition: keeps that the position is closed and when; exit price, reason and closed profit and loss are absent.
- UpdateOpenPosition: changes the entry price only, the one field a run passes with a dict of changes; the current price it passes along is absent.
- ReconcileBrokerState: starts after stale-order recovery, and its audit rows and status file are absent.
- NextRunRecordsAgainIff: is stated for runs over one entry without other workers, which is where the repetition shows.
- Circuit breaker: of the reason text the number of failures it names is kept.
- Replay: provider-label checks, CSV and database loading, rounding of reported numbers, and the zone fields beyond what a pure detector returns.
- Normalization: parsing of stamps, naive time zones and non-numeric cells; a missing price is a case of the input.
- Backtest: process pools, host slot, memory and wall-clock limits (their outcomes are arbitrary), payload, ranking of results and the public snapshot.
- Backtest: two live processes working on one job at once; the code gives jobs started normally no lease, so one owner at a time is assumed.
- CancellationIsPermanent: covers status and partial results; the final block still sets `result` on a cancelled job.
- ClaimRecoverable: rows come in order of creation time as a list; the PostgreSQL variant's row locks are not modelled.
- Circuit breaker: an unreadable state file, which is treated as empty, alerts and audit rows.
- StatusIsHistory: is stated for sections whose times do not go back; for other orders `StoredIsHistory` and `BurstTrips` hold.
- Frontend: `Number(...)` of malformed fields, the put-call ratio and all rendering; floating point is modelled by reals.
- Max pain: the reduce's start value with infinite pain is an absent pain.
- Food truck: signatures are one boolean, the provider's answers and order numbers are parameters, expenses and stock are absent; the draw of a free order number does not end once all 9000 are taken.
- SerialRequestsSettle: is stated for requests handled one at a time; `ExecKeepsInv` and `CompletedIsAbsorbing` hold with interleaved statements.
- Market data: cache expiry after an hour, time-zone conversion of stored stamps, provider-side filtering to market hours and the numeric cleaning of provider frames; a missing security id is a symbol left off the list.
- CacheIsNewest: is stated for providers that answer inside the asked dates, for cache writes that succeed and for one interval a symbol; the other cases are `SaveAheadCoherentIff` and `SharedKeyAgreesIff`.
- MissedDatesStayMissing: is stated for providers whose incremental answer lies in the five days asked for.
- Dashboard: the menu and stock counts are absent.
