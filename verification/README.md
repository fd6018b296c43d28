# Verified models of A-Share Quant

Dafny models of the parts of the system that keep state or promise exact arithmetic, with proofs of
what they promise. `dafny verify dfyconfig.toml` checks everything.

Money is an integer number of cents in the account ledger and a real number elsewhere; fill prices are
integers of 1/10000 yuan, plan prices integers of 0.01 yuan; dates are integer day numbers. Where the
source changes state, a class has the same fields and methods, each method proved equal to a
specification function of the old state; the theorems are about those functions and hold for every
input and every run of them.

## What is modelled

- **Account ledger** (`Rounding`, `Contracts`, `FeeRules`, `Ordering`, `Replay`, `LedgerModel`, `LedgerRules`,
  `LedgerFindings`, `AccountLedger`). Replaying fills into FIFO lots with T+1 release and per-lot cost allocation rounded to
  the cent; fills, corrections, rollback, rebuilding from records. `Replay.ReplayIffFeasible` is the
  central statement: the FIFO machine accepts a history exactly when counting cash and shares, without
  any lots, admits each fill; `LedgerRules` adds which fills and corrections a ledger accepts. `LedgerModel.ReplayEquivalence` and `SameVerdicts` say that a ledger and
  its reload cannot be told apart.
- **Record store and confirmation** (`LedgerStore`, `AccountService`, `Reimport`). The hash chain over an
  abstract digest; the dry run on a copy followed by store write and ledger write per fill, with a crash
  between the two; and confirming the same file again after a restart.
- **End-of-day coordinator** (`EodModel`, `EodSafety`, `EodProgress`, `EodOutcomes`, `EodCoordinator`). One step per locked section,
  so that requests, other threads and crashes fall in between; the invariant ties the retry budget, the
  backoff, completions and the pending request to observers the coordinator itself never reads. `EodProgress` says what must start, `EodSafety` what must not.
- **Daily publication journal** (`DailyBundle`, `BundleContents`). Two file replacements and a journal, cut off after any
  number of atomic effects, and what the files hold in between.
- **Backtest** (`Evaluator`, `EvaluatorSafety`, `EvaluatorRules`, `EvaluatorAccounts`, `EvaluatorCausality`). The day loop in
  exact arithmetic: who is sold and bought, what trading costs, what the log says about cash, and causality, which compares two
  runs whose inputs differ only later.
- **Prospective competition** (`TradingCalendar`, `Competition`, `Statistics`, `CompetitionMetrics`, `Contest`,
  `CompetitionRules`, `ContestRules`). Sessions and maturities; the shared append-only ledger file, read by processes whose view
  may be old; metrics; the registration and approval states.
- **Risk sizing and price plans** (`Lots`, `RiskSizing`, `PriceGuidance`). Whole-lot sizing is the exact
  greatest solution of its limits; plans are characterised on the grid of price ticks; the overlay's
  answers partition the prices.

## Where the code does less than it says

The models follow the code. Each point has a concrete example and, where possible, the exact condition.

- A correction is revalidated only up to its own date (`ledger.py:226-234`): a correction of an earlier buy
  can leave a later sell without shares. `LedgerFindings.CorrectionCanBreakALaterDay`,
  `LedgerModel.CorrectionReplayableIff`.
- `ledger.py:54` calls duplicate event ids idempotent, but `record_fill` makes its own checks first, so a
  recorded sell sent again can raise. A repeated or resumed confirmation, which `service.py:19-20` calls safe
  after a restart, inherits that. If the fills read again are stamped behind everything of their date, it goes
  through exactly when the sells already recorded find their shares a second time, and otherwise leaves the
  rest of the batch unrecorded; with equal stamps the order of ids decides, and it can be refused for that
  alone. `LedgerModel.ResubmissionIff`, `LedgerFindings.ResubmittedSellCanRaise`,
  `AccountService.RepeatedConfirmationIff`, `AccountService.ResumeIff`, `Reimport.InterruptedConfirmationIff`,
  `Reimport.EqualStampsCanRefuse`.
- Only buys are checked against cash; a sell whose fees exceed its notional can overdraw it.
  `LedgerFindings.CashNonNegativeIff`, `LedgerFindings.SellCanOverdrawCash`.
- `store.py:20` says that loading detects truncation; a file cut at the end of any row validates.
  `LedgerStore.TruncationStaysValid`; what is detected is `LedgerStore.EditIsRejectedUnless`.
- A calendar failure overwrites the error code on which the coordinator's pause rests, so that another day
  may start without a review. `EodSafety.PauseHoldsThroughoutIff`, `EodSafety.RefreshStartsWithoutReview`.
- `record_observations` stores the counters before it raises for claimed gates without metrics, so the
  status can lag behind them; it can never run ahead. `Contest.StatusBehindIff`,
  `Contest.StatusLagsAfterARaise`.
- `register_version` stores a new version before it rejects a blank model name, so an unobserved version
  can keep the evidence, and the approval status, of the one before. `Contest.NewVersionStartsOverUnless`,
  `Contest.ApprovalCarriesOver`.
- The registration a contest was started with is refused once `register_version` has changed its version.
  `Contest.RestartIff`.
- The single-name cap of the risk engine bounds one purchase, not the name: a holding at the cap may be bought
  again. `RiskSizing.NamePastCapIff`, `RiskSizing.NameAtCapMayBuyMore`.
- At a slippage of exactly one a sale of the backtest brings in nothing and logs nothing.
  `EvaluatorAccounts.RunConserves`.
- The reason `PRICE_BOUNDARIES_INCONSISTENT` of the price engine cannot occur. `PriceGuidance.ReasonsIff`.

## Model

| member | source | states |
|---|---|---|
| Rounding.HalfUp | src/a_share_quant/account/contracts.py:29-34 | money and prices round to the nearest unit, ties away from zero |
| Rounding.HalfUpMonotone | src/a_share_quant/account/contracts.py:29-34 | rounding never reverses an order |
| Rounding.HalfEven | src/a_share_quant/features/price_guidance.py:46-47 | adjusted prices round to the nearest unit, ties to the even one |
| Rounding.HalfUpShareBounds | src/a_share_quant/account/ledger.py:290-294 | a rounded share of a non-negative amount lies between zero and the amount |
| Contracts.Fees | src/a_share_quant/account/contracts.py:86-104 | the fee total of a fill is never negative; what it is, `FeeRules` says |
| Contracts.Outlay | src/a_share_quant/account/ledger.py:258-262 | a buy takes out at least its notional |
| FeeRules.NotionalIsNearest | src/a_share_quant/account/contracts.py:29-34 | a notional is price times quantity to the nearest cent, half a cent up |
| FeeRules.LevyIsNearest | src/a_share_quant/account/contracts.py:86-104 | stamp duty and transfer fee are notional times rate to the nearest cent, half a cent up |
| FeeRules.BuyIgnoresStamp | src/a_share_quant/account/contracts.py:86-104 | what a buy pays does not depend on the stamp rate |
| FeeRules.SellPaysStamp | src/a_share_quant/account/contracts.py:86-104 | a sell pays what a buy of the same symbol and notional pays, and exactly the rounded stamp duty on top |
| FeeRules.ShanghaiPaysTransfer | src/a_share_quant/account/contracts.py:86-104 | a code beginning with 5, 6 or 9 pays exactly the rounded transfer fee on top of what any other code pays, which is none |
| FeeRules.CommissionIs | src/a_share_quant/account/contracts.py:86-104 | the rest is commission: the rounded minimum up to the notional where the share reaches it, the rounded share from there on |
| FeeRules.DefaultRatesRun | src/a_share_quant/account/contracts.py:78-104 | at the default rates a named buy and sell of a Shanghai code leave 89,994.90 and then 119,970.60 yuan of 100,000 |
| Ordering.SortSorted | src/a_share_quant/account/ledger.py:382-388 | the replay order is the same fills sorted by trade date, recording time and id |
| Ordering.UptoSort | src/a_share_quant/account/ledger.py:251-252 | selecting fills up to a date commutes with sorting them |
| Ordering.UptoIsPrefix | src/a_share_quant/account/ledger.py:251-252 | on a date-sorted list the fills up to a date are a prefix |
| Replay.AllocationBounds | src/a_share_quant/account/ledger.py:288-296 | a sell's allocation lies between zero and the lot's remaining cost, and selling the rest takes all of it |
| Replay.SellLotsEffect | src/a_share_quant/account/ledger.py:284-300 | one pass over the lots: lots stay sound, the basis is exactly the cost removed, the shares sold are the lesser of wanted and available |
| Replay.SellKeepsProportion | src/a_share_quant/account/ledger.py:288-296 | a sell leaves every lot its share of the former cost, to the nearest cent |
| Replay.SoundReplay | src/a_share_quant/account/ledger.py:244-302 | every lot of every replay has 0 <= remaining <= quantity, non-negative cost, and no cost once emptied |
| Replay.CostConservation | src/a_share_quant/account/ledger.py:244-302 | to the cent, cash plus remaining lot cost equals initial cash plus realised profit |
| Replay.CountsOfReplay | src/a_share_quant/account/ledger.py:264-300 | per symbol: held is bought minus sold, available is released minus sold, cash is plain arithmetic over the fills |
| Replay.AdmissibleIff | src/a_share_quant/account/ledger.py:253-283 | one fill goes through exactly when counting says cash or available shares suffice |
| Replay.ReplayIffFeasible | src/a_share_quant/account/ledger.py:244-302 | the whole FIFO replay succeeds exactly when plain counting, without lots, admits every fill |
| Replay.NeverSoldOnBuyDay | src/a_share_quant/account/ledger.py:24-28 | T+1: shares sold up to any sell never exceed those bought on strictly earlier days |
| Replay.SellKeepsFifo | src/a_share_quant/account/ledger.py:284-300 | a sell keeps the shape: emptied lots, at most one partial, then full ones |
| Replay.FifoAlways | src/a_share_quant/account/ledger.py:244-302 | with a monotone next-day function every replay leaves every symbol in that shape |
| LedgerModel.RaisingChangesNothing | src/a_share_quant/account/ledger.py:222-242 | a call that raises leaves all five fields as they were; an accepted one changes nothing exactly when it is idempotent |
| LedgerModel.RunIndexed | src/a_share_quant/account/ledger.py:334-352 | in every run the id index and the event list agree and only recorded ids are voided |
| LedgerModel.SnapshotEarlier | src/a_share_quant/account/ledger.py:244-252 | a ledger that answers a date answers every earlier one |
| LedgerModel.ReplayableIff | src/a_share_quant/account/ledger.py:244-252 | every date is answered exactly when the full effective list replays |
| LedgerModel.AcceptedFillIsReplayable | src/a_share_quant/account/ledger.py:339-352 | whatever corrections came before, an accepted new fill leaves every date answered |
| LedgerModel.FillLeavesPast | src/a_share_quant/account/ledger.py:339-352 | a fill never rewrites a snapshot of an earlier date |
| LedgerModel.BrokenLedgerRefusesFills | src/a_share_quant/account/ledger.py:339-352 | a ledger that cannot answer some date refuses every later-dated new fill |
| LedgerModel.AlwaysReplayable | src/a_share_quant/account/ledger.py:244-252 | in every run without corrections every date is answered |
| LedgerModel.CorrectionGuarantee | src/a_share_quant/account/ledger.py:222-242 | an accepted correction leaves earlier dates unchanged and dates up to its own answered |
| LedgerModel.CorrectionReplayableIff | src/a_share_quant/account/ledger.py:222-242 | an accepted correction leaves every date answered exactly when counting over the corrected fills finds none short of cash or shares |
| LedgerModel.LatestCorrectionIsReplayable | src/a_share_quant/account/ledger.py:222-242 | a correction dated no earlier than every effective fill leaves every date answered |
| LedgerModel.ResubmissionIff | src/a_share_quant/account/ledger.py:183-195 | a fill with a known id changes nothing and is accepted, as a duplicate, exactly when its details without the recording time match, the checks before the duplicate test pass and its date is answered |
| LedgerRules.AnsweredIff | src/a_share_quant/account/ledger.py:244-252 | a date is answered exactly when counting finds the effective fills up to it feasible |
| LedgerRules.PrecheckIff | src/a_share_quant/account/ledger.py:183-195 | the checks of `record_fill` pass exactly for a buy with the proper name in whole lots, or a sell of no more shares than counting finds available |
| LedgerRules.NewFillAcceptedIff | src/a_share_quant/account/ledger.py:339-352 | a new fill is accepted exactly when none recorded is dated later, those checks pass, and counting finds the fills up to its date feasible |
| LedgerRules.CorrectionAcceptedIff | src/a_share_quant/account/ledger.py:197-242 | a correction is accepted exactly when its original is recorded and not voided, the replacement id is new, side, symbol and date agree, its own id is not blank, and counting finds the corrected fills up to that date feasible |
| LedgerRules.RunKeepsTerms | src/a_share_quant/account/ledger.py:205-216 | in every run each recorded correction replaces a recorded fill by one of the same side, symbol and date, no fill is replaced twice, and exactly the replaced ones are void |
| LedgerRules.SameEventIff | src/a_share_quant/account/ledger.py:391-400 | two fills of one id are the same event exactly when nothing but the recording time differs |
| LedgerRules.ReceiptReports | src/a_share_quant/account/ledger.py:353-373 | the receipt of an accepted call reports cash, profit and position of its date after the call |
| LedgerRules.PositionsAreBuys | src/a_share_quant/account/ledger.py:304-326 | a snapshot has a position for exactly the symbols bought by its date and not voided |
| LedgerRules.PositionName | src/a_share_quant/account/ledger.py:266-272 | a position carries the name given by the last effective buy that gave one |
| LedgerModel.SameVerdicts | src/a_share_quant/account/ledger.py:183-242 | two ledgers equal up to correction recording times answer every date and every later call alike |
| LedgerModel.SameRebuild | src/a_share_quant/account/ledger.py:87-118 | rebuilding does not depend on the recording times of corrections |
| LedgerModel.ReplayEquivalence | src/a_share_quant/account/ledger.py:87-118 | every reachable ledger rebuilds from its own records to the same ledger, up to correction recording times |
| LedgerFindings.SnapshotPositions | src/a_share_quant/account/ledger.py:304-326 | each reported position: total is bought minus sold, available plus frozen is total, neither negative, none available from the same day |
| LedgerFindings.AverageCostIsNearest | src/a_share_quant/account/ledger.py:305-316 | the average cost is the held cost per share to the nearest 1/10000 yuan; no shares, no cost |
| LedgerFindings.SnapshotBalances | src/a_share_quant/account/ledger.py:244-332 | reported cash and profit balance against the cost still held, to the cent |
| LedgerFindings.CashNonNegativeIff | src/a_share_quant/account/ledger.py:258-302 | cash stays non-negative along a replay exactly when no sell's fees exceed its notional by more than the cash at hand |
| LedgerFindings.CorrectionCanBreakALaterDay | src/a_share_quant/account/ledger.py:226-242 | the run buy 200, sell 200, correct the buy to 100: accepted, and the sell's date can no longer be answered |
| LedgerFindings.ResubmittedSellCanRaise | src/a_share_quant/account/ledger.py:190-195 | in the run buy 200, sell 200, the sell read again at whatever time raises for want of shares |
| LedgerFindings.SellCanOverdrawCash | src/a_share_quant/account/ledger.py:281-302 | in a run with 6 yuan, a lot bought and sold for 1 yuan with 5 yuan commission each leaves cash at minus 4 |
| AccountLedgerClass.AccountLedger.SellFifo | src/a_share_quant/account/ledger.py:284-300 | the in-place pass of one sell does to the lots what `SellLots` says |
| AccountLedgerClass.AccountLedger.ReplayOne | src/a_share_quant/account/ledger.py:253-302 | one fill of the replay loop is `Apply` |
| AccountLedgerClass.AccountLedger.SnapshotOn | src/a_share_quant/account/ledger.py:244-332 | the replay loops compute `SnapshotAt` and change nothing |
| AccountLedgerClass.AccountLedger.AppendEvent | src/a_share_quant/account/ledger.py:334-352 | extend, check, and put back on failure is `Append` on all five fields |
| AccountLedgerClass.AccountLedger.Record | src/a_share_quant/account/ledger.py:183-195 | `record_fill` is `RecordFill` |
| AccountLedgerClass.AccountLedger.Correct | src/a_share_quant/account/ledger.py:197-242 | `append_correction`, rollback included, is `AppendCorrection`; which ones it accepts is `LedgerRules.CorrectionAcceptedIff` |
| AccountLedgerClass.AccountLedger.FromRecords | src/a_share_quant/account/ledger.py:87-118 | the loop over records is `Rebuild`, on a new object |
| LedgerStore.ChainedSnoc | src/a_share_quant/account/store.py:44-55 | a row extends a valid chain exactly when it links to the last hash and signs itself |
| LedgerStore.LastHashFixesFile | src/a_share_quant/account/store.py:69-97 | with an injective, never-empty digest two valid files ending in the same hash hold the same rows |
| LedgerStore.EditIsRejectedUnless | src/a_share_quant/account/store.py:69-97 | a changed row goes unnoticed exactly when it is the last one, re-signed and linked to the row before |
| LedgerStore.TruncationStaysValid | src/a_share_quant/account/store.py:69-97 | cutting rows off the end leaves a file that validates |
| LedgerStore.AppendKeepsIdentities | src/a_share_quant/account/store.py:33-57 | a row for a new identity keeps the chain valid and all identities distinct |
| LedgerStore.FindStays | src/a_share_quant/account/store.py:35-43 | the first row with an identity stays the first as rows are added |
| LedgerStore.IdentityIff | src/a_share_quant/account/store.py:119-122 | two records share an identity exactly if they are of one kind and carry one id |
| LedgerStore.AppendsStaySound | src/a_share_quant/account/store.py:33-57 | after any appends to an empty file the chain is valid, no identity is stored twice and every record appended has a row |
| LedgerStore.JsonlLedgerStore.LoadRecords | src/a_share_quant/account/store.py:59-64 | returns the records of a valid file and refuses any other |
| LedgerStore.JsonlLedgerStore.ValidatedRows | src/a_share_quant/account/store.py:69-97 | the loop returns the rows of a valid file, otherwise the number of the first line that breaks it |
| LedgerStore.JsonlLedgerStore.Append | src/a_share_quant/account/store.py:33-57 | adds exactly one row, or none for an equal record; a different record with the same identity or an invalid file is refused unchanged |
| AccountService.SameBatch | src/a_share_quant/account/service.py:70-76 | a batch gets the same verdict and receipts on a rebuilt copy as on the ledger itself |
| AccountService.NewFillIsNewInStore | src/a_share_quant/account/service.py:77-79 | a fill the ledger does not know has no row in the store |
| AccountService.CommitOne | src/a_share_quant/account/service.py:77-82 | after the store write alone, the store reloads to the state the ledger write is about to reach; after both they agree again |
| AccountService.BatchNext | src/a_share_quant/account/service.py:76-82 | a batch the dry run accepted goes through fill by fill with the predicted receipts |
| AccountService.RunRecordsIndexed | src/a_share_quant/account/service.py:85-93 | in every run each recorded fill is in the ledger's index |
| AccountService.RepeatedConfirmationIff | src/a_share_quant/account/service.py:65-83 | a batch whose ids are all recorded, with whatever recording times, changes nothing and is accepted exactly when each fill repeats the recorded one |
| AccountService.RepeatableIffSellsCovered | src/a_share_quant/account/service.py:65-83 | after an accepted batch, the batch read again repeats it exactly when each of its sells finds its shares available a second time |
| AccountService.ResumeIff | src/a_share_quant/account/service.py:65-83 | a confirmation cut off after some fills and resumed on the reloaded ledger goes through exactly when the recorded fills repeat and the rest is accepted, and ends where an uninterrupted one ends |
| AccountService.RetriedConfirmationIff | src/a_share_quant/account/service.py:65-83 | within one process a second attempt at an accepted batch cut off halfway completes it exactly when the sells already recorded find their shares a second time |
| Reimport.SnapshotReread | src/a_share_quant/account/ledger.py:244-252 | ledgers whose effective fills differ only in recording times answer every date alike |
| Reimport.StepTwins | src/a_share_quant/account/ledger.py:183-195 | a fill and its rereading, each sorted behind its date, get the same verdict from ledgers that differ only in recording times, and leave such ledgers |
| Reimport.BatchTwins | src/a_share_quant/account/service.py:65-83 | so do a whole batch and its rereading |
| Reimport.InterruptedConfirmationIff | src/a_share_quant/account/service.py:65-83 | a confirmation cut off halfway and resumed after a restart with the whole file read again, new times included, completes the batch exactly when the sells already recorded find their shares a second time, and then every date is answered as without the interruption |
| Reimport.EqualStampsCanRefuse | src/a_share_quant/account/ledger.py:382-388 | the run: a sell and a buy paid by it, read again with equal times, sort by id, and the batch accepted before is refused |
| Reimport.BuyBackIff | src/a_share_quant/account/ledger.py:258-262 | a buy paid by a sell of the same day is accepted exactly if it sorts behind the sell |
| AccountService.ReloadedIsValid | src/a_share_quant/account/service.py:85-93 | a store in step with a reloading ledger rebuilds to one that cannot be told from it, in step again |
| AccountService.AccountEntryService.constructor | src/a_share_quant/account/service.py:22-25 | on a new ledger and an empty store the service is valid |
| AccountService.AccountEntryService.Reopen | src/a_share_quant/account/store.py:59-64 | after a restart the rebuilt service is valid and its ledger cannot be told from the one the store was in step with |
| AccountService.AccountEntryService.DryRun | src/a_share_quant/account/service.py:70-75 | works on a rebuilt copy; neither ledger nor store changes |
| AccountService.AccountEntryService.CommitEvent | src/a_share_quant/account/service.py:77-82 | one accepted fill goes to store and ledger and the idempotency error cannot arise |
| AccountService.AccountEntryService.CommitAll | src/a_share_quant/account/service.py:76-83 | the commit loop returns exactly the receipts predicted and ends in step |
| AccountService.AccountEntryService.ConfirmValidatedPreview | src/a_share_quant/account/service.py:65-83 | refused dry run: nothing changes; otherwise all fills are committed and store and ledger records stay equal |
| TradingCalendar.SessionAfter | src/a_share_quant/market/trading_calendar.py:67-71 | every calendar with finitely many closures has a session after any day |
| TradingCalendar.ClosuresOf2026 | src/a_share_quant/market/trading_calendar.py:9-20 | a day of 2026 is closed exactly on New Year, Spring Festival, Tomb-Sweeping Day, Labour Day, Dragon Boat, Mid-Autumn Festival and National Day as published |
| TradingCalendar.WeekdaysKnown | src/a_share_quant/market/trading_calendar.py:46-50 | 2026 begins on a Thursday, the official calendar ends with it, and weeks have seven days |
| TradingCalendar.NextSession | src/a_share_quant/market/trading_calendar.py:67-71 | the walk returns the nearest later session; none exactly when it leaves the official year first |
| TradingCalendar.PreviousSession | src/a_share_quant/market/trading_calendar.py:73-77 | the walk returns the nearest earlier session; none exactly when it leaves the official year first |
| TradingCalendar.NextAndPreviousInverse | src/a_share_quant/market/trading_calendar.py:67-77 | on sessions the two walks undo each other |
| TradingCalendar.LatestCompleted | src/a_share_quant/market/trading_calendar.py:58-65 | the latest session closed by then, before or after the close; none exactly when the walk back leaves the official year first |
| TradingCalendar.FutureSession | src/a_share_quant/research/prospective_competition.py:66-73 | the loop reaches the day `horizon` sessions ahead; a custom calendar always has one, the official one exactly when its year has enough sessions left |
| TradingCalendar.SteppedIffCounted | src/a_share_quant/research/prospective_competition.py:66-73 | stepping n times leads to exactly the session with n sessions counted up to it |
| TradingCalendar.MaturityCheckIff | src/a_share_quant/research/prospective_competition.py:503-510 | the n-th entry of the sorted sessions is the maturity exactly when n steps lead to it |
| TradingCalendar.BusinessDayDistance | src/a_share_quant/research/daily_candidates.py:294-304 | the loop counts the sessions after one day up to another |
| TradingCalendar.DistanceToStepped | src/a_share_quant/research/daily_candidates.py:294-304 | that count for the day n steps ahead is n |
| TradingCalendar.NextWeekday | src/a_share_quant/account/ledger.py:24-28 | the loop returns the first weekday after a date |
| TradingCalendar.WeekdayAfterIsNext | src/a_share_quant/account/ledger.py:24-28 | that day is strictly later, nearest, and monotone in the date |
| DailyBundle.RewriteAbsorbs | src/a_share_quant/runtime/daily_bundle.py:129-134 | starting the replacements over after a partial application only moves forward |
| DailyBundle.RunConsistent | src/a_share_quant/runtime/daily_bundle.py:49-78 | over every run of publications and recoveries cut off anywhere: without a journal the files are the first ones or one validated body's, with one they are on the way to it |
| DailyBundle.RecoveryCompletes | src/a_share_quant/runtime/daily_bundle.py:72-78 | a completed recovery is never refused in a reachable state, leaves no journal, and repeating it changes nothing |
| DailyBundle.AllOrNothing | src/a_share_quant/runtime/daily_bundle.py:49-78 | a publication cut off anywhere, any number of cut-off recoveries and one completed one leave all files old or all new |
| DailyBundle.OtherConfigurationRefuses | src/a_share_quant/runtime/daily_bundle.py:80-90 | a journal written for other target paths is refused and kept, with all files, whatever publications and recoveries are tried |
| DailyBundle.DailyBundleTransaction.ValidatePlans | src/a_share_quant/runtime/daily_bundle.py:104-127 | the loops accept exactly plans that match the session, the signals and the holdings |
| DailyBundle.DailyBundleTransaction.Validate | src/a_share_quant/runtime/daily_bundle.py:80-127 | accepts exactly the valid bodies; what the accepted ones contain is `BundleContents.RunStaysWhole` |
| DailyBundle.DailyBundleTransaction.Apply | src/a_share_quant/runtime/daily_bundle.py:129-134 | the replacements in order, then the journal's removal, cut off after any number of effects |
| DailyBundle.DailyBundleTransaction.Publish | src/a_share_quant/runtime/daily_bundle.py:49-70 | journal first, then the replacements; refused if one is outstanding or the body is invalid |
| DailyBundle.DailyBundleTransaction.Recover | src/a_share_quant/runtime/daily_bundle.py:72-78 | nothing without a journal, refused if invalid, otherwise applied, and finished exactly when enough effects were left |
| BundleContents.RunStaysWhole | src/a_share_quant/runtime/daily_bundle.py:49-127 | over every run cut off anywhere, if the first files have the property then whenever no journal exists: some signals, all of one session, and where guidance is configured plans of that session, valid for the next one, that cover exactly the signals and the at most 50 distinct holdings |
| BundleContents.WrittenIsWhole | src/a_share_quant/runtime/daily_bundle.py:80-134 | the files written from any accepted body have that property |
| BundleContents.FaultyIsRefused | src/a_share_quant/runtime/daily_bundle.py:80-99 | another version, other targets or documents, too many or repeated holdings, or too many bytes change nothing |
| BundleContents.NamedBodyIsPublished | src/a_share_quant/runtime/daily_bundle.py:49-70 | a named body with two candidates and one holding is published to the end, and both files are its documents |
| BundleContents.NamedSignalsArePublished | src/a_share_quant/runtime/daily_bundle.py:49-70 | so is a named signals document alone where no guidance is configured |
| EodSafety.LatestSize | src/a_share_quant/runtime/eod_coordinator.py:271-281 | a checkpoint keeps at most 64 of the completed days |
| EodSafety.DelayGrows | src/a_share_quant/runtime/eod_coordinator.py:264-266 | a later attempt never waits less, and never more than the maximum |
| EodSafety.RunKeeps | src/a_share_quant/runtime/eod_coordinator.py:169-316 | the coordinator invariant over every interleaving of requests, refreshes, failures, failed checkpoint writes, crashes and restarts |
| EodSafety.RetryBudget | src/a_share_quant/runtime/eod_coordinator.py:169-213 | refreshes started since the last success, request or change of target never exceed the limit, crashes included |
| EodSafety.NoEarlyRetry | src/a_share_quant/runtime/eod_coordinator.py:178-185 | no refresh of the pending day starts before the retry time saved last |
| EodSafety.BackoffNeverShrinks | src/a_share_quant/runtime/eod_coordinator.py:258-269 | delays recorded one after another never shrink |
| EodSafety.NoFabricatedCompletion | src/a_share_quant/runtime/eod_coordinator.py:233-256 | a completed day, in memory or on disk, had a successful refresh under an unchanged revision; at most one refresh is in flight |
| EodSafety.RequestOutlivesRefresh | src/a_share_quant/runtime/eod_coordinator.py:80-103 | a request that arrives during a refresh is pending, and its day not completed, when the refresh ends and is saved |
| EodSafety.RestartIsAccepted | src/a_share_quant/runtime/eod_coordinator.py:283-316 | a restart never rejects a checkpoint the coordinator wrote |
| EodSafety.PauseHoldsUnless | src/a_share_quant/runtime/eod_coordinator.py:169-176 | in every run, with no refresh in flight, a pause survives a step exactly unless a review is granted, a calendar failure is saved, or a restart finds a checkpoint that is not paused |
| EodSafety.PauseHoldsIff | src/a_share_quant/runtime/eod_coordinator.py:169-180 | once it is saved, a pause survives any step, restarts included, exactly unless a review is granted or a calendar failure is saved; no step of a paused coordinator starts a refresh |
| EodSafety.PauseHoldsOverRuns | src/a_share_quant/runtime/eod_coordinator.py:169-180 | over any further events without those two the coordinator stays paused and no refresh starts |
| EodSafety.PauseHoldsThroughoutIff | src/a_share_quant/runtime/eod_coordinator.py:169-180 | it is paused all along exactly if neither of the two is among the events |
| EodSafety.SavedDenialPauses | src/a_share_quant/runtime/eod_coordinator.py:214-230 | in every run a saved permission denial is such a pause |
| EodSafety.NoStartAfterDenial | src/a_share_quant/runtime/eod_coordinator.py:214-230 | after a saved denial in any run no refresh starts until a review is granted or a calendar failure is saved |
| EodSafety.RefreshStartsWithoutReview | src/a_share_quant/runtime/eod_coordinator.py:158-167 | the run from the start: denial, saved calendar failure, and the refresh of another day starts with no review |
| EodSafety.CalendarFailureLiftsPause | src/a_share_quant/runtime/eod_coordinator.py:158-167 | after a saved calendar failure any other day that is not completed and not pending may start despite the pause |
| EodCoordinatorClass.EodCoordinator.constructor | src/a_share_quant/runtime/eod_coordinator.py:27-75 | a new coordinator, restored from its checkpoint if there is one |
| EodCoordinatorClass.EodCoordinator.Restore | src/a_share_quant/runtime/eod_coordinator.py:283-316 | restoring the checkpoint, or rejecting it, is `Restored` |
| EodCoordinatorClass.EodCoordinator.Persist | src/a_share_quant/runtime/eod_coordinator.py:271-281 | the whole state is written or nothing |
| EodCoordinatorClass.EodCoordinator.RequestRefresh | src/a_share_quant/runtime/eod_coordinator.py:80-103 | the locked section is `Requested`, refused only for a rejected checkpoint |
| EodCoordinatorClass.EodCoordinator.RetryAfterReview | src/a_share_quant/runtime/eod_coordinator.py:120-133 | refused for a rejected checkpoint, a stop or a running refresh; otherwise unblocks and requests, and raises exactly if that is not saved |
| EodCoordinatorClass.EodCoordinator.Begin | src/a_share_quant/runtime/eod_coordinator.py:169-213 | takes the run lock, counts the attempt and writes the checkpoint before the refresh starts; that it does start, `EodProgress` says |
| EodCoordinatorClass.EodCoordinator.Succeed | src/a_share_quant/runtime/eod_coordinator.py:233-245 | a success counts only under an unchanged revision |
| EodCoordinatorClass.EodCoordinator.Handle | src/a_share_quant/runtime/eod_coordinator.py:215-232 | a permission denial pauses, other exceptions go on to the failure record |
| EodCoordinatorClass.EodCoordinator.RecordFailure | src/a_share_quant/runtime/eod_coordinator.py:258-269 | attempt, status and next retry after a failure |
| EodCoordinatorClass.EodCoordinator.CalendarFailure | src/a_share_quant/runtime/eod_coordinator.py:158-167 | overwrites status and error code and saves |
| EodCoordinatorClass.EodCoordinator.RunDue | src/a_share_quant/runtime/eod_coordinator.py:105-118 | chooses the closed session or the pending day and begins it, with the phase and checkpoint of `Begin` |
| EodProgress.RequestedRefreshStarts | src/a_share_quant/runtime/eod_coordinator.py:80-118 | in every run: with no refresh in flight, not stopped, not paused and the day not blocked, a saved request followed by a look at that day starts its refresh, however many attempts came before |
| EodProgress.RetryStartsWhenDue | src/a_share_quant/runtime/eod_coordinator.py:182-192 | in every run: after a saved failure with attempts left, the refresh starts again exactly from the saved time on |
| EodProgress.DelaysDouble | src/a_share_quant/runtime/eod_coordinator.py:264-266 | the first retry waits the base delay, every later one twice the one before up to the maximum |
| EodProgress.BudgetIsUsed | src/a_share_quant/runtime/eod_coordinator.py:169-269 | from every such state some continuation starts exactly the allowed number of refreshes of the requested day, after which none starts any more |
| EodProgress.SuccessCompletes | src/a_share_quant/runtime/eod_coordinator.py:233-256 | in every run: a success with no request since it began completes its day in memory and, among the latest 64, on disk; nothing is pending and the day is not refreshed again |
| EodProgress.LatestAreLatest | src/a_share_quant/runtime/eod_coordinator.py:271-281 | the days a checkpoint keeps are the latest ones; if there are few, all |
| EodProgress.RestartKeepsCompletions | src/a_share_quant/runtime/eod_coordinator.py:283-316 | a restart forgets no completed day that still validates, nor the pending day or the last success |
| EodOutcomes.StartIsCounted | src/a_share_quant/runtime/eod_coordinator.py:186-207 | in every run: a refresh that starts has been counted, timed and saved |
| EodOutcomes.SuccessTells | src/a_share_quant/runtime/eod_coordinator.py:233-256 | after a success there is no error and no retry time; the status tells whether a request came meanwhile |
| EodOutcomes.FailureTells | src/a_share_quant/runtime/eod_coordinator.py:258-269 | after a failure its code is kept; the status tells whether a request came meanwhile, a retry is set, or the attempts are used up |
| EodOutcomes.CodeIsKept | src/a_share_quant/runtime/eod_coordinator.py:214-232 | the code a refresh reports, or the name of what it raised, is the error recorded |
| EodOutcomes.DenialShuts | src/a_share_quant/runtime/eod_coordinator.py:214-230 | a saved denial blocks its day, in memory and on disk |
| EodOutcomes.AbortShuts | src/a_share_quant/runtime/eod_coordinator.py:233-256 | a refresh given up for want of a checkpoint leaves its day pending, not completed and blocked |
| EodOutcomes.BlockedDayStays | src/a_share_quant/runtime/eod_coordinator.py:169-213 | a blocked day stays blocked and is not refreshed, through requests, calendar failures, other refreshes, crashes and restarts, until a review is granted or another refresh ends blocked |
| EodOutcomes.ReviewedDayStarts | src/a_share_quant/runtime/eod_coordinator.py:120-133 | in every run with no refresh in flight: once a review is granted with a session, that session is refreshed, whatever had paused or blocked it |
| EodOutcomes.StopAndStart | src/a_share_quant/runtime/eod_coordinator.py:338-355 | nothing starts after a stop; a start ends it unless the checkpoint was rejected |
| EvaluatorSafety.TargetWithinCaps | src/a_share_quant/experiments/evaluator.py:272-277 | target symbols are distinct, at most the maximum, each within the single cap and together within the gross cap |
| EvaluatorSafety.RankedSorted | src/a_share_quant/experiments/evaluator.py:272-277 | the ranking is a reordering by falling score |
| Evaluator.SellLoop | src/a_share_quant/experiments/evaluator.py:158-183 | the sell loop is the fold `SellPass`; whom it sells is `EvaluatorRules.TradingRules` |
| Evaluator.BuyLoop | src/a_share_quant/experiments/evaluator.py:184-207 | the buy loop is the fold `BuyPass` |
| Evaluator.TradeDay | src/a_share_quant/experiments/evaluator.py:148-207 | the trading part of a day |
| Evaluator.Simulate | src/a_share_quant/experiments/evaluator.py:132-241 | the day loop is `RunDays` |
| EvaluatorRules.TradingRules | src/a_share_quant/experiments/evaluator.py:157-207 | every day: a holding keeps quantity and entry date exactly unless it is outside the selection, entered earlier, and its bar is neither suspended nor limit-down, and then it is given up; every new holding was selected, has a bar neither suspended nor limit-up, and is entered that day; each row is such a sale or such a buy |
| EvaluatorRules.RunFollowsRules | src/a_share_quant/experiments/evaluator.py:157-207 | the same for every day of every backtest |
| EvaluatorRules.TradingBuysAll | src/a_share_quant/experiments/evaluator.py:184-207 | a day that ends with cash left, at positive prices, has bought every selected name it could and did not hold, each for its weight of the account at the open |
| EvaluatorRules.RunFees | src/a_share_quant/experiments/evaluator.py:304-327 | every row of every backtest: a buy pays commission and transfer fee on what it spends, a sale pays these and stamp duty on what it brings in |
| EvaluatorRules.ExecutionIsNthDay | src/a_share_quant/experiments/evaluator.py:290-293 | a signal is carried out on the n-th trading day after it |
| EvaluatorRules.LatestSignalCounts | src/a_share_quant/experiments/evaluator.py:142-146 | a day carries out the latest of the signal dates due on it |
| EvaluatorRules.SelectionIsBest | src/a_share_quant/experiments/evaluator.py:272-277 | nobody is left out unless the selection is full, and then scores no more than a prediction for each symbol taken |
| EvaluatorRules.WeightIsLargest | src/a_share_quant/experiments/evaluator.py:272-277 | the weight is as large as the two caps allow |
| EvaluatorRules.RowTells | src/a_share_quant/experiments/evaluator.py:209-229 | each equity row is dated its day and tells cash, number of holdings, equity, gross exposure and turnover at that day's close |
| EvaluatorSafety.RunBooked | src/a_share_quant/experiments/evaluator.py:148-207 | over every backtest: positions and entry dates have the same keys, nothing is sold on its entry date, cash is one minus outlays plus net proceeds of the log |
| EvaluatorSafety.SaleNetIff | src/a_share_quant/experiments/evaluator.py:318-327 | a sale never lowers cash exactly when slippage and fees leave something of the price |
| EvaluatorSafety.BuyNetIff | src/a_share_quant/experiments/evaluator.py:304-315 | one buy leaves cash that was not negative so exactly if the cost rate is positive or the desired amount reaches what a negative one asks for |
| EvaluatorSafety.RunSolvent | src/a_share_quant/experiments/evaluator.py:304-327 | with a positive cost rate, sales that bring in no less than their fees and no negative open, cash in exact arithmetic never goes negative and positions stay positive |
| EvaluatorAccounts.SellConserves | src/a_share_quant/experiments/evaluator.py:168-183 | one sale moves the account at the open by exactly the cost its log row implies and, at a slippage of exactly one, what the shares were worth |
| EvaluatorAccounts.BuyConserves | src/a_share_quant/experiments/evaluator.py:188-207 | one buy moves the account at the open by exactly the cost its log row implies |
| EvaluatorAccounts.RunConserves | src/a_share_quant/experiments/evaluator.py:157-207 | every day of every backtest: no symbol is held twice and trading lowers the account at that day's open by exactly the costs the log implies and, only at a slippage of exactly one, by what was sold for nothing |
| EvaluatorAccounts.DayBuysWithinGrossCap | src/a_share_quant/experiments/evaluator.py:160-207 | the buys of one day together stay within the gross cap of the account at the open; a negative account with caps that are not negative buys nothing |
| EvaluatorAccounts.RunBuysWithinGrossCap | src/a_share_quant/experiments/evaluator.py:157-207 | the same for every day of every backtest |
| EvaluatorAccounts.RowsBalanced | src/a_share_quant/experiments/evaluator.py:209-229 | in every equity row cash is non-negative, gross exposure is at most one, and equity is cash plus exposure |
| EvaluatorAccounts.BenchmarkTelescopes | src/a_share_quant/experiments/evaluator.py:212-216 | while its closes are positive the benchmark's equity is its close relative to its first close |
| EvaluatorCausality.ExecutionAfterSignal | src/a_share_quant/experiments/evaluator.py:290-293 | every execution date is strictly after its signal date |
| EvaluatorCausality.RunSame | src/a_share_quant/experiments/evaluator.py:132-241 | inputs that agree up to t reach the same simulator state after every day up to t |
| EvaluatorCausality.RowsSettled | src/a_share_quant/experiments/evaluator.py:132-241 | days after t add no row or trade dated up to t |
| EvaluatorCausality.Causality | src/a_share_quant/experiments/evaluator.py:132-241 | inputs agreeing on bars up to t and predictions before t give identical equity and trade rows up to t |
| Competition.RunLoads | src/a_share_quant/storage/prospective_ledger_store.py:282-319 | every file any mix of processes writes loads, and each settlement matches its prediction's symbol and maturity, is due, later than the prediction, and carries a return |
| Competition.LoadExtends | src/a_share_quant/storage/prospective_ledger_store.py:282-319 | a longer file keeps every prediction and settlement of a shorter one |
| Competition.SettlementIsFinal | src/a_share_quant/storage/prospective_ledger_store.py:108-130 | a settlement never changes through any later call |
| Competition.SettledWithinPredictions | src/a_share_quant/storage/prospective_ledger_store.py:108-130 | never more settlements than predictions |
| Competition.ResettlingChangesNothing | src/a_share_quant/research/prospective_competition.py:651-674 | after a settlement no outcome for the prediction writes anything; the settled one is accepted from every view that holds the prediction, any other refused |
| Competition.NotDelayed | src/a_share_quant/research/prospective_competition.py:684-707 | an outcome is not delayed exactly when it is due and usable |
| CompetitionRules.DelayIff | src/a_share_quant/research/prospective_competition.py:684-707 | an outcome is put off exactly if a reason applies, and the reason given does; not being due comes first, then its status |
| CompetitionRules.SettledIff | src/a_share_quant/research/prospective_competition.py:651-674 | read by an up-to-date process an outcome settles exactly if it repeats the settlement, or is the first and due with full quality; otherwise the first one waits; the ledger afterwards has one settlement or one waiting entry more |
| CompetitionRules.WaitingIff | src/a_share_quant/storage/prospective_ledger_store.py:282-319 | what waits is exactly what was ever put off for a prediction that is not settled |
| CompetitionRules.SettledRowsIff | src/a_share_quant/storage/prospective_ledger_store.py:282-319 | what is settled is exactly what a row of the file settles |
| Competition.SettlesOnlyThePast | src/a_share_quant/research/prospective_competition.py:651-674 | a new settlement is observed by now, due, usable and later than its prediction |
| Competition.PredictsOnlyTheFuture | src/a_share_quant/research/prospective_competition.py:494-510 | an accepted prediction was made by now and matures on a later day, the n-th supplied session |
| Competition.PredictionsWereEarly | src/a_share_quant/research/prospective_competition.py:494-510 | every prediction any run has stored was made by one of its calls, with all checks passed, before its result could be known |
| CompetitionRules.PredictionAcceptedIff | src/a_share_quant/research/prospective_competition.py:474-538 | a prediction is accepted exactly when it was made by now, matures later than today, on the n-th supplied session or by default without a calendar, belongs to the started registration, and its id is new or names the same prediction; a new one is one more row |
| CompetitionRules.PredictionsWereTimely | src/a_share_quant/research/prospective_competition.py:494-537 | every prediction any run has stored came from a call for which all of this held |
| CompetitionRules.NothingLeftOut | src/a_share_quant/research/prospective_competition.py:558-583 | a ledger only written under one registration holds nothing its metrics leave out |
| CompetitionRules.CountedIff | src/a_share_quant/research/prospective_competition.py:558-583 | metrics count exactly the stored predictions of the registration's model and bundle: of those made since its start, exactly the ones it accepts |
| Competition.DefaultMaturityPassesIff | src/a_share_quant/research/prospective_competition.py:503-510 | against any calendar right up to it, the maturity check passes exactly for the default maturity |
| Competition.ProspectiveCompetition.Append | src/a_share_quant/research/prospective_competition.py:474-538 | `append_prediction` against the file under the lock |
| Competition.ProspectiveCompetition.WriteSettlement | src/a_share_quant/storage/prospective_ledger_store.py:108-130 | re-reads, checks again, appends at most one settlement |
| Competition.ProspectiveCompetition.WritePending | src/a_share_quant/storage/prospective_ledger_store.py:132-147 | re-reads, checks again, appends a pending row once |
| Competition.ProspectiveCompetition.Settle | src/a_share_quant/research/prospective_competition.py:651-674 | `settle_due` against the process's view and then the file |
| Statistics.ExpectedCalibrationError | src/a_share_quant/research/prospective_competition.py:422-433 | filling ten lists and summing over them gives the bins' absolute gaps over the sample count |
| Statistics.BinsPartition | src/a_share_quant/research/prospective_competition.py:423-425 | every sample is in exactly one bin |
| Statistics.BinIsTenth | src/a_share_quant/research/prospective_competition.py:424-425 | a bin holds the probabilities of its tenth, the last one also 1 |
| Statistics.CalibrationBounds | src/a_share_quant/research/prospective_competition.py:422-433 | calibration error and Brier score lie in [0, 1] and the squared error never exceeds the score |
| Statistics.CalibrationCoversBias | src/a_share_quant/research/prospective_competition.py:422-433 | the calibration error is at least the gap between the two overall means |
| Statistics.RankIsCount | src/a_share_quant/research/prospective_competition.py:439-442 | a value's rank is the number of values not above it, less one, ties sharing the highest |
| Statistics.RanksAgree | src/a_share_quant/research/prospective_competition.py:439-442 | only the order of the values matters |
| Statistics.CauchySchwarz | src/a_share_quant/research/prospective_competition.py:445-449 | the squared sum of products never exceeds the product of the sums of squares, and when it is equal the lists are proportional |
| Statistics.CorrelationBounded | src/a_share_quant/research/prospective_competition.py:436-450 | the rank correlation lies in [-1, 1], and is zero where the code returns zero |
| Statistics.PerfectCorrelationIff | src/a_share_quant/research/prospective_competition.py:436-450 | it is one exactly when both lists order the samples alike, ties included |
| Statistics.MaxDrawdown | src/a_share_quant/research/prospective_competition.py:615-619 | the running-peak loop is the fold `Drawdown` |
| Statistics.PeakIsHighest | src/a_share_quant/research/prospective_competition.py:616-618 | the peak is the largest cumulative sum so far, the empty one included |
| Statistics.DrawdownIsDeepest | src/a_share_quant/research/prospective_competition.py:615-619 | the drawdown is the largest earlier-minus-later cumulative drop |
| CompetitionMetrics.SettlementsListed | src/a_share_quant/storage/prospective_ledger_store.py:158-159 | loading lists every settlement exactly once |
| CompetitionMetrics.EveryOutcomeHasAReturn | src/a_share_quant/research/prospective_competition.py:595-599 | dropping missing returns drops none, so the zipped lists line up |
| CompetitionMetrics.CoverageCounts | src/a_share_quant/research/prospective_competition.py:591-594 | coverage counts each registered prediction with a settlement exactly once |
| CompetitionMetrics.MetricsInRange | src/a_share_quant/research/prospective_competition.py:585-646 | every metric of every loadable ledger lies in its range |
| CompetitionMetrics.GatesIff | src/a_share_quant/research/prospective_competition.py:917-926 | computed metrics pass the gates exactly when four in five predictions are settled, the mean return beats the cost and no drop exceeds 0.35 |
| CompetitionMetrics.ComputeMetrics | src/a_share_quant/research/prospective_competition.py:585-646 | the method with its loops is `MetricsOf` |
| CompetitionRules.HitsAgree | src/a_share_quant/research/prospective_competition.py:628-639 | the hits are as many as the predictions that lean up before a gain and those that do not before none |
| CompetitionRules.TwoOfFour | src/a_share_quant/research/prospective_competition.py:585-646 | two named settled predictions of four give hit rate 1, Brier score 0.1, calibration error 0.3, net return 0.049, drawdown 0.0005, turnover and coverage 0.5 |
| Contest.RunSound | src/a_share_quant/research/prospective_competition.py:851-915 | in every run the gates are those of the recorded metrics and the status never exceeds what the counters earn |
| Contest.ApprovalNeedsEvidence | src/a_share_quant/research/prospective_competition.py:902-908 | awaiting approval implies 60 sessions, 200 settled predictions and passing metrics |
| Contest.ApprovalIsEarned | src/a_share_quant/research/prospective_competition.py:851-915 | approval is awaited only from a call that brought passing metrics, and ever since |
| Contest.ClaimsChangeNothing | src/a_share_quant/research/prospective_competition.py:851-879 | two runs that differ only in claims beside metrics and in historical counts end in the same state |
| Contest.StatusFollowsUnless | src/a_share_quant/research/prospective_competition.py:871-879 | the status follows every call except exactly one that claims gates without metrics while its counters would lift it |
| Contest.StaysBehindUnless | src/a_share_quant/research/prospective_competition.py:902-915 | a status that is behind catches up exactly with an accepted recording or registration |
| Contest.StatusBehindIff | src/a_share_quant/research/prospective_competition.py:851-915 | after any run the status is behind exactly if some call left it behind and no recording or registration was accepted since |
| Contest.StatusLagsAfterARaise | src/a_share_quant/research/prospective_competition.py:871-876 | 60 sessions and 200 settlements recorded by a call that raises; the status stays provisional |
| Contest.RunFrozen | src/a_share_quant/research/prospective_competition.py:790-823 | start time, bundle, primary metric and tie break never change after the start |
| Contest.RestartIff | src/a_share_quant/research/prospective_competition.py:790-812 | the registration a contest was started with is accepted again at any later point exactly as long as its version is current and the time is not in the future; only `register_version` ends that |
| Contest.LaterStartsDropOut | src/a_share_quant/research/prospective_competition.py:790-823 | every start after the first accepted one can be left out of a run |
| Contest.CountersNeverGoBack | src/a_share_quant/research/prospective_competition.py:863-872 | between any two points of a run the counters only go up unless a new version was accepted in between |
| Contest.NewVersionStartsOverUnless | src/a_share_quant/research/prospective_competition.py:833-849 | a changed version starts without evidence unless the call named a blank model |
| Contest.ApprovalCarriesOver | src/a_share_quant/research/prospective_competition.py:838-849 | a version nobody observed awaits approval after a registration that raises |
| ContestRules.StatusIff | src/a_share_quant/research/prospective_competition.py:902-926 | after any run that left no status behind, approval awaits exactly on 60 sessions, 200 settled predictions and good metrics, and the observation is provisional exactly on 20 and 100 short of that |
| ContestRules.ProvisionalNeedsEvidence | src/a_share_quant/research/prospective_competition.py:902-926 | no run at all is provisional on less |
| ContestRules.FirstStartIff | src/a_share_quant/research/prospective_competition.py:766-823 | a contest starts exactly on complete terms, a digest of 64 hexadecimal characters if any, and a time that is past |
| ContestRules.RecordingIff | src/a_share_quant/research/prospective_competition.py:851-879 | a recording is accepted exactly by a started contest with no counter negative or falling and no gates claimed without metrics |
| ContestRules.SessionIff | src/a_share_quant/research/prospective_competition.py:881-898 | a session counts once, with the predictions it settled |
| ContestRules.VersionIff | src/a_share_quant/research/prospective_competition.py:825-849 | a version is accepted exactly by a started contest if none of its texts is blank, and everything is collected anew under it |
| Contest.ProspectiveContest.Start | src/a_share_quant/research/prospective_competition.py:748-823 | `start` is `Started` on all fields |
| Contest.ProspectiveContest.RegisterVersion | src/a_share_quant/research/prospective_competition.py:825-849 | `register_version` is `Reregistered`, its early assignments included |
| Contest.ProspectiveContest.RecordObservations | src/a_share_quant/research/prospective_competition.py:851-879 | `record_observations` is `Recorded`, its early assignments included |
| Contest.ProspectiveContest.RecordSession | src/a_share_quant/research/prospective_competition.py:881-898 | one more session on top of the counters |
| Lots.WholeLotsGreatest | src/a_share_quant/advisory/risk.py:213-214 | a whole-lot floor is a multiple of the lot and exactly the lots up to it fit |
| RiskSizing.WithinTargetIff | src/a_share_quant/advisory/risk.py:198-210 | a quantity is within the target weight exactly when it meets the six limits stated in money |
| RiskSizing.QuantityIsGreatest | src/a_share_quant/advisory/risk.py:203-216 | a positive number of whole lots meets all six limits exactly when it does not exceed the suggestion |
| RiskSizing.AllowedIff | src/a_share_quant/advisory/risk.py:184-229 | a position is allowed exactly when prices, liquidity, regime, drawdown and number of positions pass and one lot meets the limits; its quantity is then positive whole lots |
| RiskSizing.CutLosesLittle | src/a_share_quant/advisory/risk.py:67-77 | cutting an exposure to four decimals loses less than 0.0001 |
| RiskSizing.TrueExposureBounds | src/a_share_quant/advisory/risk.py:198-229 | true gross and industry exposure stay below the regime's cap and the industry cap plus 0.0001; cash keeps the reserve; loss to invalidation stays within the planned risk |
| RiskSizing.BuyingStaysWithin | src/a_share_quant/advisory/risk.py:170-229 | over any run of purchases the cut-off errors do not add up: reserve, position count, gross and each industry stay bounded, nothing is lost |
| RiskSizing.NamePastCapIff | src/a_share_quant/advisory/risk.py:203-210 | a purchase takes its name past the single-name cap exactly if the gates pass and the smallest number of lots exceeding what the cap leaves for the shares held meets the six limits; a name not held never is |
| RiskSizing.NameAtCapMayBuyMore | src/a_share_quant/advisory/risk.py:203-210 | under the default policy a holding exactly at the cap of 8 percent may be bought again, past the cap |
| RiskSizing.RunGrowsName | src/a_share_quant/advisory/risk.py:170-229 | over any run a name grows by at most the cap each time it is asked for |
| RiskSizing.RunKeepsNameCap | src/a_share_quant/advisory/risk.py:170-229 | a run that asks at most once for a name not held at the start keeps it within both name caps |
| RiskSizing.CautionIff | src/a_share_quant/advisory/risk.py:221-223 | all through a run of purchases the caution mark appears exactly on allowed positions with the drawdown between the two thresholds |
| RiskSizing.GateIff | src/a_share_quant/advisory/risk.py:181-197 | the gates pass exactly with the invalidation below the price, enough liquidity, a normal or cautious regime, a drawdown below the freeze and room for a position; the gross cap is the regime's |
| RiskSizing.ReasonsAreTrue | src/a_share_quant/advisory/risk.py:181-216 | the first reason of every answer is true: of a gate, of limits that leave nothing, of a lot that does not fit, or of passing |
| RiskSizing.IndustryCountsItsOwn | src/a_share_quant/advisory/risk.py:72-77 | a holding counts towards its own industry and no other |
| PriceGuidance.PlanIsSound | src/a_share_quant/advisory/price_engine.py:47-97 | every emitted plan ends its entry range at the maximum, rounds to the safe side, never lowers the protection and risks 2 to 12 percent |
| PriceGuidance.ActualIsNearest | src/a_share_quant/features/price_guidance.py:46-47 | an adjusted price is traded at the nearest tick |
| PriceGuidance.BoundariesLie | src/a_share_quant/advisory/price_engine.py:42-60 | how the exact boundaries lie to the close, the averages and the range: anchor, entry range, maximum, highest of three supports, protection and reducing range |
| PriceGuidance.PlanAtTheClose | src/a_share_quant/advisory/price_engine.py:33-97 | a named plan anchored at the close, with all its prices |
| PriceGuidance.PlanBelowTheClose | src/a_share_quant/advisory/price_engine.py:33-97 | a named plan of adjusted prices anchored below the close, with the earlier protection kept |
| PriceGuidance.ReasonsIff | src/a_share_quant/advisory/price_engine.py:67-75 | each boundary reason means the absence or presence of a tick; the catch-all reason is never given |
| PriceGuidance.EmittedIff | src/a_share_quant/advisory/price_engine.py:61-97 | a plan is emitted exactly when ticks exist where they must, none of the range exceeds 1.01 times the close, and the risk distance fits |
| PriceGuidance.RejectionIff | src/a_share_quant/advisory/price_engine.py:67-97 | each reason for a refused plan is true and each true one is given; only with none can a price that rounds to zero be the cause, and the reducing range never is |
| PriceGuidance.RoundedAreClose | src/a_share_quant/advisory/price_engine.py:149-154 | rounding moves a price by less than a tick, to the safe side |
| PriceGuidance.ProtectionNeverFalls | src/a_share_quant/advisory/price_engine.py:56-60 | from plan to plan the protection price never falls |
| PriceGuidance.EmittedPlanPartitions | src/a_share_quant/advisory/price_overlay.py:70-92 | on an emitted plan a good quote is always answered, by four adjoining price ranges; it waits exactly from the invalidation price up to below the range |
| PriceGuidance.AnsweredIff | src/a_share_quant/advisory/price_overlay.py:48-72 | a quote is answered exactly before the plan's expiry, if it was not observed or quoted later and its price is positive; without good quality, price and time nothing is said |
| PriceGuidance.RisesWithPriceIff | src/a_share_quant/advisory/price_overlay.py:73-92 | a rising price passes the states in order exactly on plans whose range reaches the maximum |
| PriceGuidance.PositionSizeIsGreatest | src/a_share_quant/advisory/price_engine.py:125-146 | the size is whole lots of 100 and exactly those up to it meet the four caps |

## Left out

- Decimal context precision and binary floating point: money and prices are exact integers, all other
  quantities exact reals; NaN and infinities are not modelled, so neither are NaN scores in sorts.
- SHA-256: an abstract digest; the theorems that need it ask that it be injective and never empty.
- Normalisation and field validation: symbols, names, versions and regimes arrive normalised; constructors
  that validate appear as subset types or preconditions. JSON, CSV and checkpoint parsing are not modelled.
- Files: a replacement, an append or an unlink is one atomic effect; torn writes are not modelled.
- Threads: steps interleave, each locked section being one step; the coordinator without a checkpoint path,
  its notices, input summary and worker loop are not modelled.
- EodSafety.NoEarlyRetry: is about the retry time saved last; a failed checkpoint write leaves the coordinator blocked instead.
- EodSafety.RequestOutlivesRefresh: asks that the outcome of the refresh be saved; after a failed write the coordinator is blocked with the refreshed day pending.
- EodSafety.PauseHoldsUnless: is about states with no refresh in flight, because a refresh that began before the pause may still end.
- Reimport.InterruptedConfirmationIff: asks that the fills not yet recorded were stamped behind everything of their date on both readings; `EqualStampsCanRefuse` shows why, and `ResumeIff` states the resumed confirmation for any stamps.
- EvaluatorSafety.RunSolvent: asks for a positive cost rate, for sales that bring in no less than their fees and for no negative open, none of which the source checks; `SaleNetIff` and `BuyNetIff` show what a trade does otherwise.
- EvaluatorAccounts.RowsBalanced: asks for what RunSolvent asks for, and for no negative price.
- EvaluatorAccounts.BenchmarkTelescopes: asks for positive benchmark closes on all days but the last, because the source skips the others.
- EvaluatorCausality.Causality: asks for a delay of at least one day, as the evaluator's constructor does, and compares runs that end without an error.
- Competition.DefaultMaturityPassesIff: the supplied calendar must be right about the days up to the maturity; a wrong one is taken at its word.
- Ledger positions are a map by symbol rather than a sorted tuple; `record_buy` and `record_sell`, which only
  build a fill, and import previews are not modelled.
- The square root of the rank correlation: numerator and squared denominator are kept apart.
- Bytes of a price plan beyond its prices, and plan dates other than its expiry, are not modelled; features
  satisfy what the feature builder checks.
- Date arithmetic has no overflow at the ends of the calendar.
- Forward labels, evaluation metrics of the backtest, pandas features, model fitting, providers, promotion,
  governance, the HTTP workbench and all command-line programs.
- `backtest/reference.py`: the evaluator covers the same ground.
