# A verified model of the trading bot's stateful core

The bot turns price bars and ticks into orders, manages the resulting positions bar by bar, and judges its strategies
by backtests that are supposed to do the same thing. This project models those parts in Dafny and proves what they
keep over every price path, every stream of events and every interleaving. Prices, lots and money are reals, times are
integer milliseconds. Broker answers, news and compliance verdicts, detectors and pair tables are arbitrary inputs.

Code that changes objects is modelled by classes whose methods are proved against a functional specification of the
same step; loops are loops with invariants. The theorems are then about those specifications: about folds of steps over
whole runs. Files named for laws, exits, gates, signals, verdicts, sides or life state what a step decides apart from
the code's own tests: comparisons by direction, clock times and constants are written out there.

| part of the bot | files | main results |
|---|---|---|
| V5 exit ladder and the backtest loop it mirrors | `AsianSweepExit.dfy`, `LadderLaws.dfy` | the two agree on every path; tight payoff in R; the action ledger; the broker holds the ladder's stop |
| swing tracker, trailing stop, position manager | `SwingTracker.dfy`, `TrailingStop.dfy`, `PositionManager.dfy`, `TrailHistory.dfy`, `StopOuts.dfy` | streaming equals batch; closed form of the stop over every run; no self-hit; a position leaves exactly when a bar touches its stop |
| NY Gold data, detector, backtest | `NyGoldData.dfy`, `NyGoldDetector.dfy`, `NyGoldLevels.dfy`, `NyGoldLife.dfy`, `NyGoldSignals.dfy`, `NyGoldBacktest.dfy`, `NyGoldRun.dfy`, `NyGoldKeys.dfy`, `NyGoldExits.dfy`, `NyGoldGates.dfy`, `NyGoldGap.dfy` | two-run causality; the life of a level; when a call signals, and what; burned levels never signal and no level is traded twice a day; when a bar asks and fills, every trade explained by the bars; run discipline and ledger |
| live admission | `DailyTracker.dfy`, `HouseMoney.dfy`, `LiveEngine.dfy`, `RankingLaws.dfy`, `AdmissionRuns.dfy`, `AdmissionVerdicts.dfy` | safety over every run of scan cycles and fills; every candidate's fate, every rejection true and every order allowed |
| exit policies of the sweep | `ExitPolicies.dfy`, `ExitLaws.dfy`, `ExitPayoffs.dfy`, `LatestSwingTrail.dfy` | what each bar decides; payoff by exit reason; loss capped by sizing; closed form of the swing trail, and where it leaves its documentation |
| event-driven backtest | `MultiSetupTrade.dfy`, `MultiSetupPayoff.dfy`, `MultiSetupBacktest.dfy`, `MultiSetupLedger.dfy`, `MultiSetupLimits.dfy`, `MultiSetupCausality.dfy`, `MultiSetupExits.dfy`, `MultiSetupRisk.dfy`, `RejectionCandle.dfy`, `EquityCurve.dfy`, `HaltedDrawdown.dfy`, `MultiSetupRuns.dfy` | two-run causality and when a trade opens; what each event does to every trade; exact loss bound, carried through the ledger; every trade closed once; caps, halts, exact lazy cursor; when the reported drawdown is true, known at the halt |
| tick collector, writer, replay | `TickCollector.dfy`, `TickWriter.dfy`, `TickPipeline.dfy`, `Replay.dfy` | accounting over every interleaving, abandoned writes included; when a part number is used twice; from polled batch to replayed tick |
| bars from ticks | `BarAggregator.dfy`, `MultiPairFeed.dfy` | streaming equals grouping; what a bar tells of its ticks; integrity scan; demultiplexing |
| trade statistics | `TradeJournal.dfy` | one pass equals the all-pairs definitions |
| support and resistance levels | `SrLevels.dfy`, `SrSides.dfy`, `Sorting.dfy` | optimal spacing, minimal clusters, levels apart; what a level says of the bars |
| broker profiles in `.env` | `Strings.dfy`, `EnvFile.dfy`, `BrokerProfiles.dfy`, `NameLaws.dfy`, `EnvRoundTrip.dfy` | printer and parser round trip over any old file; what becomes of a typed name |

`Common.dfy` and `RealFacts.dfy` hold shared vocabulary and arithmetic. `dafny verify dfyconfig.toml` checks the whole
project.

## Where the code differs from what it says or promises

The model follows the code. Each point below is proved, with the exact condition where there is one.

- `compute_pnl` and `simulate` treat a TP2 exit as if all lots had run to TP2, although half was closed at TP1
  (`AsianSweepExit.ActionLedger`; two bars that do it: `AsianSweepExit.Tp2CountsHalfTwice`).
- The 60-minute cooldown counts a loss on the UTC day of the bar before the exit bar, and a loss booked on the first
  bar of a day is forgotten by the roll that follows (`NyGoldRun.CooldownRespected`,
  `NyGoldRun.LossOnFirstBarOfDayIsForgotten`). A position is flattened at 17:00 UTC, so this needs data without a bar
  from there to midnight; over such data two losses of one day cost 30 minutes (`NyGoldGap.TwoLossesShortWait`).
- The level scan passes over a swing high on a bar whose low is a swing burned before, fresh or not
  (`NyGoldLife.UntestedIsIgnored`; every other swing in reach: `NyGoldLife.LevelLife`).
- Policy D is documented to trail behind the most recent swing; it trails behind the tightest. The stops agree exactly
  when no swing confirmed before arming is tighter than the initial stop and every latest swing since
  (`LatestSwingTrail.StopsAgreeExactly`, `LatestSwingTrail.StopsCanDiffer`).
- A first-target tag is booked as it stands, so the loss cap of the event-driven backtest holds exactly when first
  target and second exit together lose at most twice the risk (`MultiSetupPayoff.LossBoundExactly`). The detectors' own
  tags always meet that (`MultiSetupPayoff.DetectorTargetsAreSane`).
- The event-driven backtest divides by the balance at the start of the day and fails exactly when that is zero on a day
  reached without a halt (`MultiSetupLimits.FailsExactlyOnZeroDayStart`, `MultiSetupRuns.WipeoutFails`).
- After the total halt no event samples equity; only the close at the end of the data does, if anything is open then. So
  the reported drawdown can be below the true one (`MultiSetupRuns.HaltHidesLoss`; the exact condition over the finished
  run: `EquityCurve.HaltedDrawdownIsTrueExactly`). At the halt one can tell: it will be the true one, whatever data
  follow, exactly when nothing is open then (`HaltedDrawdown.HaltedReportIsSafeExactly`).
- No-pyramiding looks at positions, not at pending orders: a pending order filled on a symbol that has a position by
  then makes a second one (`AdmissionRuns.OnePositionPerSymbolExactly`, `AdmissionRuns.FillCanDouble`). Market entries
  never wait.
- Part names are recognised only with exactly five digits. With more than a hundred thousand parts in a directory a
  restarted writer overwrites a part, and replay order is no longer write order
  (`TickWriter.OverwritesExactlyBeyondFiveDigits`, `TickWriter.NamesSortByNumber`).
- A writer cancelled in the middle of a flush writes the whole buffer again, and abandons a write that goes on running
  in its thread, even one that has not chosen its number yet. The repeats are part of what was already written, and a
  replay ignores them (`TickPipeline.StoppedSessionIsComplete`). Whether one of the two chooses while the other has
  chosen and not stored decides if a part number is used twice, over the same ticks, or the ticks are there twice
  (`TickPipeline.NumberUsedTwiceExactly`).
- Replay is said to be indistinguishable from the live collector. It drops every tick that is not later than all before
  it, so it is lossless exactly on strictly increasing positive times (`Replay.LosslessExactlyWhenStrict`, for a whole
  session `TickPipeline.ReplayIsLosslessExactly`).
- An unknown symbol is documented as a `KeyError` in the multi-pair feed; it is counted and dropped
  (`MultiPairFeed.UnknownSymbolsAreDropped`).
- The journal summary guards against unset results everywhere but in the sum of losses, so it fails exactly when there
  is one (`TradeJournal.TradeJournal.Summarise`).
- A profile value survives a rewrite exactly when it has no white space at its ends, so a password with such white
  space is changed (`EnvFile.AssignmentSurvivesExactly`).

## Model

| member | source | states |
|---|---|---|
| `AsianSweepExit.ExitState.constructor` | risk/asian_sweep_exit.py:97-125 | A new state holds the signal prices and lots; a missing or zero TP1 tag falls back to entry plus one R |
| `AsianSweepExit.ExitState.MaintainExit` | risk/asian_sweep_exit.py:148-228 | One bar changes the object and emits actions exactly as the ladder step: stop, then TP1 partial, then trail, then TP2 |
| `AsianSweepExit.ExitState.ForceCloseEod` | risk/asian_sweep_exit.py:231-246 | The session flatten closes an open position at the given price with the EOD reason of its phase and leaves a closed one alone |
| `AsianSweepExit.ExitState.ComputePnl` | risk/asian_sweep_exit.py:253-289 | The P&L formula on the final state, zero while nothing was closed or the pair is unknown |
| `AsianSweepExit.RunLive` | risk/asian_sweep_exit.py:148-246 | Folding the per-bar call over a session and flattening at the last close is the ladder trade, with the concatenated actions |
| `AsianSweepExit.SimulateBars` | multi_pair_backtest.py:254-274 | The reference loop with its trail price, flag and breaks reaches the same exit price, reason and TP1 flag as the folded ladder |
| `AsianSweepExit.Simulate` | multi_pair_backtest.py:221-296 | Refinement: for every bar sequence and either direction the reference simulation agrees with the live ladder on exit price, reason, TP1 flag and unrounded P&L; it returns nothing exactly on an empty session or a non-positive risk |
| `AsianSweepExit.OpenedIsV5` | risk/asian_sweep_exit.py:97-141 | A signal with its stop on the losing side and TP2 at 2.5 R opens a trade the payoff theorem speaks of |
| `AsianSweepExit.RunKeepsInvariant` | risk/asian_sweep_exit.py:148-228 | After any well-formed bars an open trade satisfies the phase invariant and a closed one the exit invariant |
| `AsianSweepExit.MoveBounds` | risk/asian_sweep_exit.py:253-289 | The paid price move lies between -1R and +2.5R, is -1R exactly on SL, +2.5R exactly on TP2, and positive once TP1 was hit |
| `AsianSweepExit.Payoff` | risk/asian_sweep_exit.py:148-289 | The same bounds in money for every V5 trade over every well-formed price path, which always ends closed with no lots left |
| `AsianSweepExit.ClosedIsFinal` | risk/asian_sweep_exit.py:154-155 | Nothing that comes after the exit bar changes the trade |
| `AsianSweepExit.TradeActionsMatch` | risk/asian_sweep_exit.py:148-246 | Executing the emitted actions closes all initial lots and books what the ladder says |
| `AsianSweepExit.Tp2ExitIsAtTp2` | risk/asian_sweep_exit.py:211-226 | A TP2 exit is at the TP2 price and only after TP1 |
| `AsianSweepExit.PnlVersusBooked` | risk/asian_sweep_exit.py:253-289 | The formula exceeds the executed profit by the half already sold at TP1, counted again, and only on TP2 |
| `AsianSweepExit.ActionLedger` | risk/asian_sweep_exit.py:148-289 | Over every bar path, in dollars or yen, the actions close exactly the initial lots and `compute_pnl` equals the action ledger except on TP2, where the excess is half of (TP2 - TP1) times lots times contract |
| `AsianSweepExit.Tp2CountsHalfTwice` | risk/asian_sweep_exit.py:211-289 | Two bars on which the formula pays 2.5 R and the executed actions 1.75 R |
| `LadderLaws.OpensWith` | risk/asian_sweep_exit.py:97-141 | A state opens with the tagged TP1, or at one R without a tag or with a zero one, and with nothing done yet |
| `LadderLaws.EveryBarDecides` | risk/asian_sweep_exit.py:148-228 | On every bar of every path that finds the position open: a touched stop closes it whatever else is touched; otherwise TP1 once, half off and break-even; then the trail, never backwards, and TP2 |
| `LadderLaws.BrokerHoldsTheStop` | risk/asian_sweep_exit.py:196-246 | Over every bar path, flattened or not, a broker who applies the emitted stop modifications in order holds exactly the stop the ladder ends with |
| `SwingTracker.FindSwings` | strategy/patterns/_multi_setup_common.py:106-146 | The batch finder returns exactly the specified swings, or the error for a lookback below one |
| `SwingTracker.CheckSides` | strategy/patterns/_multi_setup_common.py:128-136 | The early-exit comparison loop decides both fractal tests |
| `SwingTracker.SwingsAreExactlyTheFractals` | strategy/patterns/_multi_setup_common.py:106-146 | A swing is reported if and only if its bar strictly beats its neighbours on both sides |
| `SwingTracker.SwingsAreInOrder` | strategy/patterns/_multi_setup_common.py:145 | Swings come in strictly increasing order of index, a high before a low |
| `SwingTracker.TrackerState.Update` | strategy/swing_tracker.py:52-83 | One streamed bar updates the three-deep window and the swing lists and reports breaks of prior structure |
| `SwingTracker.TrackerState.GetLastSwing` | strategy/swing_tracker.py:87-97 | The most recent confirmed swing price of a pair, if any |
| `SwingTracker.FedIsStateOf` | strategy/swing_tracker.py:52-83 | One streaming step keeps the state equal to the batch result over all bars so far |
| `SwingTracker.StreamingMatchesBatch` | strategy/swing_tracker.py:52-83 | For any interleaving of pairs the tracker holds, per pair, exactly the batch swings of that pair with lookback one, in order |
| `TrailingStop.TrailingStopLoss.Update` | risk/trailing_sl.py:86-142 | One update seeds, ratchets and widens as specified and proposes a stop only on a material change |
| `TrailingStop.TrailingStopLoss.InProtectionWindow` | risk/trailing_sl.py:184-201 | Membership in the rollover window of the same UTC day |
| `TrailingStop.RatchetIsBest` | risk/trailing_sl.py:104-117 | The structural stop never moves against the position, covers the new target and is one of the two |
| `TrailingStop.EffectiveIsNoTighter` | risk/trailing_sl.py:119-137 | The window only ever loosens the stop |
| `PositionManager.GriffPositionManager.RegisterPosition` | execution/position_manager.py:100-105 | Registering stores the position under its id, replacing an older one in place |
| `PositionManager.GriffPositionManager.MaintainOne` | execution/position_manager.py:182-207 | One position on one bar: modify, keep the old stop if the broker refuses, then the stop-hit test on what is cached |
| `PositionManager.GriffPositionManager.Maintain` | execution/position_manager.py:162-224 | A whole maintenance call equals the sweep over the snapshot, with its report of updates and closes |
| `TrailHistory.InvariantHolds` | execution/position_manager.py:162-224 | The invariant tying trail, cache and bar history holds after every run of registrations and bars |
| `TrailHistory.TrailClosedForm` | execution/position_manager.py:172-207 | After any run, with any broker answers, the structural stop is the best of the initial stop and every swing target since first sight, and the cached stop is never beyond it |
| `TrailHistory.BestIsUnique` | risk/trailing_sl.py:104-117 | That closed form determines the stop |
| `TrailHistory.TargetsIgnoreWindow` | risk/trailing_sl.py:104-142 | The swing targets do not depend on the window settings |
| `TrailHistory.AcceptedStopIsEffective` | risk/trailing_sl.py:119-142 | After an accepted maintenance the cached stop is the effective one within the 1e-9 threshold |
| `TrailHistory.StopOutsideWindow` | risk/trailing_sl.py:104-142 | Outside the window it is the closed form itself within that threshold |
| `TrailHistory.WindowLeavesNoTrace` | risk/trailing_sl.py:119-142 | A run with the window and the same run without it end, outside the window, within the threshold of the same stop |
| `TrailHistory.NoSelfHit` | execution/position_manager.py:172-207 | A bar whose newly confirmed swing raises the stop of a position seen before never stops it out itself, in or out of the window, whatever the broker answers |
| `StopOuts.StopOutsAreExact` | execution/position_manager.py:172-207 | After any run and one more bar of the pair, whatever the broker answers, a position is gone, and reported closed, if and only if the bar touched its stop as cached after the answer; else it is there with that stop; reported updates are the changes |
| `StopOuts.SurvivorsAreClear` | execution/position_manager.py:162-224 | What is left of the pair is clear of the bar, the report lists exactly what is gone in order, and other pairs are untouched |
| `StopOuts.TargetIsBehindLastTurn` | risk/trailing_sl.py:104-117 | The stop a pair calls for is the offset in pips behind the last bar lower (for shorts higher) than both neighbours, if there is one |
| `StopOuts.PipIsYenOrNot` | risk/trailing_sl.py:44-50 | A pip is a hundredth exactly when the pair names the yen, in any mixture of cases |
| `StopOuts.WideningIs` | risk/trailing_sl.py:119-137 | A stop is loosened by what the table says of the pair in capitals, or by the default, in pips |
| `StopOuts.WideningIsRemembered` | risk/trailing_sl.py:119-142 | After any run and one more bar of its pair a position is marked as loosened exactly near the rollover and short of the entry, and what is remembered is the structural stop of the bar on which that began |
| `NyGoldData.VisibleCount` | strategy/ny_gold_data.py:77-83 | Bisection yields the number of bars closed by t |
| `NyGoldData.SliceIsClosedBars` | strategy/ny_gold_data.py:85-101 | A slice never trips the look-ahead guard, and on sorted data holds exactly the bars closed by t |
| `NyGoldData.AssertNoLookahead` | strategy/ny_gold_data.py:156-180 | The guard accepts exactly when no given slice ends after t |
| `NyGoldData.SliceOfSlice` | strategy/ny_gold_data.py:77-101 | Cutting at t after cutting later changes nothing |
| `NyGoldData.AgreeEarlier` | strategy/ny_gold_data.py:144-154 | Agreement on what is visible at a time implies agreement at every earlier time |
| `NyGoldData.TruncationAgrees` | strategy/ny_gold_data.py:85-101 | Truncated data agree with the full data up to the cut |
| `NyGoldDetector.NYGoldSweepDetector.Detect` | strategy/ny_gold_detector.py:179-218 | One detector call: day reset, fresh levels, zone, nearest first, trigger, burn on use |
| `NyGoldDetector.NYGoldSweepDetector.FindFreshLevels` | strategy/ny_gold_detector.py:221-286 | The level scan with its burn of stale levels; a burned swing low also skips the swing-high test of its bar |
| `NyGoldDetector.NYGoldSweepDetector.FilterZone` | strategy/ny_gold_detector.py:319-355 | The proximity filter with its dwell timers |
| `NyGoldDetector.NYGoldSweepDetector.TryTrigger` | strategy/ny_gold_detector.py:358-395 | The wait-offset loop, from the same bar back to the maximum wait |
| `NyGoldDetector.NYGoldSweepDetector.Evaluate` | strategy/ny_gold_detector.py:397-480 | One sweep and reversal pair, with the burn on a too-deep wick |
| `NyGoldDetector.NYGoldSweepDetector.TpModeB` | strategy/ny_gold_detector.py:578-637 | The nearest opposing swing within reach, less the buffer |
| `NyGoldLevels.NearestFirstSorts` | strategy/ny_gold_detector.py:204-208 | Candidates are tried nearest first, none lost and none added |
| `NyGoldLevels.CallRespectsBurned` | strategy/ny_gold_detector.py:179-218 | A call forgets nothing burned that day, signals nothing burned and burns what it signals |
| `NyGoldLevels.BurnedStaysBurned` | strategy/ny_gold_detector.py:187-218 | The burned set only grows within a UTC day |
| `NyGoldLevels.BurnedNeverSignals` | strategy/ny_gold_detector.py:187-218 | A burned key never signals again that day, so a key signals at most once a day |
| `NyGoldKeys.LevelIsTradedOnceADay` | strategy/ny_gold_backtest.py:194-330 | In a finished backtest no two trades were signalled by the same level key on the same UTC day |
| `NyGoldKeys.KeysHoldThroughout` | strategy/ny_gold_backtest.py:194-310 | After every decision the keys of all trades and of the pending signal differ per day, and the detector remembers those of its day as burned |
| `NyGoldLevels.DeepWickStays` | strategy/ny_gold_detector.py:413-426 | Looking further back keeps a too-deep wick in view |
| `NyGoldLevels.BurnedMidCallNeverSignals` | strategy/ny_gold_detector.py:377-395 | A level burned by a wick in the middle of a call signals at no later wait offset of that call |
| `NyGoldLevels.SignalWasNeverBurned` | strategy/ny_gold_detector.py:187-218 | The signalled key was unburned at the moment of use, and the call burns exactly that key on top |
| `NyGoldLevels.TriggerSignal` | strategy/ny_gold_detector.py:358-395 | A signal carries its level key and bars that pass the pair test |
| `NyGoldLevels.HybridReward` | strategy/ny_gold_detector.py:640-659 | The hybrid target is 1R to 3R away |
| `NyGoldLevels.SignalShape` | strategy/ny_gold_detector.py:483-568 | Every hybrid signal has stop, reversal close and target in order, at least the minimum risk, a reward of 1R to 3R and a sweep at most the maximum wait back |
| `NyGoldLife.LevelLife` | strategy/ny_gold_detector.py:221-355 | What a call does to a swing in reach that is not burned: burned and silent when a 1M bar has pierced it since its confirmation, or price has been near for more than 25 minutes; its clock starts, runs on or is dropped |
| `NyGoldLife.UntestedIsIgnored` | strategy/ny_gold_detector.py:246-282 | A swing high on a bar whose low is a swing burned before is neither burned nor signalled |
| `NyGoldLife.SignalIsUnpierced` | strategy/ny_gold_detector.py:221-355 | A signal comes from a swing of the lookback, strictly beyond two neighbours on each side, unburned, unpierced by any visible 1M bar since its confirmation, and near the last 5M bar |
| `NyGoldLife.PairTestIsSweepAndTurn` | strategy/ny_gold_detector.py:397-480 | The pair test succeeds if and only if the bars sweep the level within bounds, close back, never go deeper, and the last one engulfs or pins |
| `NyGoldLife.SignalIsReversal` | strategy/ny_gold_detector.py:358-480 | A signal has seen such a sweep at most three bars back, and its stop lies a fifth of a pip beyond it |
| `NyGoldSignals.NearestReversalSignals` | strategy/ny_gold_detector.py:179-218 | A call on which some open level has a worthwhile reversal signals, and no further from the close than that level |
| `NyGoldSignals.DeepWickBurns` | strategy/ny_gold_detector.py:397-460 | A call burns an open level exactly when it signals or when, coming to it, price has gone too deep since its last sweep |
| `NyGoldSignals.SignalAsks` | strategy/ny_gold_detector.py:483-659 | The target of a signal in each mode, from the nearest opposing swing in reach less its buffer, and its depth and times |
| `NyGoldSignals.GradeIsEarned` | strategy/ny_gold_detector.py:483-545 | Grade A exactly for a level touched twice in eight hours, an engulfing reversal and a sweep of two to six tenths of a pip |
| `NyGoldSignals.AverageRangeIs` | strategy/ny_gold_detector.py:64-82 | The average range is the mean span of the last fourteen 5M bars, closes before included |
| `NyGoldBacktest.Backtest.CloseTrade` | strategy/ny_gold_backtest.py:148-190 | Booking a close: net P&L, running balance, loss streak and cooldown |
| `NyGoldBacktest.Backtest.ManagePosition` | strategy/ny_gold_backtest.py:420-491 | One bar of management: entry bar skipped, deferred exit, flatten, time stop, SL before TP |
| `NyGoldBacktest.Backtest.RollDay` | strategy/ny_gold_backtest.py:210-217 | The UTC day roll of the daily counters |
| `NyGoldBacktest.Backtest.FillPending` | strategy/ny_gold_backtest.py:235-245 | The next-bar fill of a pending signal, under halts and cap; the pending signal is consumed either way |
| `NyGoldBacktest.Backtest.CallDetector` | strategy/ny_gold_backtest.py:247-308 | Session, skip, cutoff, cap, cooldown and news gates before and after the detector call |
| `NyGoldBacktest.Backtest.Decide` | strategy/ny_gold_backtest.py:194-310 | One pass of the main loop in its order |
| `NyGoldBacktest.RunBacktest` | strategy/ny_gold_backtest.py:115-330 | The whole backtest, data-end close included, is the fold of its decisions |
| `NyGoldRun.DecisionsAgree` | strategy/ny_gold_backtest.py:194-310 | Two data sets that agree on every bar closed by t give equal states after every decision up to t |
| `NyGoldRun.RecordsOnlyGrow` | strategy/ny_gold_backtest.py:207-310 | Closes and equity samples are never rewritten |
| `NyGoldRun.Causality` | strategy/ny_gold_backtest.py:194-330 | The run on data cut at t is a prefix of the full run, apart from the data-end close of a trade open at the cut |
| `NyGoldRun.TradesDoNotOverlap` | strategy/ny_gold_backtest.py:201-245 | Never two open trades; each is entered after the previous exit bar |
| `NyGoldRun.MinimumHold` | strategy/ny_gold_backtest.py:424-434 | Every close other than at the end of the data is at least 60 s after entry when bars are a minute apart |
| `NyGoldRun.LedgerBalances` | strategy/ny_gold_backtest.py:155-190 | `balance_after` is the initial balance plus the prefix sum of P&L, after every trade |
| `NyGoldRun.SizingUsesRunningBalance` | strategy/ny_gold_backtest.py:359-371 | The equity sample entries are sized from is the running balance whenever a fill can happen |
| `NyGoldRun.DailyCap` | strategy/ny_gold_backtest.py:236-245 | At most three fills per UTC day |
| `NyGoldRun.CooldownRespected` | strategy/ny_gold_backtest.py:171-183 | The next entry waits 30 minutes after a non-winning exit and 60 after the second in a row, both counted on the day of the bar before the exit bar; the timer is exactly that wait |
| `NyGoldRun.LossOnFirstBarOfDayIsForgotten` | strategy/ny_gold_backtest.py:201-217 | A loss booked on the first bar of a UTC day is dropped by the day roll that follows it, in whatever state |
| `NyGoldGap.DetectorSignals` | strategy/ny_gold_detector.py:179-218 | One fresh level with a pin bar below it makes the detector signal |
| `NyGoldGap.TwoLossesShortWait` | strategy/ny_gold_backtest.py:115-330 | A backtest over six given minutes, with a gap over midnight, books two losses on one day and waits only 30 minutes after the second |
| `NyGoldRun.TotalHaltIsFinal` | strategy/ny_gold_backtest.py:219-224 | After the total halt no trade is entered again |
| `NyGoldRun.FinishedDiscipline` | strategy/ny_gold_backtest.py:115-330 | All of these for the finished result, the data-end close included |
| `NyGoldExits.EveryTradeIsExplained` | strategy/ny_gold_backtest.py:115-492 | Every trade of the finished result: signalled at the close of the bar before, between 12:01 and 16:54 and outside news, filled at the next open at half a percent of the balance, ended by the first 1M bar that ends it, for its reason and price, a hit on the entry bar deferred by one |
| `NyGoldGates.FillsExactly` | strategy/ny_gold_backtest.py:215-243 | A bar with nothing open opens a trade if and only if a signal is pending, no balance so far breached a drawdown limit of the run or the day, fewer than three entries were made that day, and the minimum risk is left |
| `NyGoldGates.AsksExactly` | strategy/ny_gold_backtest.py:244-308 | A bar asks the detector, about what has closed, if and only if nothing is open and limits, cooldown and minute allow; outside news it takes the answer for the next bar |
| `DailyTracker.Tracker.RollIfNewDay` | monitoring/daily_tracker.py:186-202 | The roll at the India-time day change, carrying peak less drawdown plus P&L forward |
| `DailyTracker.Tracker.UpdateEquity` | monitoring/daily_tracker.py:135-146 | An equity observation raises peak and maximum drawdown of the day |
| `DailyTracker.Tracker.RecordTradeOpen` | monitoring/daily_tracker.py:148-155 | An open counts on the current India-time day |
| `DailyTracker.Tracker.RecordTradeClosed` | monitoring/daily_tracker.py:157-166 | A close adds its P&L to the current day |
| `DailyTracker.Tracker.SetFloatingPnl` | monitoring/daily_tracker.py:168-175 | Floating P&L is replaced on the current day |
| `DailyTracker.DayIsSummarised` | monitoring/daily_tracker.py:135-146 | Within a day the fields are the peak and the all-pairs maximum drawdown of the observed equities |
| `DailyTracker.EveryDayIsSummarised` | monitoring/daily_tracker.py:135-203 | Over any updates on any days the state tells of the last India-time day: its trades, its P&L, and the peak and largest fall of its equities from what the day before ended with |
| `HouseMoney.RiskIsCapped` | risk/house_money.py:92-152 | Inside its domain the risk stays between the defensive and the capped multiple of the base and is raised only after a win |
| `HouseMoney.RiskIsExactly` | risk/house_money.py:88-152 | Which error, or which risk: the base on the first trade; on the second the reduced base after no profit, and after a profit the base and exactly the fraction of that profit in money, up to the capped multiple |
| `LiveEngine.BestPerSymbolIsBest` | execution/live_engine.py:233-243 | The candidates are one per symbol, never grade C, and no signal of the symbol outranks them |
| `LiveEngine.Engine.PickBest` | execution/live_engine.py:233-243 | The dictionary loop computes those candidates |
| `LiveEngine.Engine.KillSwitch` | execution/live_engine.py:245-275 | High-water mark and total drawdown test |
| `LiveEngine.Engine.AdmitOne` | execution/live_engine.py:286-452 | One candidate through news, open position, direction, cap, compliance and sizing |
| `LiveEngine.Engine.ProcessScanCycle` | execution/live_engine.py:207-454 | A whole cycle equals the admission function on state, report and raised error |
| `LiveEngine.RaisedStops` | execution/live_engine.py:399-402 | An error out of sizing ends the cycle |
| `RankingLaws.CandidatesAreFirstBest` | execution/live_engine.py:233-243 | The candidates come in the order in which their symbols first appear among the tradeable signals, and each is the first of the best of its symbol by grade, confidence and reward to risk |
| `AdmissionRuns.EveryRunIsSafe` | execution/live_engine.py:217-454 | The safety invariant holds after every run of cycles, tracker updates, fills and closes |
| `AdmissionRuns.OneOrderPerDirectionAndDay` | execution/live_engine.py:323-343 | At most one order per direction per India-time day, so at most two a day |
| `AdmissionRuns.OnePositionPerSymbolExactly` | execution/live_engine.py:304-321 | At most one open position per symbol throughout a run, if and only if no pending order is filled on a symbol that has a position by then |
| `AdmissionRuns.OnePositionPerSymbol` | execution/live_engine.py:425-435 | With the patterns that enter at market only there is always at most one |
| `AdmissionRuns.FillCanDouble` | execution/position_manager.py:114-143 | A waiting SILVER_BULLET buy and an ASIAN_SWEEP sell at market of the same symbol: the fill makes a second position |
| `AdmissionRuns.KillSwitchHolds` | execution/live_engine.py:245-275 | A cycle whose equity is 8% or more below any equity seen places no order and rejects every candidate |
| `AdmissionRuns.SizingInDomain` | execution/live_engine.py:348-402 | `calc_trade_risk` is only ever called inside its domain |
| `AdmissionRuns.EveryCandidateCounted` | execution/live_engine.py:286-452 | Orders plus rejections of a completed round equal its candidates |
| `AdmissionRuns.CycleAccounts` | execution/live_engine.py:207-454 | The same for a whole cycle, with the order log growing by the orders placed |
| `AdmissionVerdicts.EveryCandidateHasItsFate` | execution/live_engine.py:286-452 | At the moment its turn comes, a candidate is turned away for the first of the five reasons that is true of it then, and otherwise sized and placed |
| `AdmissionVerdicts.CycleIsSoFar` | execution/live_engine.py:245-452 | Within the drawdown limit a cycle ends where its last candidate leaves it |
| `AdmissionVerdicts.RejectionsAreTrue` | execution/live_engine.py:245-387 | Over every run, each rejection of a cycle gives a reason that held of its candidate when it was turned away |
| `AdmissionVerdicts.EveryOrderIsAllowed` | execution/live_engine.py:286-435 | Over every run, each order stems from a candidate of a scan at which there was no news for its symbol, no veto of the compliance engine, no position, no trade that way, no full day and no kill switch |
| `ExitPolicies.OpenTrade.BookRemaining` | scripts/sr_flip_exit_sweep.py:266-272 | Booking what is left at a price |
| `ExitPolicies.OpenTrade.ForceClose` | scripts/sr_flip_exit_sweep.py:275-277 | The market close books the rest at the bar close |
| `ExitPolicies.OpenTrade.ExitFixedTp` | scripts/sr_flip_exit_sweep.py:284-301 | Policies A to C: stop before target on the same bar |
| `ExitPolicies.OpenTrade.ExitD` | scripts/sr_flip_exit_sweep.py:316-374 | Policy D: stop, arming at one R, swing trail |
| `ExitPolicies.OpenTrade.ScanSwings` | scripts/sr_flip_exit_sweep.py:341-372 | Its nested scan finds the tightest confirmed swing of the window |
| `ExitPolicies.OpenTrade.ExitE` | scripts/sr_flip_exit_sweep.py:377-396 | Policy E: stop, then the opposite rejection candle |
| `ExitPolicies.OpenTrade.ExitF` | scripts/sr_flip_exit_sweep.py:399-464 | Policy F: stop, break-even at one R, half off at two R, runner trail |
| `ExitPayoffs.EveryPathPays` | scripts/sr_flip_exit_sweep.py:266-464 | On every path of well-formed bars each policy pays by reason: SL exactly -1R, TP exactly its multiple, BE exactly half the spread cap, TRAIL of F at least 1.85R, OPP_REJ better than -1R |
| `ExitPayoffs.StopOnlyTightens` | scripts/sr_flip_exit_sweep.py:284-464 | While a trade is open its stop moves only in its favour, under every policy |
| `ExitPayoffs.SizingIsTight` | scripts/sr_flip_exit_sweep.py:622-664 | Floor-rounded lots keep the stake within the risk budget, and within one lot step of it unless capped at the maximum |
| `ExitPayoffs.LossIsCapped` | scripts/sr_flip_exit_sweep.py:266-664 | Composed bound: any trade a policy closes has gross P&L of at least -RISK_PCT% of the balance at entry; F cannot lose once at break-even |
| `ExitPayoffs.TightestIsTightest` | scripts/sr_flip_exit_sweep.py:341-372 | The scanned swing exists exactly when some swing does, and none is tighter |
| `ExitPayoffs.TightestOnlyTightens` | scripts/sr_flip_exit_sweep.py:338-373 | A longer window never gives a looser swing |
| `ExitPayoffs.SwingTrailClosedForm` | scripts/sr_flip_exit_sweep.py:316-374 | The stop of policy D is at all times a function of the bars since entry: initial until one R was seen, then the tighter of initial and tightest swing less buffer |
| `ExitLaws.EveryBarDecides` | scripts/sr_flip_exit_sweep.py:266-464 | On every bar of every path and under each of the six policies: which price and reason a trade leaves at, the stop always first, or with which stop, size and marks it stays; policy D by the confirmed swings since three bars before the entry |
| `ExitLaws.OpensWith` | scripts/sr_flip_exit_sweep.py:620-662 | A trade opens half the widest spread worse, with the signal stop and the target of its policy in multiples of that risk |
| `LatestSwingTrail.OneMoreBar` | scripts/sr_flip_exit_sweep.py:341-372 | One more bar confirms at most one swing, which is then the latest, and the tightest if it is tighter |
| `LatestSwingTrail.StopsAgreeExactly` | scripts/sr_flip_exit_sweep.py:316-374 | While the trade is open the stop of policy D and that of the documented most recent swing are the same until arming, and after that if and only if no swing confirmed by then is tighter than the initial stop and every latest swing since |
| `LatestSwingTrail.StopsCanDiffer` | scripts/sr_flip_exit_sweep.py:316-374 | A gold trade as the sizing opens it, and eleven bars on which the two stops are a dollar apart |
| `MultiSetupTrade.OpenTrade.UpdateOpenTrade` | scripts/multi_setup_backtest.py:194-274 | One bar of an open trade: stop, first target, second target, trail |
| `MultiSetupTrade.OpenTrade.ForceCloseAtMarket` | scripts/multi_setup_backtest.py:304-315 | The forced close books the rest at the bar close |
| `MultiSetupPayoff.EveryPathPays` | scripts/multi_setup_backtest.py:194-274 | On every path of bars a trade its own rules close pays by reason: SL exactly -1R, TP2 exactly half of each target, TRAIL at least half of the first target and half of break-even |
| `MultiSetupPayoff.SizingFitsBudget` | scripts/multi_setup_backtest.py:518-569 | An opened trade has ordered levels, bounded lots and a stake within the risk budget |
| `MultiSetupPayoff.LossBoundExactly` | scripts/multi_setup_backtest.py:194-274 | Every path of bars on which its own rules close a trade loses at most the stake, if and only if the first target and the nearer of second target and break-even together lose at most twice the risk |
| `MultiSetupPayoff.LossIsCapped` | scripts/multi_setup_backtest.py:194-569 | Composed bound: such a trade loses at most RISK_PCT% of the balance when that condition holds, and wins once a first target in profit was hit |
| `MultiSetupPayoff.DetectorTargetsAreSane` | scripts/multi_setup_backtest.py:504-627 | Slippage never breaks the condition for a target on the winning side of the signal entry; the tag of the detectors stays in profit |
| `MultiSetupBacktest.Backtest.Book` | scripts/multi_setup_backtest.py:596-600 | Balance, running peak and the list of closed trades |
| `MultiSetupBacktest.Backtest.EquityLog` | scripts/multi_setup_backtest.py:603-610 | An equal balance moves the last sample in time, a different one is appended |
| `MultiSetupBacktest.Backtest.WalkOpenTrades` | scripts/multi_setup_backtest.py:381-406 | The pair's open trades meet the bar: time stop, Friday close, own rules; the rest stay in order |
| `MultiSetupBacktest.Backtest.AdvanceCursor` | scripts/multi_setup_backtest.py:463-466 | The lazy cursor loop |
| `MultiSetupBacktest.Backtest.Enter` | scripts/multi_setup_backtest.py:461-569 | Windows, candidate, spread guard, slippage, sizing and the new trade |
| `MultiSetupBacktest.Backtest.Decide` | scripts/multi_setup_backtest.py:415-569 | The daily and total drawdown halts in front of the gates |
| `MultiSetupBacktest.Backtest.OnEvent` | scripts/multi_setup_backtest.py:373-569 | One event of the stream |
| `MultiSetupBacktest.Backtest.CloseAtEndOfData` | scripts/multi_setup_backtest.py:580-591 | Whatever is open when the stream ends is closed at its pair's last bar |
| `MultiSetupBacktest.RunBacktest` | scripts/multi_setup_backtest.py:345-593 | The whole event loop over mutable trade objects equals the fold of its steps |
| `MultiSetupBacktest.FailureIsFinal` | scripts/multi_setup_backtest.py:419-422 | Nothing follows the division by zero |
| `MultiSetupLedger.BalanceIsInitialPlusNet` | scripts/multi_setup_backtest.py:596-600 | In every state the balance is the initial one plus all net results and the peak is the running maximum |
| `MultiSetupLedger.WalkConserves` | scripts/multi_setup_backtest.py:381-406 | Walking open trades moves them to the closed ones and loses none |
| `MultiSetupLedger.TradesAreConserved` | scripts/multi_setup_backtest.py:373-593 | Open and closed trades together are exactly the trades opened |
| `MultiSetupLedger.NothingOpensTwice` | scripts/multi_setup_backtest.py:373-569 | Each bar opens at most one trade |
| `MultiSetupLedger.FinalAccounts` | scripts/multi_setup_backtest.py:345-593 | At the end every opened trade has been closed exactly once and the accounts balance |
| `RejectionCandle.CandidateLooksBack` | strategy/patterns/_multi_setup_common.py:407-527 | The pre-gate, a pin or an engulfing bar on enough volume, looks at no bar after the current one |
| `RejectionCandle.CandidateIs` | strategy/patterns/_multi_setup_common.py:407-540 | The pre-gate lets a bar through exactly when it is a pin or an engulfing bar, either way, on eleven tenths of the mean volume of up to twenty bars before it |
| `MultiSetupLimits.CapsHold` | scripts/multi_setup_backtest.py:437-447 | Never more than two trades open and never more than two opened on one UTC day |
| `MultiSetupLimits.OpensOnlyWhenHealthy` | scripts/multi_setup_backtest.py:415-435 | A trade is only opened with neither halt in force, at more than 90% of the peak balance |
| `MultiSetupLimits.HaltIsFinal` | scripts/multi_setup_backtest.py:415-417 | After the total halt no trade is opened and no later event takes an equity sample, whatever the open trades go on to do |
| `MultiSetupLimits.FailsExactlyOnZeroDayStart` | scripts/multi_setup_backtest.py:409-435 | The run fails exactly at an unhalted event whose UTC day starts at balance zero; the peak is never zero |
| `MultiSetupRuns.WipeoutFails` | scripts/multi_setup_backtest.py:345-593 | Gold bought on the last bar of a Friday opens the next week so low that exactly the whole balance is lost, and the run ends in that failure |
| `MultiSetupRisk.OpeningIsWell` | scripts/multi_setup_backtest.py:504-569 | Whatever an event opens comes from a signal and is staked within the budget of the balance at that event |
| `MultiSetupRisk.EveryTradeIsTraced` | scripts/multi_setup_backtest.py:373-600 | In every state of every run each open trade and each record goes back to the event that opened it |
| `MultiSetupRisk.RecordsKeepToRisk` | scripts/multi_setup_backtest.py:345-600 | Every SL, TRAIL or TP2 record of a finished run loses at most RISK_PCT% of the balance at the event that opened it, given a sane first target, and sane signals give one |
| `MultiSetupLimits.CurveTracksBalance` | scripts/multi_setup_backtest.py:603-610 | Until a halt the last equity sample is the balance |
| `MultiSetupLimits.LazyCursorIsExact` | scripts/multi_setup_backtest.py:461-466 | The cursor moves only at events that reach the detectors, yet stands where a search from the start would put it |
| `MultiSetupLimits.CursorIsLargestEarlier` | scripts/multi_setup_backtest.py:461-466 | On sorted HTF bars that is the largest index with an open time before t |
| `MultiSetupCausality.OpensExactly` | scripts/multi_setup_backtest.py:415-569 | An event opens a trade exactly when no halt, cap, blackout or missing rejection candle stands in the way and the detectors answer to the last 260 hourly bars that opened before it and the last 80 bars up to it; it opens that trade |
| `MultiSetupCausality.SameBeginning` | scripts/multi_setup_backtest.py:373-569 | Two-run causality: runs that have had the same events and seen the same 15-minute bars up to them and the same hourly bars opening before them are in the same state, whatever else their data hold |
| `MultiSetupExits.OpensWith` | scripts/multi_setup_backtest.py:517-569 | A trade opens exactly on a signal in order, five pips of risk at least, when half a percent of the balance buys a hundredth of a lot; with which prices and how many lots |
| `MultiSetupExits.EveryEventDecides` | scripts/multi_setup_backtest.py:194-410 | At every event of every run each open trade is decided on by the bar: other pairs untouched, 48 hours, Friday from 23:45, then stop, first target, second target, trail; what ends is recorded with that price, reason and profit and is open no more |
| `EquityCurve.MaxDdFromCurve` | scripts/multi_setup_backtest.py:634-643 | The one-pass percentage drawdown loop |
| `EquityCurve.DrawdownIsLargestFall` | scripts/multi_setup_backtest.py:634-643 | For a positive curve it is the largest percentage fall over all pairs |
| `EquityCurve.CompressionKeepsDrawdown` | scripts/multi_setup_backtest.py:603-643 | Leaving out repeated balances changes neither peak nor drawdown |
| `EquityCurve.CurveIsCompressed` | scripts/multi_setup_backtest.py:603-610 | Up to and including a halt the curve is the compressed series of the balance after every event |
| `EquityCurve.FinishedCurve` | scripts/multi_setup_backtest.py:580-610 | The finished curve is the compressed series of the balances up to the halt or the end, with one more sample when the end of the data closes something |
| `EquityCurve.ReportedDrawdownIsTrue` | scripts/multi_setup_backtest.py:345-643 | Without a halt the finished curve shows every balance and the reported drawdown is that of all of them, the final one included |
| `EquityCurve.HaltedDrawdownIsTrueExactly` | scripts/multi_setup_backtest.py:415-643 | With a halt the reported drawdown is the deepest fall up to the halt or that of the end-of-data sample; it is the true one if and only if no later balance falls deeper than that and that sample no deeper than every balance |
| `EquityCurve.OverstatesOnlyBelowZero` | scripts/multi_setup_backtest.py:580-643 | It can be overstated only by a final balance below zero after the peak was raised |
| `HaltedDrawdown.HaltingRunGoesOn` | scripts/multi_setup_backtest.py:415-435 | A run that halts never ends in the division by zero |
| `HaltedDrawdown.EmptyHandsReportTruly` | scripts/multi_setup_backtest.py:415-643 | Halted with nothing open, the run reports the true drawdown, whatever data follow |
| `HaltedDrawdown.DueTradesClose` | scripts/multi_setup_backtest.py:381-395 | Once the time stop is due for everything open, a bar closes the trades of its pair, and the balance moves linearly with its close |
| `HaltedDrawdown.WorseContinuation` | scripts/multi_setup_backtest.py:373-643 | From a halt with an exposed pair, bars can be added one by one until the reported drawdown is below the true one |
| `HaltedDrawdown.HaltedReportIsSafeExactly` | scripts/multi_setup_backtest.py:415-643 | At a halt the drawdown to be reported is the true one for every continuation of the data if and only if nothing is open, given that open positions are not exactly hedged |
| `HaltedDrawdown.LoneTradeIsExposed` | scripts/multi_setup_backtest.py:415-643 | A trade alone on its pair is never such a hedge |
| `MultiSetupRuns.HaltHidesLoss` | scripts/multi_setup_backtest.py:345-643 | EURUSD and XAUUSD bought on the last bars of a Friday and closed by the time stop after the weekend: the run reports 20.035 percent where the balance fell by more than 40 |
| `TickCollector.TickCollector.PollOnce` | data/tick_collector.py:70-106 | One poll: strictly newer ticks offered in order, cursor to the newest, saturation reported |
| `TickCollector.OfferingTakesPrefix` | data/tick_collector.py:84-104 | A full queue keeps the oldest and drops the newest of a batch; collected plus dropped grow by the new ticks |
| `TickCollector.NewerIsNewer` | data/tick_collector.py:78-82 | Exactly the ticks newer than the cursor pass, in order |
| `TickWriter.TickWriter.ScanDirectory` | data/tick_writer.py:152-157 | The scan finds the highest recognised number |
| `TickWriter.TickWriter.NextPartNumber` | data/tick_writer.py:148-157 | The cached counter, or one past the highest part found |
| `TickWriter.TickWriter.WritePartition` | data/tick_writer.py:107-146 | A write that no other overlaps: one part goes to the next number and the counters advance |
| `TickWriter.TickWriter.Flush` | data/tick_writer.py:95-105 | A flush writes one part per date of the buffer, in order of first appearance |
| `TickWriter.GroupingIsExact` | data/tick_writer.py:96-102 | Grouping gives one group per date holding that date's ticks in order |
| `TickWriter.PartNumberRoundTrip` | data/tick_writer.py:28-28 | A part name is recognised exactly when its number has five digits, and then the number comes back |
| `TickWriter.NamesSortByNumber` | replay/replay_engine.py:61-61 | Name order is part order exactly up to a hundred thousand parts |
| `TickWriter.HighestIsHighest` | data/tick_writer.py:152-157 | The scan does not depend on the order of the listing |
| `TickWriter.NextAfterListing` | data/tick_writer.py:148-157 | A directory of n parts continues at n, but never past a hundred thousand |
| `TickWriter.OverwritesExactlyBeyondFiveDigits` | data/tick_writer.py:107-157 | The first write of a process to a date replaces an existing part exactly when there are more than a hundred thousand |
| `TickWriter.LevelWriteAppends` | data/tick_writer.py:107-157 | Where counter and directory are level, a write that nothing overlaps adds a part and keeps them level |
| `TickWriter.FlushAddsOnePartPerDate` | data/tick_writer.py:95-145 | A flush that nothing interrupts adds one part to every date of its buffer, with those ticks in order, and nothing to any other |
| `TickWriter.NextBesideWrite` | data/tick_writer.py:148-157 | Beside a write in progress the next number is the same one, unless its part is there and a directory scan sees it |
| `TickPipeline.EveryInterleavingAccounts` | data/tick_writer.py:51-146 | For every interleaving of polls, gets, the steps of every write, a cancellation at any of them, also while a thread runs and has no number yet, and the later steps of the write it abandons: FIFO queue, collected plus dropped equals fetched-new, and per date the settled parts and the groups to come are what was there, what was taken and the repeats; old parts are untouched |
| `TickPipeline.StoppedSessionIsComplete` | data/tick_writer.py:51-146 | A stopped session with an empty queue leaves per date exactly what was sent, in order, then the repeats of a cancelled flush, which a replay ignores; true before and after an abandoned write chooses its number, and while it runs this is what the disk settles to |
| `TickPipeline.NumberUsedTwiceExactly` | data/tick_writer.py:82-157 | Over a whole session no part number is used twice, if and only if neither the abandoned write nor the final flush ever chooses while the other, of the same date, has chosen and is unstored, or is stored but uncounted where no scan shows it |
| `TickPipeline.BeginLogs` | data/tick_writer.py:107-157 | The number the final flush chooses was chosen before exactly in that case, and then for the same ticks |
| `TickPipeline.LateLogs` | data/tick_writer.py:104-157 | The same of a number the abandoned write chooses after the cancellation |
| `TickPipeline.CutShortIsReached` | data/tick_writer.py:51-146 | A session of one tick, cancelled while its part is being written, before or after the number is chosen |
| `TickPipeline.FinalFlushFirst` | data/tick_writer.py:82-146 | There, the final flush beginning first writes part 0 twice and leaves the tick once |
| `TickPipeline.AbandonedWriteFirst` | data/tick_writer.py:82-146 | There, the abandoned write ending first leaves the tick in parts 0 and 1 |
| `TickPipeline.ChosenAfterTheFlush` | data/tick_writer.py:82-157 | An abandoned write that chooses after the final flush leaves the tick in parts 0 and 1, and no number twice |
| `TickPipeline.ChosenDuringTheFlush` | data/tick_writer.py:82-157 | One that chooses while the final flush has chosen and not stored writes part 0 again |
| `TickPipeline.RepeatsWereTaken` | data/tick_writer.py:82-93 | What is on disk twice was already taken |
| `TickPipeline.NoRepeatsWithoutBrokenFlush` | data/tick_writer.py:82-93 | No cancellation inside a flush, no repeats and no abandoned write |
| `TickPipeline.FlushBeginsExactly` | data/tick_writer.py:62-82 | A flush begins exactly on the tick that fills the buffer or on a timeout with ticks in it |
| `TickPipeline.BufferStaysSmall` | data/tick_writer.py:62-92 | Over every interleaving the writer never collects with a full buffer nor holds more than one |
| `TickPipeline.SentInTimeOrder` | data/tick_collector.py:78-106 | With time-ordered batches the ticks sent are in time order across polls |
| `TickPipeline.ReplayIsLosslessExactly` | replay/replay_engine.py:50-137 | A replay of a date after a stopped session gives back exactly what was there and what was sent, if and only if their times are positive and strictly increasing |
| `TickPipeline.ReplayGivesWhatWasSent` | replay/replay_engine.py:50-137 | With strictly ordered batches, a start at or after the epoch and a date new on disk, the replay emits exactly the ticks sent on that date, wherever the session was cancelled |
| `Replay.ReplayEngine.Run` | replay/replay_engine.py:50-137 | Replaying files and batches in order emits exactly the strict running maxima of time of the concatenated ticks, wherever the boundaries are; no file is an error |
| `Replay.MaximaIgnoreRepeats` | replay/replay_engine.py:95-101 | Ticks read again change nothing |
| `Replay.LosslessExactlyWhenStrict` | replay/replay_engine.py:95-101 | A replay gives everything back exactly when times are positive and strictly increasing |
| `BarAggregator.BarAggregator.OnTick` | data/bar_aggregator.py:124-156 | One tick opens, extends or closes the bar |
| `BarAggregator.BarAggregator.Flush` | data/bar_aggregator.py:158-168 | The bar in progress is drained once |
| `BarAggregator.StreamingMatchesGrouping` | data/bar_aggregator.py:124-168 | Emitted bars plus the flush are, one by one, the bars of the runs of ticks in one window: open, high, low, close, count, mean spread |
| `BarAggregator.RunsPartition` | data/bar_aggregator.py:124-156 | The runs cut the stream without losing or moving a tick |
| `BarAggregator.VolumeIsTickCount` | data/bar_aggregator.py:124-193 | Volumes add up to the ticks consumed |
| `BarAggregator.TimeOrderGivesWindowOrder` | data/bar_aggregator.py:68-77 | Non-decreasing times give non-decreasing windows |
| `BarAggregator.StreamPassesScan` | data/bar_aggregator.py:257-300 | The output is aligned and OHLC-consistent always, and strictly increasing exactly when windows never step back |
| `BarAggregator.MissingCountsSkipped` | data/bar_aggregator.py:279-282 | On aligned increasing bars the missing count is the number of skipped windows |
| `BarAggregator.ScanIs` | data/bar_aggregator.py:257-296 | The scan reports the number of bars and, exactly, whether times strictly rise, every bar is aligned and every open and close lies within low and high |
| `BarAggregator.BarsTellOfTheStream` | data/bar_aggregator.py:68-196 | The bars of any stream cut it into pieces, and each tells of its own: aligned window, first and last, highest and lowest mid price, count and mean spread |
| `MultiPairFeed.MultiPairFeed.constructor` | data/multi_pair_feed.py:45-59 | The symbols given are registered, each with an empty aggregator |
| `MultiPairFeed.MultiPairFeed.Register` | data/multi_pair_feed.py:83-86 | Registering twice is registering once |
| `MultiPairFeed.MultiPairFeed.OnTick` | data/multi_pair_feed.py:93-108 | One tick for one symbol; an unknown symbol is registered or counted |
| `MultiPairFeed.MultiPairFeed.FlushAll` | data/multi_pair_feed.py:110-122 | Every bar in progress, in registration order |
| `MultiPairFeed.ProgressIsOwn` | data/multi_pair_feed.py:93-108 | A symbol's bar in progress depends on its own ticks only |
| `MultiPairFeed.Demultiplexes` | data/multi_pair_feed.py:93-108 | The bars emitted for a symbol are those of one aggregator fed its ticks alone |
| `MultiPairFeed.CountersAddUp` | data/multi_pair_feed.py:93-108 | Processed plus unknown equals the ticks seen; emitted equals the close events |
| `MultiPairFeed.UnknownSymbolsAreDropped` | data/multi_pair_feed.py:95-102 | Without registration on sight an unknown symbol yields no event and no error |
| `MultiPairFeed.FeedKnowsItsSymbols` | data/multi_pair_feed.py:45-108 | After any stream the feed listens to exactly the symbols it was given and, if it registers missing ones, those of the stream, in the order in which they came first |
| `TradeJournal.TradeJournal.Curve` | backtesting/trade_journal.py:57-86 | The single pass yields the all-pairs drawdown, the drawdown against the running peak in percent, the lowest equity and the longest losing streak |
| `TradeJournal.TradeJournal.Bucketed` | backtesting/trade_journal.py:132-141 | One breakdown by key |
| `TradeJournal.TradeJournal.Summarise` | backtesting/trade_journal.py:25-105 | Every figure meets its definition; the summary fails exactly when some position has no result |
| `TradeJournal.ExpectancyIsGrossPerTrade` | backtesting/trade_journal.py:46-55 | Expectancy times the number of trades is the gross P&L |
| `TradeJournal.BucketsAddUp` | backtesting/trade_journal.py:132-141 | Counts, results and wins over the buckets of any breakdown add up to the totals |
| `TradeJournal.WinsAndLossesAddUp` | backtesting/trade_journal.py:46-49 | Wins and losses split the trades and their P&L |
| `SrLevels.CollectTouches` | strategy/patterns/_multi_setup_common.py:583-587 | Both wick ends of every bar of the window |
| `SrLevels.ClusterTouches` | strategy/patterns/_multi_setup_common.py:589-598 | The greedy clustering loop |
| `SrLevels.KeepSpaced` | strategy/patterns/_multi_setup_common.py:607-614 | The greedy spacing loop |
| `SrLevels.CountSides` | strategy/patterns/_multi_setup_common.py:617-628 | Support and resistance counts over the kept touches |
| `SrLevels.DropCrowded` | strategy/patterns/_multi_setup_common.py:641-656 | The cleanliness filter |
| `SrLevels.FindSrLevels` | strategy/patterns/_multi_setup_common.py:544-657 | The whole finder |
| `SrLevels.ClustersPartition` | strategy/patterns/_multi_setup_common.py:589-598 | The clusters cut the price-sorted touches into consecutive pieces |
| `SrLevels.ClustersAreNarrow` | strategy/patterns/_multi_setup_common.py:589-598 | Every cluster lies within twice the tolerance of its anchor, and the next anchor is out of reach |
| `SrLevels.ClusterCountIsMinimal` | strategy/patterns/_multi_setup_common.py:589-598 | Any cover of the touches by ranges of that width has at least as many ranges as there are clusters |
| `SrLevels.KeptIsSpaced` | strategy/patterns/_multi_setup_common.py:607-614 | Kept touches are `min_gap_bars` apart |
| `SrLevels.GreedySpacingIsOptimal` | strategy/patterns/_multi_setup_common.py:607-614 | No choice of touches that far apart is larger |
| `SrLevels.MedianWithin` | strategy/patterns/_multi_setup_common.py:241-247 | A median lies within any bounds of its values |
| `SrLevels.LevelIsNearItsTouches` | strategy/patterns/_multi_setup_common.py:600-639 | A level lies inside its cluster, has the minimum number of spaced touches and a side |
| `SrLevels.LevelsKeepPromise` | strategy/patterns/_multi_setup_common.py:544-657 | Returned levels are pairwise further apart than the nearby band, newest first, each from one narrow cluster |
| `SrLevels.OnlyCrowdedLevelsAreDropped` | strategy/patterns/_multi_setup_common.py:641-656 | A cluster level is returned exactly when no other lies within the band |
| `SrSides.LevelsMean` | strategy/patterns/_multi_setup_common.py:585-655 | Every level found splits a cluster of wicks of its window in halves; its touches, last bar and sides are those of spaced ones among them: support exactly when two are lows of bars that closed above it, resistance mirrored |
| `SrSides.MakesLevelExactly` | strategy/patterns/_multi_setup_common.py:600-634 | A cluster makes a level if and only if enough spaced touches remain and two of them held or turned the price |
| `SrSides.WindowIsClustered` | strategy/patterns/_multi_setup_common.py:575-598 | Both wick ends of every bar of the window are in some cluster |
| `SrSides.LoneLevelsAreFound` | strategy/patterns/_multi_setup_common.py:638-652 | The finder returns the level of every cluster that the level of no other cluster comes within three tolerances of, and no more |
| `SrLevels.HtfIndexAtOrBefore` | strategy/patterns/_multi_setup_common.py:664-675 | The binary search returns the largest index with open time at most t, or -1 |
| `EnvFile.ReadEnvFile` | config/credential_prompt.py:75-94 | The parser on the text of a file |
| `EnvFile.LastLineWins` | config/credential_prompt.py:86-93 | A key reads as what its last line assigns |
| `EnvFile.AssignmentSurvivesExactly` | config/credential_prompt.py:86-93 | A one-line value survives exactly when it neither starts nor ends with white space |
| `EnvFile.ReadingIsClean` | config/credential_prompt.py:86-93 | What was read can be written back |
| `BrokerProfiles.KeyRoundTrip` | config/credential_prompt.py:46-48 | Name and suffix of a profile key are unique, whatever the name contains |
| `BrokerProfiles.IntRoundTrip` | config/credential_prompt.py:107-110 | A login printed in decimal parses back |
| `BrokerProfiles.SerializeEnv` | config/credential_prompt.py:139-166 | The printer's lines |
| `BrokerProfiles.WriteEnvFile` | config/credential_prompt.py:169-191 | Rewriting a file keeps what it does not own |
| `BrokerProfiles.ListProfiles` | config/credential_prompt.py:97-120 | Profiles by sorted name, unreadable logins as zero |
| `BrokerProfiles.NormaliseIsNormal` | config/credential_prompt.py:198-217 | Any typed name becomes a valid one in normal form |
| `BrokerProfiles.NormalNamesAreFixed` | config/credential_prompt.py:198-217 | Exactly the normal names are left alone |
| `BrokerProfiles.NormaliseIsIdempotent` | config/credential_prompt.py:198-217 | Normalising twice is normalising once |
| `NameLaws.NameIsItsWords` | config/credential_prompt.py:198-217 | The four passes do what one does: letters and digits in capitals, words parted by spaces, dashes or underscores joined by one underscore, all else dropped, the fallback when nothing is left |
| `EnvRoundTrip.SerializedReadsAsLines` | config/credential_prompt.py:139-166 | The printed text reads back as its lines, trimming included |
| `EnvRoundTrip.FileAssigns` | config/credential_prompt.py:139-166 | What the printed file assigns to every key |
| `EnvRoundTrip.OtherKeysSurvive` | config/credential_prompt.py:169-191 | Every non-broker key keeps its value, present or absent, and the active broker is the new one, whatever file was there |
| `EnvRoundTrip.ProfilesRoundTrip` | config/credential_prompt.py:97-191 | Writing profiles and listing them back gives the same profiles, all and only, in increasing order of name |


## Left out

- Rounding of binary floating point, rounding to a number of decimals, and formatted prices in tags: reals throughout, and a tagged price is passed as a number.
- Broker terminal calls, parquet, Telegram, dashboards, logging, argument parsing, plots and verdict reports: input and output.
- Lot arithmetic of `simulate`, `size_position` and the live engine: a sized lot is an input there; sizing is modelled for the exit sweep and the event-driven backtest.
- Pending orders in the position manager's trail, and when they fill or expire: admission takes fills and cancellations as events.
- `apply_spread_protection` and `revert_spread_protection`: hooks nothing in the modelled loop calls.
- Persistence of `DailyTracker` and reloading on the same day: a run may start from any tracker state instead.
- Whether a new day is open for trading: the trade count rolls only inside the tracker's mutators, so only safety is stated.
- Statistics counters, alert texts, the journal's count of opens, and blocked-signal counters of the engine and the backtests.
- The one-hour frame, volumes, the bounds of `iter_decisions` and spread coverage counters of the NY Gold harness.
- The event loop of the exit sweep (`simulate_variant`): its policies and its sizing are modelled per trade, the event loop of its sibling in full.
- Loss bounds for time stop, Friday flatten and end-of-data closes: they exit at the bar close before any stop is looked at.
- Detectors, the confluence resolver, news calendar, pair tables and pip values of the event-driven backtest: parameters of the run. Its concrete runs use the table values of their pairs.
- HaltedDrawdown.HaltedReportIsSafeExactly: says nothing about a halt at which the open trades of every pair cancel out exactly, lot for lot. The continuations it names are flat bars whose price may be as far away, and so as low, as the loss needs.
- Building and sorting the event stream: the run takes a stream in time order in which no bar occurs twice.
- Whether an HTF bar is closed when the cursor reaches it: the loop compares open times, and only what it computes is stated.
- The average true range: tolerances of the level finder are computed from a given value.
- Failing writes, a second cancellation, a tick the queue loses when a get is cancelled as it completes, and half-written files: a part appears on disk in one step. A timeout may flush a non-empty buffer at any moment.
- A poll that gets a full batch without one new tick and so repeats itself forever.
- Directories whose part numbers have gaps: a date's parts are numbered from zero without gaps, as the writer leaves them.
- Pacing, yielding and cancellation of the replay.
- Digits outside ASCII in a login and line ends of two characters, which only add a blank line the parser skips.
- `get_active_profile`, the interactive prompt and its completeness test.
- `multi_pair_backtest_nzd.py`, `compare_v5.py`, `silver_bullet_backtest.py`, `sr_flip_backtest.py`: near copies of modelled files.
