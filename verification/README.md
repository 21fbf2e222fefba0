# Verified model of the bid automation

A Dafny model of the automated bid controller of an advertising backend, and of the smaller
state machines and loops around it. `dafny verify dfyconfig.toml` checks everything.

**The bid engine** (`Numeric`, `Strategy`, `BidEngine`). Six strategy types (five calculators), the change cap, the
absolute bounds and the guardrails an increase must pass, as pure functions. Every float64 is an
exact real; `math.Round` is half away from zero; a calculated bid of zero means "hold".
`BidEngineSafety`, `AcosStrategy`, `AntiSlivStrategy`, `SearchPlaybookStrategy` and
`DaypartingStrategy` prove what the engine
promises over all inputs, over pairs of inputs and over sequences of runs. `ClosedDayStats` proves
that campaign statistics of the current day cannot steer it and only veto increases, and what phrase
statistics of the current day can do to the search playbook.

**The write protocol** (`WriteProtocol`). A decision goes through the action guard, the unresolved
check, the claim, the post-claim reloads, the lease, the marketplace call, the log entry and the
completion, while other workers, the operator, the clock, the synchronisation and reconcilers
interleave with it. `Enabled` and `Do` give one step, a `Run` is any interleaving. A worker or a
reconciler can stop after any step and the marketplace can answer, refuse or stay silent. A plan only enters the
protocol as a decision of the bid engine, so what is proved about the engine is used here.
`WriteSafety`, `LogAgreement` and `CallOutcomes`, which follows statuses back to the marketplace's
answers, hold for any number of workers and of reconcilers, since every worker process schedules a
reconciliation of its own. `DailyCap` and `ChangeSpacing` add the two rate limits,
`WriteScenarios` contains the runs that show why their conditions are needed, and `Reconciliation` is
the reconciler's loop, with other passes and the workers in between.

**The rollout of a binding** (`Rollout`, joined with the write protocol in `LivePermission` and
`PermissionScenarios`), **applying a recommendation** (`Recommendations`),
**rotating the encryption key** (`Ciphertext`, `KeyRotation`), **back-filling history**
(`SkuBackfill`, `CpoBackfill`) and **period metrics** (`Metrics`).

Where a promise turned out not to hold for the code as it is, the code is modelled as it is, a
lemma exhibits a concrete case, and the exact condition is proved for all inputs or all runs:

- More spend can earn a higher bid when the higher spend's cut rounds to zero and is read as "hold"
  (`DeepestCutIsIgnored`; exactly when, in spend, revenue, target and bid: `MoreSpendNeverRaisesBid`).
- Anti-waste cuts can stop above a minimum bid of one or two (`StuckAboveSmallMinimum`; exact
  threshold: `ConvergesIff`).
- A phrase row of the current day can reverse a search playbook decision (`TodaysPhraseRowReverses`;
  exactly when: `PhraseRowsSteerIff`). No other strategy reads phrase rows.
- Without its saved state dayparting compounds (`LostSaveCompounds`; the baseline is kept exactly if
  every changing run saves: `BaselineKeptIff`).
- Two workers that read the day before midnight and claim after it exceed the daily cap
  (`MidnightRaceExceedsCap`; exactly when: `CapsAreKeptIff`). One worker never does.
- A reconciliation between the action guard and the unresolved check breaks the cooldown
  (`LateReconciliationBreaksCooldown`). With one worker the limits are kept exactly if what the guard
  read still holds at every claim (`LimitsAreKeptIff`): reading the log again at the claim is what is
  missing. Automation and reconciliation are tasks of one server that runs one task at a time
  (internal/worker/runtime.go:173-196), and in such serial runs the limits always hold
  (`SerialRunsAreGuarded`), so the broken run needs a second process.
- Log and action differ when a worker or a reconciler ends an action whose log entry another reconciler
  has written with another outcome (`LogAndActionDisagree`, `TwoReconcilersDisagree`; exactly when:
  `FinishedAgreesIff`, `UncleanIff`). In serial runs they always agree (`SerialRunsAreClean`).
- An operator's hold of a binding does not stop the evaluation under way (`HeldBindingIsCalled`); an
  evaluation that begins later sends nothing before the binding has returned to live
  (`CallAfterLossNeedsReturn`; exactly when it returns: `ReturnsToLiveIff`).
- A promotion overrides an operator who switches the binding to shadow mode meanwhile
  (`ShadowBindingWrites`; exactly when: `EvaluationKeepsWantedIff`).
- Re-saving a binding that was read as live lifts a block that was marked meanwhile
  (`StaleResaveLiftsBlock`; exactly when a row becomes live: `BecomesLiveIff`, and when a binding stays
  unwritten: `StaysUnwrittenIff`).
- An operator who sets a recommendation back to active can cause a second write (exactly when:
  `ReopenIsSafeIff`).
- The rotation counters do not add up for a batch size below one (exactly when: `CountersAddUpIff`).

Assumptions about what is outside the code:

- One SQL statement is one atomic step, and all timestamps come from one clock. The claim and the
  lease take the same workspace lock as an update of the settings, so neither of the two runs while
  the lease is held.
- A lost connection, a cancelled context or a crash is a worker that stops; the lock is released then.
- The marketplace bid is seen only through synchronised observations. "Not applied" therefore means
  that a newer observation showed the old bid, not that the call had no effect.
- The list of recent bid changes is not truncated at 2000 rows.

## Model

| member | source | states |
|---|---|---|
| `BidEngineSafety.LimitsAreAClamp` | internal/service/bidengine.go:489-541 | from a bid in range the three limiter branches are one clamp, and the hold branch is out of reach |
| `BidEngineSafety.LimitsAreAClampOrHold` | internal/service/bidengine.go:489-541 | from any bid the limiter gives the nearest bid inside range and change cap, and holds exactly if the two do not meet |
| `BidEngineSafety.OutOfRangeMovesIffReachable` | internal/service/bidengine.go:489-541 | from a bid out of range the limiter moves it exactly if the nearest bound is within the change cap, and then into the range |
| `BidEngineSafety.DecisionChangesBid` | internal/service/bidengine.go:130-188 | every decision is for the current bid and differs from it |
| `BidEngineSafety.DecisionWithinLimits` | internal/service/bidengine.go:100-188 | every decision lies in [MinBid, MaxBid] and within ceil(old·cap/100) of the old bid, from any current bid |
| `BidEngineSafety.DirectionIsKept` | internal/service/bidengine.go:100-188 | in range, a bid only rises if the calculator asked for more, and falls exactly if it asked for less and the bid is above MinBid |
| `BidEngineSafety.BoundCanReverseDirection` | internal/service/bidengine.go:489-541 | out of range a cut can become an increase to the minimum bid: a concrete case |
| `BidEngineSafety.IncreasePassedGuardrails` | internal/service/bidengine.go:190-234 | every increase, also one forced by MinBid, is within ACoS, CPC and CPO limits and unit economics, its target asks for no more than the ceiling, and without revenue it has three orders, enough clicks and a projected cost per order below 90% of the ceiling |
| `BidEngineSafety.GuardrailsPassIff` | internal/service/bidengine.go:190-234 | the guardrails pass an increase if and only if spend, revenue, clicks and orders meet those limits |
| `BidEngineSafety.RaisesIff` | internal/service/bidengine.go:100-234 | a bid in range is raised if and only if the calculator asks for more, it is below MaxBid, and the bid the limits allow meets those limits; and every decision is that bid |
| `BidEngineSafety.ZeroMeansDefault` | internal/domain/strategy.go:408-479 | a zero parameter decides as its default written out: 50, 5000, 15%, 10 clicks, multiplier 1, 120 minutes, 3 changes, and the playbook's 100%, 20% and 9% |
| `BidEngineSafety.DefaultLimits` | internal/domain/strategy.go:408-424 | without limits of its own a strategy decides for 50 to 5000 and within 15% of the old bid |
| `AcosStrategy.MoreSpendNeverRaisesBid` | internal/service/bidengine.go:236-270 | more spend for the same revenue, clicks and orders gives no higher bid through calculator, limits and guardrails, if and only if it is not the case that the higher spend exceeds twice bid times target times revenue while the lower one makes a cut take effect |
| `AcosStrategy.ExceptionFromInputs` | internal/service/bidengine.go:236-270 | when a cut rounds to zero and when it takes effect, as comparisons of spend, revenue, target and bid |
| `AcosStrategy.DeepestCutIsIgnored` | internal/service/bidengine.go:130-134 | the exception is real: a cut that rounds to zero leaves the bid alone |
| `AcosStrategy.RoasMirrorsAcos` | internal/service/bidengine.go:236-306 | for positive spend target ACoS a and target ROAS 100/a decide the same, except in the gap (1.2, 1.25] where ACoS holds |
| `AcosStrategy.MirrorsDisagreeIff` | internal/service/bidengine.go:236-306 | the exact condition under which the two differ inside the gap |
| `AcosStrategy.MirrorGuardrails` | internal/service/bidengine.go:190-234 | the increase guardrails read the two targets the same way round |
| `AntiSlivStrategy.ConvergesToMinimum` | internal/service/bidengine.go:409-426 | with MinBid of three or more and no revenue, the bid loses at least one unit a run, is exactly MinBid after start−MinBid runs and stays there |
| `AntiSlivStrategy.StuckAboveSmallMinimum` | internal/service/bidengine.go:409-426 | with MinBid one or two below MaxBid the next higher bid stays forever under busy runs |
| `AntiSlivStrategy.ConvergesIff` | internal/service/bidengine.go:409-426 | from every start every long enough wasteful sequence reaches MinBid if and only if MinBid is three or more or equals MaxBid |
| `AntiSlivStrategy.OnlyWasteIsCut` | internal/service/bidengine.go:409-446 | the anti-waste strategy never raises a bid in range, and lowers it only for clicks without revenue or an ACoS above the limit |
| `AntiSlivStrategy.AskedShare` | internal/service/bidengine.go:409-446 | the share asked for is 0.5, 0.3 or 0.15 by clicks without revenue, and with revenue the one that brings spend to the limit, but at least a fifth |
| `SearchPlaybookStrategy.PlaybookMovesForAReason` | internal/service/bidengine.go:335-407 | a bid in range rises only behind the target position with nothing burnt to 70% of the cap and nothing too dear, a product burnt to the cap is cut unless at MinBid, and without evidence nothing happens |
| `SearchPlaybookStrategy.CeilingIsTooDear` | internal/service/bidengine.go:359-379 | the ceiling rule fires exactly when spend exceeds the allowed share of revenue, or of price times orders, and asks for less than the current bid |
| `SearchPlaybookStrategy.CeilingMeetsLimit` | internal/service/bidengine.go:359-379 | the share it asks for brings the cost exactly to the limit, measured on revenue or on price |
| `SearchPlaybookStrategy.DecisionSettlesRuleTarget` | internal/service/bidengine.go:335-407 | for every bid the decision is what the limits and guardrails make of the target of the first rule that applies to its signal |
| `SearchPlaybookStrategy.DecisionBySignal` | internal/service/bidengine.go:335-407 | what each of no position, behind and at target leads to, and exactly when it moves the bid |
| `SearchPlaybookStrategy.TierSetsAim` | internal/service/bidengine.go:308-321 | on the measured position itself: without a target position a raise lies beyond place 4, 3 or 1 for the tiers high, mid and low and a pullback up to it, exactly when, any other tier decides nothing, and a target position replaces the tier |
| `SearchPlaybookStrategy.PositionDecidesIff` | internal/service/bidengine.go:335-407 | for any bid two positions give different decisions exactly if the rule targets of their signals lead to different bids, in range exactly under the stated guards; opposite directions occur exactly in range between climb and pull back |
| `SearchPlaybookStrategy.OutsideOneWay` | internal/service/bidengine.go:489-541 | outside the range no two targets move the bid in opposite directions |
| `DaypartingStrategy.BaselineStaysFirstBid` | internal/service/bid_automation.go:1190-1230 | if every run that changed the bid saved its state, the baseline of every later slot is the first bid |
| `DaypartingStrategy.BaselineKeptIff` | internal/service/bid_automation.go:1190-1230 | the baseline stays the first bid throughout if and only if every run that changed the bid saved its state |
| `DaypartingStrategy.BidStaysInBand` | internal/service/bidengine.go:448-487 | the bid stays between the first bid and the clamped extreme targets, up to and including a run whose save is lost |
| `DaypartingStrategy.OneSidedEvenWithLostSaves` | internal/service/bidengine.go:448-487 | whatever saves are lost, multipliers of at most one never lift the bid above the first and of at least one never push it below |
| `DaypartingStrategy.SlotAppliesOnce` | internal/service/bid_automation.go:1190-1230 | two runs that both change the bid lie in different slots |
| `DaypartingStrategy.LostSaveCompounds` | internal/service/bid_automation.go:1216-1230 | without the save the multiplier compounds: a concrete case |
| `DaypartingStrategy.OtherEntriesAreSilent` | internal/service/bidengine.go:465-474 | entries of other hours and other weekdays do not change the decision |
| `DaypartingStrategy.HourIsFactor` | internal/service/bidengine.go:465-471 | the entry of the current hour decides as the same factor on the base multiplier |
| `DaypartingStrategy.WeekdayIsFactor` | internal/service/bidengine.go:465-474 | and so does the entry of the current weekday |
| `DaypartingStrategy.BaseScalesBaseline` | internal/service/bidengine.go:469-487 | with empty tables the target is the baseline times the base multiplier, and becomes the bid where the limits allow it |
| `DaypartingStrategy.ForeignBidRestarts` | internal/service/bid_automation.go:1190-1215 | if somebody else changed the bid the next slot runs as if nothing had been saved, otherwise it scales the remembered baseline |
| `DaypartingStrategy.NoSlotNoDecision` | internal/service/bidengine.go:448-462 | without a time zone and in an applied slot nothing is decided |
| `ClosedDayStats.ClosedCampaignStats` | internal/service/bid_automation.go:1469-1479 | the loop keeps each row of an earlier day as often as it is there and no other row |
| `ClosedDayStats.ClosedInOrder` | internal/service/bid_automation.go:1469-1479 | and keeps their order |
| `ClosedDayStats.AggregateBidPerformance` | internal/service/bid_automation.go:1481-1494 | the loop computes the five sums, missing orders and revenue counting as zero |
| `ClosedDayStats.LargestValue` | internal/service/bid_automation.go:1449-1467 | the loop finds the largest present value, and nothing if there is none |
| `ClosedDayStats.SumOfPermutation` | internal/service/bid_automation.go:1481-1494 | sums do not depend on the order of the rows |
| `ClosedDayStats.OpenDayCannotSteerEngine` | internal/service/bid_automation.go:510-585 | two histories in which each row of an earlier day occurs equally often give the same engine decision, for the search playbook whenever the phrase rows give the same signal, for every other strategy always |
| `ClosedDayStats.OpenRowsDoNotSteer` | internal/service/bid_automation.go:510-585 | rows of today, of later days or without a day can be mixed in anywhere without changing the engine's decision |
| `ClosedDayStats.FreshIff` | internal/service/bid_automation.go:1449-1467 | completed days are fresh exactly if no age is configured or some row was stored within it |
| `ClosedDayStats.PlaybookComparesHalves` | internal/service/bid_automation.go:1850-1930 | the playbook compares the impressions of the days from the middle of the window on with those of the days before |
| `ClosedDayStats.OpenDayOnlyVetoesIncreases` | internal/service/bid_automation.go:586-614 | and the guards on today's campaign rows can only turn an increase into no action |
| `ClosedDayStats.OpenDayVetoesIff` | internal/service/bid_automation.go:1291-1625 | exactly when they do: an increase passes if and only if today's rows show twenty clicks, a positive limit above today's known spend, a positive balance, and a daily budget, where there is one, that neither the spend nor its pace reaches |
| `ClosedDayStats.CampaignAvgPosition` | internal/service/bid_automation.go:1862-1889 | the loop computes the mean of the latest positive positions weighted by impressions, one where there are none, and nothing without a position |
| `ClosedDayStats.PhraseEntersMean` | internal/service/bid_automation.go:1862-1889 | one more phrase enters that mean with its latest positive position, by its impressions or by one |
| `ClosedDayStats.LatestIsLatest` | internal/repository/sqlc/phrase_stats.sql.go:65-70 | the row read for a phrase is one of its rows with the latest day, completed or not |
| `ClosedDayStats.PhrasesActThroughSignal` | internal/service/bid_automation.go:1835-1839 | phrase rows act only on the search playbook, and only through having a position and being behind the target |
| `ClosedDayStats.PhraseRowsSteerIff` | internal/service/bid_automation.go:1835-1889 | for any bid, exactly when two sets of phrase rows give the playbook different decisions, and opposite ones |
| `ClosedDayStats.TodaysPhraseRowReverses` | internal/service/bid_automation.go:1862-1889 | two histories with equal completed days whose decisions have opposite directions: a concrete case |
| `ClosedDayStats.NoOpenRowsSameSignal` | internal/repository/sqlc/phrase_stats.sql.go:65-70 | without phrase rows of the current day equal completed days fix the signal |
| `WriteSafety.InvPreserved` | internal/service/bid_automation.go:653-827 | every step of every actor keeps the protocol invariant |
| `WriteSafety.OneCallPerObservation` | internal/service/bid_automation.go:669-761 | in every interleaving no two calls belong to one observation key, so no action is sent twice whatever its outcome |
| `WriteSafety.CallsAnswerDifferentObservations` | internal/service/bid_automation.go:1232-1236 | two calls never have target, old bid and time of observation in common |
| `WriteSafety.ClaimIsRefusedIff` | internal/repository/sqlc/wb_ads_controls_manual.go:119-165 | a claim is refused exactly if a pending or unknown action is in its way or the observation has been claimed before |
| `WriteSafety.CallsAreAlone` | internal/service/bid_automation.go:670-686 | a call is only made while no other action on an overlapping target is pending or unknown |
| `WriteSafety.OpenActionsAreForOtherProducts` | internal/service/bid_automation.go:670-686 | on campaign, product and placement: an open campaign-wide action stops the calls of every product and an open product action the campaign-wide one |
| `WriteSafety.ChecksClearIff` | internal/repository/sqlc/wb_ads_controls_manual.go:178-195 | the unresolved check passes exactly if every pending or unknown action of the same campaign and placement is, like the plan, for a product, and for another one |
| `WriteSafety.UnresolvedHoldsItsTarget` | internal/service/bid_automation.go:670-827 | between a pending or unknown action and a later call on its target lies a step that resolved it, and if its worker is gone, a step of a reconciler |
| `WriteSafety.OrphansStayOrphaned` | internal/service/bid_automation.go:687-726 | nobody picks up an action whose worker is gone |
| `WriteSafety.WhoChangesAnAction` | internal/repository/sqlc/wb_ads_controls_manual.go:401-423 | only the carrying worker and a reconciler change an action |
| `WriteSafety.ClaimsAreFixed` | internal/repository/sqlc/wb_ads_controls_manual.go:96-165 | what an action is about never changes over a run |
| `WriteSafety.CallsObeyOperator` | internal/service/bid_automation.go:241-317 | at every call automation is enabled, not on hold and has a positive cap, and after the claim the strategy was reloaded and found active |
| `WriteSafety.ReconciledIsEvidenced` | internal/service/bid_automation.go:853-1012 | with any number of reconcilers, a reconciled status is what a bid synchronised after the claim and after the decision's observation shows, applied and not applied exclude each other, and the log has an entry |
| `CallOutcomes.ActionTellsItsCall` | internal/service/bid_automation.go:733-812 | in every run an action that is not pending and was not reconciled is blocked exactly if it was never sent, and otherwise applied, failed or unknown exactly as the marketplace answered its only call |
| `CallOutcomes.LogTellsItsCall` | internal/service/bid_automation.go:766-812 | a log entry that no reconciler wrote likewise shows the answer to the action's only call |
| `CallOutcomes.AppliedIsBacked` | internal/service/bid_automation.go:733-1012 | whatever log or action show as applied was accepted by the marketplace in the action's only call, or the new bid was seen there after the claim |
| `LogAgreement.FinishedAgreesIff` | internal/service/bid_automation.go:733-812 | for any number of workers and reconcilers the log agrees with a finished action if and only if the step that ended the action found in the log the outcome it recorded |
| `LogAgreement.UncleanIff` | internal/repository/sqlc/wb_ads_controls_manual.go:373-423 | it did not exactly if a reconciler had logged another outcome for the action and that entry still stood |
| `LogAgreement.ReconciledLogAgreesIff` | internal/service/bid_automation.go:912-932 | the log entry of a reconciled action shows its status if and only if the action was ended in this way |
| `LogAgreement.LoneReconcilerResolvesCleanly` | internal/service/bid_automation.go:912-932 | a reconciler without a second one always resolves in this way |
| `LogAgreement.SerialRunsAreClean` | internal/worker/runtime.go:173-196 | in a process that runs one task at a time every action is ended in this way, so log and action agree |
| `LogAgreement.FinishedStays` | internal/repository/sqlc/wb_ads_controls_manual.go:373-423 | a finished action and its log entry never change again |
| `WriteScenarios.LogAndActionDisagree` | internal/service/bid_automation.go:912-932 | a run of one worker and one reconciler in which they differ |
| `WriteScenarios.TwoReconcilersDisagree` | internal/worker/runtime.go:248-248 | a run of two reconcilers, with the worker gone, in which they differ |
| `DailyCap.CapsAreKeptIff` | internal/repository/sqlc/wb_ads_controls_manual.go:96-165 | for any number of workers, every charged action of a run stays within the cap of its claim if and only if every admitted claim finds the day it lands in below the cap |
| `DailyCap.DayWithinCap` | internal/repository/sqlc/wb_ads_controls_manual.go:96-165 | then the actions and calls charged to a Moscow day are at most the cap configured at the latest charged claim of that day |
| `DailyCap.MidnightsWithinCap` | internal/service/bid_automation.go:1508-1515 | the same on statuses and clock: changes between two Moscow midnights that are pending, unknown or applied, and their calls |
| `DailyCap.ClaimIsAdmittedIff` | internal/repository/sqlc/wb_ads_controls_manual.go:124-165 | a claim that is not refused is pending exactly if automation is on, not on hold, and fewer changes are counted between the window's midnights than the smaller of the two caps |
| `DailyCap.LeaseIsGrantedIff` | internal/repository/sqlc/wb_ads_controls_manual.go:219-321 | the lease before a call is granted exactly if the action is still pending, automation is on and not on hold, and the day's count is within the smaller of the two caps |
| `DailyCap.TimelyFits` | internal/repository/sqlc/wb_ads_controls_manual.go:124-152 | a claim that lands in the day it counted, or in an empty one, finds room |
| `DailyCap.OneWorkerDayWithinCap` | internal/service/bid_automation.go:687-726 | with one worker the same holds without any condition on time |
| `DailyCap.OneWorkerIsTimely` | internal/service/bid_automation.go:1511-1515 | a single worker's claim lands in the day it counted or in an empty one |
| `DailyCap.CapWasInForce` | internal/repository/sqlc/wb_ads_controls_manual.go:106-116 | the cap recorded with a claim is the operator's at that moment |
| `WriteScenarios.MidnightRaceExceedsCap` | internal/service/bid_automation.go:699-711 | a run of two workers that puts two actions on a day with cap one |
| `ChangeSpacing.LimitsAreKeptIff` | internal/service/bid_automation.go:615-711 | with one worker every action of a run keeps the limits of its plan, at every later moment, if and only if at every claim the limits its guard read are still kept |
| `ChangeSpacing.AppliedChangesKeepCooldown` | internal/service/bid_automation.go:1517-1562 | then changes of a target logged as applied, at once or after a reconciliation, are more than the cooldown apart |
| `ChangeSpacing.AppliedChangesKeepDailyLimit` | internal/service/bid_automation.go:1642-1668 | and no 24 hours hold more of them than the latest one's limit |
| `ChangeSpacing.AppliedActionsKeepCooldown` | internal/service/bid_automation.go:1517-1562 | the cooldown also separates the actions whose status is applied, if they were ended cleanly |
| `ChangeSpacing.CallsKeepCooldown` | internal/service/bid_automation.go:615-761 | a call comes more than its cooldown after the log entry of an earlier applied change, and in serial runs more than its cooldown after the earlier call |
| `ChangeSpacing.CallsKeepDailyLimit` | internal/service/bid_automation.go:1642-1668 | in serial runs no 24 hours hold more applied calls of a target than the latest one's limit |
| `ChangeSpacing.FencedRunsAreGuarded` | internal/service/bid_automation.go:615-686 | it suffices that no reconciliation between guard and unresolved check logs an applied change inside the plan's windows |
| `ChangeSpacing.IdleReconciliationIsFenced` | internal/service/bid_automation.go:615-686 | and for that, that reconciliations run only while the worker is idle |
| `ChangeSpacing.SerialRunsAreGuarded` | internal/worker/runtime.go:173-196 | with automation and reconciliation in one process that runs one task at a time the limits are always kept |
| `ChangeSpacing.WaitingPlanSeesNoNewChange` | internal/service/bid_automation.go:670-686 | after the unresolved check nothing that counts for the plan can become applied, which closes the gap that unknown outcomes leave in the guard's count |
| `ChangeSpacing.GuardPassesIff` | internal/service/bid_automation.go:1517-1668 | the guard passes exactly if no applied change that affects the plan's products is logged within the cooldown and fewer than a day allows within 24 hours |
| `WriteScenarios.LateReconciliationBreaksCooldown` | internal/service/bid_automation.go:615-686 | a run of one worker in which a late reconciliation breaks the cooldown |
| `Reconciliation.Store.ReconcileStaleBidActions` | internal/service/bid_automation.go:853-955 | the loop computes the fold of its turns, tables and counters, under failures and under interference by workers and other passes |
| `Reconciliation.Store.ReconcileOne` | internal/service/bid_automation.go:867-943 | one listed action: deferred, overtaken by its worker or another pass, or resolved |
| `Reconciliation.PassSettles` | internal/service/bid_automation.go:891-943 | every action a pass resolves has the fresh evidence it read and the status it shows, and the same status in the log exactly if no other pass logged another one between the two updates; an action with evidence that it did not resolve was resolved by another pass from fresh evidence |
| `Reconciliation.LonePassResolves` | internal/service/bid_automation.go:891-943 | without another pass the pass has resolved exactly the listed actions with evidence |
| `Reconciliation.StepsInterfere` | internal/repository/sqlc/wb_ads_controls_manual.go:373-423 | in every run whatever a step changes in an existing action or its log entry is one of the interferences a pass is proved against |
| `Reconciliation.PassTouchesListOnly` | internal/service/bid_automation.go:867-943 | rows and log entries outside the list do not change |
| `Reconciliation.SummaryCountsRows` | internal/service/bid_automation.go:944-953 | the counters are the numbers of rows the pass itself resolved each way |
| `Reconciliation.SummaryAddsUp` | internal/service/bid_automation.go:865-955 | applied, not applied, superseded and deferred are at most the examined, and exactly those if nothing interferes |
| `Reconciliation.NextPassRepairs` | internal/service/bid_automation.go:912-943 | a failure between the two updates leaves the log right and the next pass completes the action |
| `Reconciliation.TurnIsThreeSteps` | internal/service/bid_automation.go:888-943 | an undisturbed turn is the reconciler's three steps of the protocol |
| `Reconciliation.TakenUpIff` | internal/service/bid_automation.go:867-900 | a reconciler takes up an action exactly if it is pending or unknown for five minutes and its target was synchronised after the claim and after the decision's observation |
| `Reconciliation.ReconciledAfterFiveMinutes` | internal/repository/sqlc/wb_ads_controls_manual.go:326-339 | in every run whatever a reconciler has resolved was claimed at least five minutes ago |
| `Reconciliation.ShortListLeavesNothing` | internal/repository/sqlc/wb_ads_controls_manual.go:326-339 | a list below the limit with fresh readings leaves no stale action |
| `Reconciliation.ClampLimit` | internal/service/bid_automation.go:854-856 | the limit is kept between 1 and 1000 and 500 otherwise |
| `Rollout.Recorder.constructor` | internal/service/bid_evaluation_recorder.go:48-76 | a blocked binding that wants live goes back to validation, and that row is what the recorder saw |
| `Rollout.Recorder.Block` | internal/service/bid_evaluation_recorder.go:114-124 | a marking block of a binding that wants live and is not held blocks the rollout |
| `Rollout.Recorder.ReadyNoChange` | internal/service/bid_evaluation_recorder.go:126-132 | a validating binding that wants live is promoted |
| `Rollout.Recorder.TakeShadowDecision` | internal/service/bid_evaluation_recorder.go:134-140 | likewise after a shadow decision |
| `Rollout.Recorder.PromoteAfterValidation` | internal/service/bid_evaluation_recorder.go:142-151 | promotion happens for a validating binding that wants live, and never out of a hold |
| `Rollout.Recorder.CompleteClusters` | internal/service/bid_automation.go:447-460 | a validating cluster binding is promoted if and only if nothing was applied and some target was fully evaluated |
| `Rollout.Recorder.EvaluateTargets` | internal/service/cluster_bid_automation.go:83-313 | the loop over the targets counts them up to the one that ends it; a target may be applied and leave errors behind |
| `Rollout.Recorder.EvaluateClusters` | internal/service/cluster_bid_automation.go:83-313 | without permission to write, a validating binding is promoted if and only if no target ended in an error and at least one was evaluated to its end; errors end the run as failed, even after an applied change |
| `Rollout.EvaluateBinding` | internal/service/bid_automation.go:405-827 | one evaluation from its beginning to its end, and that it writes exactly with permission |
| `Rollout.BecomesLiveIff` | internal/service/strategy_evaluation.go:76-103 | a row that is not live becomes live exactly by a promotion no hold has overtaken or by a live re-save that ends the event |
| `Rollout.StaysUnwrittenIff` | internal/service/bid_evaluation_recorder.go:48-151 | while nothing validates it, a binding that is not live stays without permission to write if and only if no stale re-save occurs |
| `Rollout.WriteAfterBlockNeedsValidation` | internal/service/bid_evaluation_recorder.go:48-151 | unless a stale re-save intervenes, after a marking block every write is preceded by a later recorded evaluation that ended as no decision or shadow decision without writing |
| `Rollout.PromptRunsHaveNoStaleResave` | internal/service/strategy_evaluation.go:76-103 | operators whose writes are based on the current row never cause a stale re-save |
| `Rollout.HeldNeverWrites` | internal/service/bid_evaluation_recorder.go:60-60 | an evaluation of a held binding does not write and leaves the hold |
| `Rollout.WriteAfterHoldNeedsValidation` | internal/service/strategy_evaluation.go:21-103 | likewise after a hold the first write again needs a validation |
| `Rollout.EvaluationKeepsWantedIff` | internal/service/bid_evaluation_recorder.go:142-151 | exactly when an evaluation keeps live bindings wanted live |
| `Rollout.ShadowBindingWrites` | internal/service/bid_evaluation_recorder.go:142-151 | switched to shadow during validation, a binding writes: a concrete run |
| `Rollout.StaleResaveLiftsBlock` | internal/service/strategy_evaluation.go:86-93 | a stale re-save lifts a block and the next evaluation writes without any validation: a concrete run |
| `LivePermission.CallsHaveLivePermission` | internal/service/bid_evaluation_recorder.go:48-76 | every call belongs to one evaluation of the binding it concerns, which began with the workspace open and the binding live and in which the engine decided what the call sends |
| `LivePermission.CallsSendDecisions` | internal/service/bid_automation.go:558-761 | every call sends what the engine decided earlier, by the same worker, for a synchronised bid of its target, within the engine's limits, with the strategy's cooldown and daily limit or the defaults of 120 minutes and three changes |
| `LivePermission.ReturnsToLiveIff` | internal/repository/sqlc/strategy_evaluation_manual.go:77-84 | exactly when a binding becomes live, however many evaluations of it overlap |
| `LivePermission.CallAfterLossNeedsReturn` | internal/service/bid_evaluation_recorder.go:112-151 | a call after a marking block or a hold comes from an evaluation already begun, by another worker if it was a block, or the binding was validated or re-saved as live before the evaluation began |
| `PermissionScenarios.HeldBindingIsCalled` | internal/service/bid_automation.go:241-263 | a history of one worker in which the call is sent after the binding was put on hold: the reload before the write reads settings and strategy, not the rollout |
| `LivePermission.ValidationSendsNothing` | internal/service/bid_automation.go:650-667 | the evaluation that validates a binding has sent nothing |
| `LivePermission.SessionIsEvaluation` | internal/service/bid_evaluation_recorder.go:48-151 | an evaluation that is alone with its binding is one event of the rollout's timeline, with the operator's updates of that time |
| `Recommendations.Recommendation.Apply` | internal/service/campaign_actions.go:1217-1345 | an undisturbed call sends only from active, leaves the status alone if it sent nothing, and otherwise ends completed or unknown |
| `Recommendations.OneWriteForAllCallers` | internal/service/campaign_actions.go:1217-1232 | of any number of concurrent callers at most one sends, and after that the status is never active again |
| `Recommendations.InitialIsSafe` | internal/service/campaign_actions.go:1206-1232 | a fresh active recommendation meets the invariants the two theorems start from |
| `Recommendations.CompletedIsFinal` | internal/service/campaign_actions.go:1592-1614 | no deferred release or mark changes a completed recommendation |
| `Recommendations.StatusTellsWrites` | internal/service/campaign_actions.go:1252-1259 | without an operator the status tells whether a change was sent |
| `Recommendations.ReopenIsSafeIff` | internal/service/recommendation.go:141-149 | setting a recommendation back to active is harmless if and only if no claim is outstanding and nothing was sent |
| `Ciphertext.VersionRoundTrip` | internal/pkg/crypto/aes.go:98-118 | reading a versioned text gives back the version and the payload |
| `Ciphertext.PrefixIsVersion` | cmd/rotate-encryption-key/main.go:179-182 | the cheap prefix test agrees with the parser |
| `Ciphertext.LegacyStaysLegacy` | internal/pkg/crypto/aes.go:98-113 | a payload without a colon is never read as versioned |
| `Ciphertext.EncryptionRoundTrip` | internal/pkg/crypto/aes.go:160-198 | for every cipher with the inverse law, what the key ring encrypts it decrypts, and it is current |
| `Ciphertext.OlderVersionsRead` | internal/pkg/crypto/aes.go:178-186 | a text sealed with any key of the ring under its version is read, whichever key is the latest |
| `Ciphertext.LegacyTextsRead` | internal/pkg/crypto/aes.go:187-197 | a text without a version is read by the newest key that opens it |
| `Ciphertext.UnknownVersionsFail` | internal/pkg/crypto/aes.go:178-185 | a version without a key is not readable |
| `KeyRotation.RotateSellerCabinets` | cmd/rotate-encryption-key/main.go:93-177 | the run writes a prefix of the re-encrypted rows: all of them on success, whole batches on an error, none in a dry run, with the counters it prints |
| `KeyRotation.Database.Flush` | cmd/rotate-encryption-key/main.go:108-133 | a batch is written completely or not at all |
| `KeyRotation.Reencrypt` | cmd/rotate-encryption-key/main.go:142-159 | a row is current, failed or re-encrypted |
| `KeyRotation.FateMeaning` | cmd/rotate-encryption-key/main.go:142-159 | a row is re-encrypted exactly if it is readable and not current and a nonce is to be had, and keeps its plaintext |
| `KeyRotation.SealedRowsRotate` | cmd/rotate-encryption-key/main.go:142-159 | a row sealed with any key of the ring, with or without a version, is rotated to the same plaintext under the latest key, given a nonce, unless it is there already |
| `KeyRotation.PlaintextsPreserved` | cmd/rotate-encryption-key/main.go:108-177 | after any committed prefix every token decrypts to what it did before |
| `KeyRotation.EveryRowCounted` | cmd/rotate-encryption-key/main.go:135-177 | current, failed and re-encrypted rows are all scanned rows |
| `KeyRotation.CountersAddUpIff` | cmd/rotate-encryption-key/main.go:160-177 | scanned = current + rotated + failed exactly unless a batch size below one meets a row to rotate |
| `KeyRotation.RescannedIsScan` | cmd/rotate-encryption-key/main.go:94-102 | what a second scan sees after a complete run |
| `KeyRotation.SecondFate` | cmd/rotate-encryption-key/main.go:142-159 | a second run rotates a row exactly if the first had no nonce for it |
| `KeyRotation.SecondRunRotatesNothing` | cmd/rotate-encryption-key/main.go:135-177 | otherwise a second run rotates nothing |
| `SkuBackfill.GroupingConserves` | cmd/ozon-campaign-sku-backfill/main.go:143-163 | the groups together equal the rows together in every column |
| `SkuBackfill.GroupIsSumOfItsRows` | cmd/ozon-campaign-sku-backfill/main.go:143-163 | a group exists exactly if it has rows and holds exactly their sum |
| `SkuBackfill.GroupedInWindow` | cmd/ozon-campaign-sku-backfill/main.go:145-149 | all groups lie in the requested window |
| `SkuBackfill.RoundingBound` | cmd/ozon-campaign-sku-backfill/main.go:156-162 | whole kopecks are within half a kopeck per row of the exact total |
| `SkuBackfill.TotalsAreColumnSums` | cmd/ozon-campaign-sku-backfill/main.go:150-163 | each total is the sum of its own column of the rows, money rounded to kopecks row by row |
| `SkuBackfill.AcceptedIff` | cmd/ozon-campaign-sku-backfill/main.go:127-172 | exactly which reports are accepted, on the rows' own fields |
| `SkuBackfill.History.BackfillCampaign` | cmd/ozon-campaign-sku-backfill/main.go:127-190 | success exactly for an acceptable report and a committed transaction; the table is replaced then and intact otherwise |
| `SkuBackfill.History.Replace` | cmd/ozon-campaign-sku-backfill/main.go:175-190 | the window is replaced whatever the order of the inserts |
| `SkuBackfill.WindowAddsUp` | cmd/ozon-campaign-sku-backfill/main.go:164-172 | what is written is at most the campaign's spend plus one kopeck |
| `SkuBackfill.ReplacedContents` | cmd/ozon-campaign-sku-backfill/main.go:180-189 | only the campaign's window changes |
| `SkuBackfill.ReplacingAgainChangesNothing` | cmd/ozon-campaign-sku-backfill/main.go:180-189 | a second replacement with the same groups changes nothing |
| `CpoBackfill.SelectOrders` | cmd/ozon-cpo-backfill/main.go:107-127 | the loop succeeds exactly if the rows in the window are valid and no order and SKU repeats, and selects exactly them |
| `CpoBackfill.SelectedByDays` | cmd/ozon-cpo-backfill/main.go:107-117 | row by row: the rows of the window are selected as often as they are there, no others |
| `CpoBackfill.AcceptedRows` | cmd/ozon-cpo-backfill/main.go:107-127 | in an accepted report every row of the window names an order and a SKU, costs nothing negative and is the only one of its order and SKU |
| `CpoBackfill.Orders.Run` | cmd/ozon-cpo-backfill/main.go:76-152 | success exactly for an acceptable report and a committed transaction; the table is replaced then and intact otherwise |
| `CpoBackfill.WindowEqualsSpend` | cmd/ozon-cpo-backfill/main.go:128-152 | after a replacement the stored window equals the campaign's spend to the kopeck |
| `CpoBackfill.WindowIsReport` | cmd/ozon-cpo-backfill/main.go:144-152 | the window then holds the report's orders and nothing else, also those stored on other days before |
| `CpoBackfill.OthersStay` | cmd/ozon-cpo-backfill/main.go:144-152 | other orders outside the window stay as they were |
| `CpoBackfill.OnceKeepsEveryKopeck` | cmd/ozon-cpo-backfill/main.go:120-126 | because each order and SKU counts once, the stored rows hold every kopeck of the report |
| `CpoBackfill.DuplicateLosesKopecks` | cmd/ozon-cpo-backfill/main.go:121-125 | without the refusal of duplicates the stored rows would hold less |
| `Metrics.AggregateCampaignStats` | internal/service/ads_read_metrics.go:12-45 | the loop sums the counters of the rows in the range, derives the ratios, and says unavailable if there is no row |
| `Metrics.CountersAreColumnSums` | internal/service/ads_read_metrics.go:12-45 | every counter is the sum of its own column over the days of the range, an absent value counting as zero |
| `Metrics.RatiosAreQuotients` | internal/service/ads_read_metrics.go:390-413 | each of the eight ratios times its divisor is its dividend, and zero without a divisor |
| `Metrics.RatiosFitTogether` | internal/service/ads_read_metrics.go:390-413 | DRR times ROAS is 100, cost per order times conversion is cost per click, and CPM follows from cost per click and CTR |
| `Metrics.AggregateWorkspaceMetrics` | internal/service/ads_read_metrics.go:374-388 | workspace totals and ratios do not depend on the order of the campaigns |
| `Metrics.SplitAddsUp` | internal/service/ads_read_metrics.go:12-45 | counters of a range are the sum of its two parts, split at any day |
| `Metrics.WorkspaceSplitAddsUp` | internal/service/ads_read_metrics.go:374-388 | likewise for a workspace |
| `Metrics.PreviousPeriodIsAdjacent` | internal/service/ads_read_metrics.go:415-420 | the compared period is adjacent, disjoint and as long, and both together are one range |
| `Metrics.AveragePosition` | internal/service/ads_read_metrics.go:47-84 | the loop computes the weighted mean of the positions in the range, or zero |
| `Metrics.RowEntersMean` | internal/service/ads_read_metrics.go:47-84 | one more row enters that mean if it has a day in the range and a position, by impressions, else clicks, else one |
| `Metrics.AverageIsBounded` | internal/service/ads_read_metrics.go:64-83 | with counts that are not negative the mean lies between any bounds of the positions |

## Left out

- Normquery clusters: the write protocol of cluster targets, where an action also carries a search query; the loop over the targets and its completion are modelled with the outcome of each target as an input.
- Rows without a placement: the unresolved check treats a stored action without a placement as matching every placement; modelled actions always have one.
- Bid changes from other sources (manual changes, recommendations) in the change log: they only make the action guard stricter.
- PostgreSQL's isolation levels: a statement that waits for an advisory lock may see an older snapshot; statements are atomic here.
- Rounding errors of float64, the 32-bit range checks of bids and integer overflow.
- Evaluation facts, reasons, logging, JSON payloads and HTTP handling.
- The increase readiness of a product (reputation, stock, unit economics data): the engine receives its result as a guardrail value.
- Concurrent writers during key rotation: a row changed by someone else is a failed transaction.
- Product business metrics and trends, which are single formulas.
- The limit of 500 phrases per campaign: the phrases are those that were listed.
- Price strategies, the Ozon strategy worker, synchronisation jobs, caches, authentication and the browser extension.
