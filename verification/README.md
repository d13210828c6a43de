# A model of the trading stack's deterministic core

The repository is a paper-trading service: it validates market data, proposes and risk-checks
orders, simulates fills, keeps a ledger and a cash book, writes a tamper-evident audit trail, and
replays what happened into reports. This project models the parts that decide, count and account,
and proves what they keep over every input, run and restart. Money and prices are `real`; clocks,
ids, price feeds and model replies are inputs.

| module | source | what is proved |
|---|---|---|
| `Ledgers` | execution/ledger.py | lifecycle and accounts of every order over every run |
| `Portfolio` | portfolio.py | cost identity, restarts, snapshots of the cash book |
| `Planning`, `PaperFills` | execution/planner.py, execution/paper_fill.py | sizing, reduce-only exits, one fill per decision |
| `BookOfRecord`, `WholeLots` | the three together | ledger and book agree over every run, and exactly when they stop |
| `Risk`, `RiskEngines` | risk.py | what an approval guarantees; the engine with its breaker |
| `Holdings` | portfolio.py | what a position remembers of its life, over every run |
| `Solvency`, `OneAsset`, `Overdraft` | risk.py, execution/paper_fill.py | cash never goes negative if and only if fees fit the limits |
| `LotTrades` | execution/planner.py, execution/paper_fill.py | the one-lot trades the counterexamples are made of |
| `Service` | service.py | the loop end to end: solvency, book of record and exits through pipeline, review, gates and restarts |
| `Checkpoints` | portfolio.py, service.py | a solvent service can always save its book |
| `Exits`, `Pipeline` | exits.py, pipeline.py, agents/review.py | exits cannot be frozen, controls only withhold |
| `AuditTrail`, `AuditAnchors` | risk_audit.py, audit_anchor.py | writer and verifier agree, anchors pin the past |
| `PaperReplay`, `FifoMatching` | acceptance/report.py | the replay conserves quantity, value and fees, and is first in, first out |
| `Backtest`, `WalkForward` | backtest.py, walkforward.py | exact accounting, drawdown, no look-ahead |
| `Garch` | garch.py | fit, variance bounds, rolled forecast equals recomputation |
| `CircuitBreaker` | circuit_breaker.py | counters and trips over every run |
| `OpportunityFunnel` | opportunity_funnel.py | incremental counters equal a recount |
| `Pagination` | signal_warehouse.py | keyset pages equal sort-and-take |
| `Common`, `Dictionary`, `Sorting` | | options, insertion-ordered dictionaries, stable sort |

Two readings of the tree matter throughout. Where code works on immutable values the model is
functions and lemmas. Where code updates an object or runs a loop, there is a class or a method
whose contract equates its effect with a function, and the laws are proved of that function; a
Python dictionary whose order is observable is a sequence of pairs (`Dictionary.Dict`).

## Where the code does not do what one would expect

- The short-sale check allows a slack of 1e-12 and the book none, and the ledger commits first. A
  sell inside that slack is in the ledger and not in the book. `AgreementKeptExactlyOutsideTheBand`
  says ledger and book part exactly then, `BandBounds` that it never happens to a reduce-only exit.
  `BandIsReached` is a run from a new book that gets there, through an order registered short of a
  whole lot. Of whole-lot orders no run does if and only if the slack is below one lot
  (`WholeLotsAgreeExactlyWhen`), as the default 1e-12 is below 1e-8, and then no run of the service does
  (`ServiceKeepsTheBooks`).
- The fee is charged on top of the approved notional. `SolventExactlyWhenFeesFit` gives, for any
  simulator that trades, the condition under which no run from a new book overdraws it, and it is exact:
  no fee above 100%, and the fee on the largest buy the limits allow, m = min(position, gross exposure,
  1 - reserve), at most the cushion they leave in cash, max(reserve, 1 - gross exposure). With one slot
  or one listed asset, where nothing but that asset can stand beside the cash, the fee has all of 1 - m
  to fit into (`AloneCashNeverNegative`).
- An exit sized at the mark converts into more than is held exactly when the mark is above the mid
  it fills at (`ExitConvertsToHeldExactlyWhen`); the planner's clamp is what still keeps the fill
  inside the holding (`ExitNeverOversells`), and `FiredExitSellsExactly` says how much is sold.
- Saving the book fails exactly when its day-start value is not positive (`RestartIsIdentity`).
  `SunkBookCannotBeSaved` is a run of the book that gets there; `CheckpointsCanBeWritten` says no run
  of the service does when fees fit and are below 100%.
- A sell the book refuses leaves an empty position behind exactly when the asset had none
  (`RefusedSellLeavesATrace`).
- An unreadable last line of the audit file is refused only once per process; the next record starts
  a second chain behind it. `BadTailIsRefusedExactlyOnce` says that of any file the first attempt fails
  exactly then and the second never, and `EveryRunKeepsTheVerdict` that no run of records, publications
  and restarts makes a broken file verify or a whole one stop verifying.

## Model

| member | source | states |
|---|---|---|
| Ledgers.TransitionsAreForward | src/traderstack/execution/ledger.py:71-136 | the transition table is exactly: stay, or leave a non-terminal state for one of higher rank, the two submission states having equal rank |
| Ledgers.LifecycleOverEveryRun | src/traderstack/execution/ledger.py:208-276 | over every run of registrations, updates, fills and restarts no order's rank falls, an acknowledged order never becomes uncertain, a closed order keeps its state and one closed unfilled never changes |
| Ledgers.ReplayedFillIsANoOp | src/traderstack/execution/ledger.py:237-241 | a fill id seen before leaves the ledger unchanged whatever ran in between |
| Ledgers.AccountsOverEveryRun | src/traderstack/execution/ledger.py:237-269 | filled quantity, price times quantity and fees of every order are sums over the fills booked on it, never past requested plus tolerance, no fill id twice |
| Ledgers.ExecutionLedger.Load | src/traderstack/execution/ledger.py:196-200 | a ledger rebuilt from saved state has the saved orders and ids |
| Ledgers.ExecutionLedger.Save | src/traderstack/execution/ledger.py:202-206 | the saved state lists every processed id once, sorted, and loading it gives the same ledger |
| Ledgers.ExecutionLedger.Find | src/traderstack/execution/ledger.py:214-223 | lookup by ledger key first, then by the first venue or client alias |
| Ledgers.ExecutionLedger.Register | src/traderstack/execution/ledger.py:208-212 | a different order under a used id is refused and nothing changes; otherwise it is stored |
| Ledgers.ExecutionLedger.UpdateState | src/traderstack/execution/ledger.py:231-235 | an unknown id or illegal transition is refused and nothing changes; otherwise only the state moves |
| Ledgers.ExecutionLedger.Accumulate | src/traderstack/execution/ledger.py:245-268 | the order's running quantity, weighted price, fees, fee source and state after a fill |
| Ledgers.ExecutionLedger.Record | src/traderstack/execution/ledger.py:237-269 | duplicate, orphan, mismatched, overfilling and illegal fills leave the ledger alone; any other updates one order and the id set |
| Portfolio.FillKeepsIdentity | src/traderstack/portfolio.py:144-205 | every fill, taken or refused, keeps cash plus inventory at cost equal to starting value plus realized PnL |
| Portfolio.FillEffect | src/traderstack/portfolio.py:144-205 | a buy or a covered sell moves cash, fees and one quantity by exactly the fill; a refused sell moves none |
| Portfolio.RefusedSellLeavesATrace | src/traderstack/portfolio.py:159-187 | a refused sell leaves the book unchanged exactly when the asset has a position already; otherwise an empty one is added |
| Portfolio.PeakCoversNav | src/traderstack/portfolio.py:199-204 | a fill never lowers the peak, and after it the peak is at least the book's value |
| Portfolio.RestartIsIdentity | src/traderstack/portfolio.py:82-132 | the checkpoint can be written exactly when the day-start value is positive, and loading it gives the same book |
| Portfolio.SnapshotEntry | src/traderstack/portfolio.py:245-278 | the snapshot shows exactly the open positions, with their marked exposure |
| Portfolio.ExposuresSumToWorth | src/traderstack/portfolio.py:207-278 | the exposures shown add up to the marked worth of the book |
| Portfolio.InMemoryPortfolioBook.Load | src/traderstack/portfolio.py:82-105 | the book rebuilt from saved state |
| Portfolio.InMemoryPortfolioBook.NavUsd | src/traderstack/portfolio.py:207-214 | the summing loop is cash plus every position at its mark, or at cost when unmarked |
| Portfolio.InMemoryPortfolioBook.MarkAsset | src/traderstack/portfolio.py:134-142 | a positive price marks and raises the high-water of an open position; any other is refused |
| Portfolio.InMemoryPortfolioBook.Buy | src/traderstack/portfolio.py:159-184 | a buy blends the cost, pays cash and fee, opens the entry fields on the first unit |
| Portfolio.InMemoryPortfolioBook.Sell | src/traderstack/portfolio.py:185-199 | a covered sell realizes the difference to cost and clears a position sold out |
| Portfolio.InMemoryPortfolioBook.Fill | src/traderstack/portfolio.py:144-205 | validation, then the buy or sell, then mark and peak; refusals as in the source |
| Portfolio.InMemoryPortfolioBook.Roll | src/traderstack/portfolio.py:216-237 | the day anchor moves exactly when the date changes after the first observation |
| Portfolio.InMemoryPortfolioBook.Observe | src/traderstack/portfolio.py:245-278 | the snapshot after rolling the day; a book worth nothing has none |
| Holdings.FilledPosition | src/traderstack/portfolio.py:144-204 | where a fill leaves every position of the book, field by field |
| Holdings.PositionsTellTheirStory | src/traderstack/portfolio.py:134-205 | over every run of fills, marks, snapshots and restarts an open position holds what the taken fills left and knows when and by which strategy it was opened and the highest price since; a flat one has forgotten all three |
| Planning.PlanOrder | src/traderstack/execution/planner.py:117-188 | a plan is worth at least the minimum and at most the intent, stays within the cap and keeps price, side and ids |
| Planning.LargestLots | src/traderstack/execution/planner.py:190-196 | rounding gives the largest whole number of lots not above the quantity |
| Planning.PlansWhatFits | src/traderstack/execution/planner.py:130-169 | within the slippage limit, an order and a cap each worth the minimum plus one lot are planned, within one lot of the smaller |
| PaperFills.CommittedFill | src/traderstack/execution/paper_fill.py:151-213 | a committed fill is at the adverse price with the modelled fee, no short sale, and within the holding when reduce-only |
| PaperFills.FreshPlanCommits | src/traderstack/execution/paper_fill.py:160-213 | a planned order with unused decision, client and fill ids that is no short sale is committed at its planned size |
| PaperFills.FreshWithinNotional | src/traderstack/execution/paper_fill.py:160-205 | a fresh decision books at most its approved notional |
| PaperFills.ResumedWithinNotionalExactlyWhen | src/traderstack/execution/paper_fill.py:166-205 | a decision already on order books the quantity on order, and stays within its notional exactly when that quantity at the fill price does |
| PaperFills.ExitNeverOversells | src/traderstack/execution/paper_fill.py:151-219 | a reduce-only sell, planned now or earlier, books at most the held quantity and the book always takes it |
| PaperFills.ApplyIntent | src/traderstack/execution/paper_fill.py:122-219 | the step-by-step update of ledger and portfolio is the attempt the laws are about, outcome and errors included |
| PaperFills.Book | src/traderstack/execution/paper_fill.py:182-219 | duplicate check, short-sale check, ledger commit, then the book |
| BookOfRecord.AgreeIffAllTaken | src/traderstack/execution/paper_fill.py:205-213 | given the reconciliation, ledger and book agree exactly when the book took every committed fill |
| BookOfRecord.BandBounds | src/traderstack/execution/paper_fill.py:271-280 | a sell in the band is above the holding by at most the slack and never reduce-only |
| BookOfRecord.AgreementKeptExactlyOutsideTheBand | src/traderstack/execution/paper_fill.py:122-219 | one attempt keeps per-asset quantity, cash and fees in agreement if and only if it is not in the band |
| BookOfRecord.BandIsReached | src/traderstack/execution/paper_fill.py:166-213 | for every slack below one lot, a run from a new book registers an odd order, buys it, sells a whole lot and ends with ledger and book apart |
| BookOfRecord.SpentStops | src/traderstack/execution/paper_fill.py:222-237 | a decision whose fill is booked is never committed again |
| BookOfRecord.BookOfRecordOverEveryRun | src/traderstack/execution/paper_fill.py:122-219 | over every run with restarts: no decision committed twice, the cost identity, quantities, cash and fees reconciled to the ledger, and agreement exactly when nothing fell in the band |
| WholeLots.BandIsEmpty | src/traderstack/execution/paper_fill.py:166-193 | with whole-lot orders and holdings and a slack below one lot, no sell is in the band |
| WholeLots.WholeLotsAgreeExactlyWhen | src/traderstack/execution/paper_fill.py:122-219 | for any simulator that trades, ledger and book agree over every run of whole-lot orders from a new book if and only if the slack is below one lot |
| WholeLots.WholeLotsAgree | src/traderstack/execution/paper_fill.py:122-219 | over every run whose registered orders are whole lots, with the slack below one lot, ledger and book agree on quantities, cash and fees |
| Risk.ApprovalBounds | src/traderstack/risk.py:267-331 | approved is between zero and requested, zero exactly on a rejection, full exactly on an allowance |
| Risk.AddingStaysInside | src/traderstack/risk.py:222-331 | an approved addition fits the position, gross exposure and cash reserve limits |
| Risk.ExitApprovedExactlyWhen | src/traderstack/risk.py:195-287 | a deterministic exit is approved if and only if the halt is clear, the state fresh, the asset listed and the spread within limit, for the smaller of requested and held |
| Risk.TighteningNeverRaises | src/traderstack/risk.py:202-331 | tightening any limits, or engaging halt or breaker, never raises an approval |
| RiskEngines.RiskEngine.CheckAccount | src/traderstack/risk.py:209-252 | the reasons collected, and that some blocks exactly when an account limit is hit by this kind of proposal |
| RiskEngines.RiskEngine.ScaleRequest | src/traderstack/risk.py:297-316 | the request after both volatility factors, and which of them bit |
| RiskEngines.RiskEngine.SizeReduction | src/traderstack/risk.py:272-288 | the reducing branch's decision, size and reasons |
| RiskEngines.RiskEngine.SizeAddition | src/traderstack/risk.py:290-331 | the adding branch's decision, size and reasons |
| RiskEngines.RiskEngine.EvaluateProposal | src/traderstack/risk.py:183-331 | the engine's answer is the limits' for what the breaker said, and the breaker is asked, and perhaps cleared, exactly when neither halt nor exit makes it moot |
| Solvency.ApprovedBuyIsBounded | src/traderstack/risk.py:222-331 | an approved buy is at most the smallest of position limit, gross limit and one less the reserve, and leaves the larger of reserve and ungrossed part in cash |
| Solvency.ApprovedBuyIsAffordable | src/traderstack/risk.py:229-331 | an approved buy and its fee fit into the cash when fees fit |
| Solvency.CycleIsSolvent | src/traderstack/risk.py:183-331 | one cycle with a fresh decision keeps a solvent book solvent |
| Solvency.CashNeverNegative | src/traderstack/execution/paper_fill.py:194-213 | over every run of cycles with fresh decisions and arbitrary marks, from any solvent book, cash never goes below zero when fees fit |
| OneAsset.ApprovedBuyIsOfTheOne | src/traderstack/risk.py:229-331 | with one slot or one listed asset, a buy is approved only of a listed asset beside which nothing else is held |
| OneAsset.AloneCashNeverNegative | src/traderstack/risk.py:222-331 | with one slot or one listed asset, over every run from a new book at most one, listed, asset is held and cash never goes below zero when fees fit what its largest buy leaves |
| Overdraft.SolventExactlyWhenFeesFit | src/traderstack/risk.py:222-331 | for any simulator in paper mode with slippage within its limit and below 100%, any limits that list an asset, give it a slot and keep less than the whole book in reserve: no run from a new book overdraws it if and only if fees fit |
| Service.RunSymbol | src/traderstack/service.py:226-252 | snapshot, pipeline and review, gated fill, mark and the closing snapshot on the objects are the turn the laws are about |
| Service.FillOrder | src/traderstack/service.py:386-430 | the fill is withheld outside paper mode, without a simulator, in diagnostic mode, under the kill switch and on unreconciled or torn state, and attempted otherwise |
| Service.OrderAnswersOneQuestion | src/traderstack/pipeline.py:84-406 | whatever order leaves pipeline and review is the risk engine's answer to one question about this snapshot, decision and asset |
| Service.TurnIsACycle | src/traderstack/service.py:226-252 | up to its closing snapshot every turn does to ledger and book what one abstract cycle does |
| Service.ServiceNeverOverdraws | src/traderstack/service.py:226-252 | over every run of the service with fresh decisions, arbitrary marks and restarts, cash never goes below zero when fees fit |
| Service.ServiceKeepsTheBooks | src/traderstack/service.py:226-252 | over every run of the service, restarts included, ledger and book reconcile, no decision is committed twice, the cost identity holds, and they agree, always when the slack is below one lot and otherwise exactly when the book took every committed fill |
| Service.FiredExitSellsExactly | src/traderstack/service.py:226-252 | a fired exit that market data, halt, freshness, allowlist and spread permit and nothing withholds sells in the same turn exactly the whole lots in both its notional and the holding, or nothing when those fall short of the smallest order or slippage exceeds its limit |
| Service.FiredExitSellsDown | src/traderstack/execution/planner.py:130-169 | when both are worth the smallest order and one lot, that is some of the holding, within one lot of the smaller, whatever else stands against it |
| Checkpoints.CheckpointsCanBeWritten | src/traderstack/portfolio.py:107-132 | over every run of the service from a new book, snapshots within and between turns included, when fees fit and are below 100%, the book has positive value and day-start value, so it can be saved and loads back the same |
| Checkpoints.SunkBookCannotBeSaved | src/traderstack/portfolio.py:107-237 | a run of the book itself, bought beyond its cash and marked down overnight, that cannot be saved |
| Exits.SizingPrice | src/traderstack/exits.py:70-94 | the sizing price is positive and never above the mark |
| Exits.ExitConvertsToHeldExactlyWhen | src/traderstack/exits.py:70-94 | below 100% slippage an exit's notional converts to at most the holding if and only if the mark is not above the fill's mid |
| Pipeline.FiredExitDecides | src/traderstack/pipeline.py:169-185 | a fired price or time exit is the cycle's order, untouched by gates and review |
| Pipeline.ExitsCannotBeFrozen | src/traderstack/pipeline.py:169-185 | with market data accepted, a fired exit becomes a reduce-only sell of what it asks, up to the exposure, if and only if halt, freshness, allowlist and spread permit, whatever everything else says |
| Pipeline.ReviewOnlyWithholds | src/traderstack/agents/review.py:389-423 | any review leaves the order or removes it, and changes nothing of the proposal but its confidence |
| Pipeline.ProcessShrinks | src/traderstack/pipeline.py:84-316 | more gates and tighter limits leave no order or the same one at no larger size |
| Pipeline.ControlsOnlyWithhold | src/traderstack/pipeline.py:84-422 | two runs: gates on, limits tightened, halt or breaker engaged, any meta-agent and reply, against none of it: never a new, larger or re-sided order |
| AuditTrail.VerifyChain | src/traderstack/risk_audit.py:196-247 | accepts exactly the existing files whose lines parse and chain from genesis, with the record count; otherwise stops at the first line that breaks |
| AuditTrail.ResumeIsInStep | src/traderstack/risk_audit.py:112-129 | a restarted writer picks up the sequence and hash of the last record |
| AuditTrail.AppendStaysInStep | src/traderstack/risk_audit.py:131-164 | on a trail that verifies, recording appends one record that keeps it verifying, numbered by the records before it, earlier lines untouched |
| AuditTrail.AppendKeepsTheVerdict | src/traderstack/risk_audit.py:112-164 | on any file, whole or broken, recording fails exactly when a new process finds an unreadable last line, otherwise appends one line, and the file verifies afterwards exactly when it did before |
| AuditTrail.BadTailIsRefusedExactlyOnce | src/traderstack/risk_audit.py:112-129 | of a new process's two attempts on any file the first fails if and only if the last line is unreadable, the second always writes, behind a bad tail a record numbered zero, and the file verifies afterwards if and only if it did before |
| AuditTrail.RiskAuditTrail.AppendRecord | src/traderstack/risk_audit.py:112-164 | the object's step is that attempt, failure included, and a valid trail stays valid |
| AuditAnchors.HashesBySequence | src/traderstack/audit_anchor.py:121-129 | on a verified file the table holds every record's hash under its sequence, and nothing else |
| AuditAnchors.VerifyWithAnchors | src/traderstack/audit_anchor.py:132-196 | accepts exactly when the chain verifies, there is an anchor and all anchors match; otherwise names the lowest that does not |
| AuditAnchors.SameHashSamePast | src/traderstack/risk_audit.py:196-247 | two chained trails with one hash in common are identical up to it, or exhibit a collision |
| AuditAnchors.AnchorSoundness | src/traderstack/audit_anchor.py:132-196 | a file accepted against an original's anchors equals the original up to the highest anchor, or exhibits a collision |
| AuditAnchors.AuditAnchorPublisher.PublishNow | src/traderstack/audit_anchor.py:328-336 | publishes the head if there is one and remembers its sequence |
| AuditAnchors.AuditAnchorPublisher.MaybePublish | src/traderstack/audit_anchor.py:321-326 | publishes exactly when enough records have passed since the last anchor |
| AuditAnchors.EveryRunVerifies | src/traderstack/risk_audit.py:112-164 | every interleaving of records, publications and restarts leaves the right records in a file the verifier accepts exactly when there is a file, and fewer than the interval unanchored |
| AuditAnchors.EveryRunKeepsTheVerdict | src/traderstack/risk_audit.py:112-164 | however records, publications and restarts interleave from a new process on, any file at all verifies at the end exactly when it did at the start |
| AuditAnchors.AcceptedFilesHoldTheTrail | src/traderstack/audit_anchor.py:309-336 | any file accepted after a run holds all but fewer than the interval of its records, or exhibits a collision |
| PaperReplay.CloseConserves | src/traderstack/acceptance/report.py:283-327 | closing lots conserves quantity, value and fees, and spreads the exit fee pro rata |
| PaperReplay.CloseSettles | src/traderstack/acceptance/report.py:283-327 | a close ends matched within the tolerance or out of lots, dropping at most one remainder within the tolerance |
| PaperReplay.ReplayBalances | src/traderstack/acceptance/report.py:211-280 | after every replay quantity, cash and fees are accounted for to the last lot, trade, remainder and unmatched sell |
| PaperReplay.ReplayValueExactly | src/traderstack/acceptance/report.py:211-327 | for every tolerance, the equity change is trade profit less fees plus the worth of what the report lets go of |
| PaperReplay.ReplayConserves | src/traderstack/acceptance/report.py:211-327 | without tolerance and oversells, the equity change is trade profit less fees, and the trades carry every fee |
| PaperReplay.LotsTrackHoldings | src/traderstack/acceptance/report.py:283-327 | open lots differ from the holding by at most the tolerance per sell |
| FifoMatching.CloseKeepsLines | src/traderstack/acceptance/report.py:283-327 | without tolerance, closing takes lots from the front and hands the sale out from its front |
| FifoMatching.FirstInFirstOut | src/traderstack/acceptance/report.py:211-327 | without tolerance and oversells, the unit at any cumulative position sold belongs to a trade that opened with the buy at the same cumulative position |
| PaperReplay.EventsInOrder | src/traderstack/acceptance/report.py:236-242 | the replay sees every fill and mark once, in time order, fills before marks at a tie |
| PaperReplay.CloseLotsLoop | src/traderstack/acceptance/report.py:283-327 | the loop over the lot queue computes the close the laws are about |
| PaperReplay.Reconstruct | src/traderstack/acceptance/report.py:211-280 | the report's loop computes the replay and its final close, and refuses a non-positive start |
| Backtest.AccountingIsExact | src/traderstack/backtest.py:111-196 | equity stays positive and is the start compounded through the trades, fees are the trades' fees, every position opened is closed once |
| Backtest.DrawdownIsTheLargestDecline | src/traderstack/backtest.py:189-196 | the running drawdown is the largest decline between any two equity points in order |
| Backtest.NoLookAhead | src/traderstack/backtest.py:174-191 | series agreeing on their first k bars give the same state at every step that executes before bar k |
| Backtest.TradesFollowTheWarmup | src/traderstack/backtest.py:126-196 | every trade opens strictly after the warm-up bar, at some bar's open, and closes on that bar or a later one |
| Backtest.RunBar | src/traderstack/backtest.py:174-191 | one bar: decide on the window, trade at the next open, note return and peak |
| Backtest.SimulatePositions | src/traderstack/backtest.py:88-196 | the loop computes the final state; too few candles are refused |
| WalkForward.Evaluate | src/traderstack/walkforward.py:45-95 | exactly the whole folds that fit, in order, each on its own slices; refused exactly for bad sizes, short history or a fold whose fitted warm-up its window cannot hold |
| WalkForward.FoldsDoNotLookAhead | src/traderstack/walkforward.py:58-84 | series agreeing from the train start to a bar of the window fit the same backtester and put it into the same state there, whatever the later test bars are |
| WalkForward.FoldsTradeInTheTestSlice | src/traderstack/walkforward.py:36-74 | every trade of a fold opens after the first test bar and closes before the test end, with or without the train slice as warm-up |
| Garch.NegLogLik | src/traderstack/garch.py:113-124 | the accumulation loop computes the score, the sentinel outside the admissible region |
| Garch.FitIsAdmissibleAndBest | src/traderstack/garch.py:127-167 | for any grid with an admissible starting point, every fit is non-negative with persistence below 0.999 and omega at the floor or above, and no worse than any grid point scoring below the sentinel |
| Garch.FitGarch | src/traderstack/garch.py:127-167 | grid and refinement loops compute the fit; fewer than 20 returns are refused |
| Garch.RoundLoop | src/traderstack/garch.py:145-164 | one refinement round, and that it reports an improvement exactly when the score fell |
| Garch.ConditionalVarianceLoop | src/traderstack/garch.py:170-175 | the loop computes the variance recursion |
| Garch.VarianceIsBounded | src/traderstack/garch.py:170-175 | with residuals bounded by R the variance stays between the floor and the larger of its start and (omega + alpha R^2) / (1 - beta) |
| Garch.SizeFromVol | src/traderstack/garch.py:87-100 | the size lies between its caps |
| Garch.StandardFitIsAdmissibleAndBest | src/traderstack/garch.py:37-40 | the same of the grid, moves and starting point the system uses |
| Garch.RollOrRefit | src/traderstack/garch.py:217-223 | one bar keeps parameters and variance equal to those recomputed from the last refit |
| Garch.WalkForwardForecasts | src/traderstack/garch.py:188-242 | rolled forward between refits, every forecast equals the one computed from scratch; bad parameters are refused, and bad size caps once there is a forecast to size |
| Garch.ForecastSeesOnlyThePast | src/traderstack/garch.py:188-242 | series agreeing up to an index have the same forecast there, regime and percentile included |
| Garch.RefitMatchesOneStep | src/traderstack/garch.py:245-275 | at a refit index the forecast is the one-step forecast of the same history in variance, volatility and size |
| CircuitBreaker.RollingDrawdownLoop | src/traderstack/circuit_breaker.py:81-94 | the running-peak loop |
| CircuitBreaker.DrawdownIsTheLargestDecline | src/traderstack/circuit_breaker.py:81-94 | it finds the largest decline of the cumulative curve between any two points in order |
| CircuitBreaker.RecordedIsFaithful | src/traderstack/circuit_breaker.py:129-160 | recording trips an untripped strategy exactly when its history breaches a limit, and never moves an existing trip |
| CircuitBreaker.BooksOverEveryRun | src/traderstack/circuit_breaker.py:118-242 | over every run the loss counter is the trailing losses since the last reset despite the truncated window, and an untripped strategy is below both limits |
| CircuitBreaker.TripIsFixed | src/traderstack/circuit_breaker.py:221-242 | a trip's time and reason stand until a reset or a question after the cool-down |
| CircuitBreaker.StrategyCircuitBreaker.RecordClosedTrade | src/traderstack/circuit_breaker.py:129-160 | the update of one strategy; a non-positive NAV changes nothing |
| CircuitBreaker.StrategyCircuitBreaker.IsTripped | src/traderstack/circuit_breaker.py:221-231 | the answer, and the clearing of a strategy whose cool-down is over |
| CircuitBreaker.StrategyCircuitBreaker.ClearStrategy | src/traderstack/circuit_breaker.py:233-242 | one known strategy is cleared, nothing else |
| OpportunityFunnel.Classify | src/traderstack/opportunity_funnel.py:382-576 | every cycle lands at one stage with the gate that stopped it and that gate's category, or is filled, which takes an approved order |
| OpportunityFunnel.CountedShows | src/traderstack/opportunity_funnel.py:226-236 | counting raises by one exactly the counters the observation bears on |
| OpportunityFunnel.RetractedShows | src/traderstack/opportunity_funnel.py:722-769 | retracting undoes exactly that, though zeros are dropped |
| OpportunityFunnel.PromotedCounts | src/traderstack/opportunity_funnel.py:694-745 | promoting a pending observation turns the counters of a log into those of the log with it replaced |
| OpportunityFunnel.AppliedKeeps | src/traderstack/opportunity_funnel.py:694-720 | a ledger pass keeps the recount, and drops from the pending list as many as it moved |
| OpportunityFunnel.FunnelOverEveryRun | src/traderstack/opportunity_funnel.py:639-769 | over every run total, per-symbol and per-strategy counters are a recount with promoted observations replaced; stages narrow, categories add up to cycles, reasons and pending stay bounded |
| OpportunityFunnel.PromotedExactlyWhenFilled | src/traderstack/opportunity_funnel.py:694-720 | while no decision is awaited twice at once and the pending list has room, the log counted is the one told from the events alone |
| OpportunityFunnel.ExpectedEntry | src/traderstack/opportunity_funnel.py:694-720 | in that log an observation appears filled exactly when it is awaited and a later pass shows its decision filled |
| OpportunityFunnel.OpportunityFunnel.Add | src/traderstack/opportunity_funnel.py:659-692 | the accumulator's whole new state |
| OpportunityFunnel.OpportunityFunnel.Retract | src/traderstack/opportunity_funnel.py:722-745 | what is taken out again, scope by scope |
| OpportunityFunnel.OpportunityFunnel.ApplyLedger | src/traderstack/opportunity_funnel.py:694-720 | the pass over the pending list and the number moved |
| OpportunityFunnel.OpportunityFunnel.Record | src/traderstack/opportunity_funnel.py:639-657 | the observation of a cycle, filled outright when the ledger already says so |
| Pagination.PageFollows | src/traderstack/signal_warehouse.py:581-599 | the statement behind the cursor returns the rows right after those already held |
| Pagination.Stats | src/traderstack/signal_warehouse.py:559-578 | count, earliest and latest time of the matching rows |
| Pagination.FetchPage | src/traderstack/signal_warehouse.py:581-606 | one page extends the prefix by as much as page size and rows wanted allow |
| Pagination.LoadWalletObservationsComplete | src/traderstack/signal_warehouse.py:542-618 | for every page size and any ties, the first max_rows matching rows in (observed_at, id) order; complete exactly when that is all; the fewest pages; bad sizes refused |

## Left out

- Float rounding, NaN and infinity: arithmetic is over `real`; the 1e-12 tolerances are parameters.
- `str.upper` and `str.lower` outside ASCII, and whitespace stripping of symbols and assets.
- Storage, network, locking and file syncing: a file is a sequence of lines, a restart a state round trip at a cycle boundary.
- Fill and order timestamps, and the text of error messages.
- The SHA-256 digest of section 6.2 of FIPS 180-4 and the canonical JSON are one arbitrary function; no injectivity is assumed, a collision is named instead.
- Exits of short positions: the book is long-only, so the covering side of each exit rule cannot occur.
- A feature builder that raises on a short history: cycles in which it does not raise are modelled.
- The meta-agent's daily budget, evidence cache and model call: its reply is an arbitrary input.
- Strategy indicators, signal combination and the pre-trade backtest: their result is an arbitrary input.
- Service.RunSymbol: venue submission is off; with it on, the submitter registers an order planned at the ask before the paper fill, and `ResumedWithinNotionalExactlyWhen` says when the fill still stays within its approval.
- Service.ServiceNeverOverdraws: for the same reason a submitted quantity, which the fill honours at another price, is outside it, and so is a decision id used twice; the laws of `BookOfRecord` cover both.
- Withheld cycles' status texts, perp funding, the carry hedge, metrics, checkpoints and event fan-out of the service cycle.
- Backtest.AccountingIsExact: assumes every fill costs less than the whole notional; at 100% the source divides by zero.
- Sharpe, Sortino, Calmar and other ratios of backtest and report.
- Garch: the logarithm and the square root are arbitrary functions; the volatility factor applied by the risk engine is in `Risk`.
- Funnel timestamps, freshness statistics, example texts, status counts and the diagnosis sentence; reason totals once a map has overflowed, since overflowed reasons are not taken back.
- Pagination.LoadWalletObservationsComplete: the table does not change while it is read, so the break on an empty page never fires.
- The paper perpetual book, submission to a venue, reconciliation and settings loading.
