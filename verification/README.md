# Trading core: a verified model

A model of the trading core of the repository and proofs about it, in Dafny 4.11. From this directory,
`dafny verify dfyconfig.toml` checks everything.

What is modelled:

- **One bot as a step system** (`BotTask`, `BotOrders`, `BotJournal`, `BotLive`). A bot runs as an asyncio task
  that stop or kill can cancel at any await. Every await of the run, of the router's submit, of the
  breaker's sweep and of a kill is a program counter value; success, failure and cancellation are
  steps, and an interrupted operation may or may not have taken effect. The proofs say who can still
  trade, what can be left resting, what the log can look like, and how far ledger, events and rows
  can be apart, in every reachable state. `BotLive` proves that, left alone, the steps add up to the
  router's submit and to the atomic live bar.
- **The supervisor** (`Supervisor`). Any number of bots under every interleaving of start, stop, kill and
  task steps.
- **The router and the paper exchange** (`Router`, `Journal`, `Paper`), as classes that update their fields.
- **Backtest against live accounting** (`Ledger`, `Backtest`, `Live`), for an arbitrary pure strategy, and the live loop
  under market hours.
- **The rule engine** (`EdgeRules`, `RuleEngine`). `EdgeRules` proves what every edge-triggered engine over a
  sliding window does; `RuleEngine` is the interpreter itself.
- **The grid** (`Grid`), its closed form and its exact lot-stack characterisation.
- **The ai_signal strategy and its companion** (`AiSignal`), two tasks over one shared state.
- **The NYSE calendar** (`Session`) and **the rule builder's translations** (`Editor`), the latter judged by the
  rule engine's own parser and evaluator.

Code that updates fields or variables in loops is a class or a method with loops, proved equal to a
function of the old state; the theorems are about those functions. Clocks, strategy answers and the
outcome of every operation are inputs of a step. Order and fill ids come from one counter.

Where the code and its documentation disagree the model follows the code, and a lemma says so:

- `supervisor.py:184-187` says stop lets the current bar finish, and that killing a terminal bot is a
  no-op. Stop always cancels as well, so the loop's STOPPING check is never reached. A stopped bot becomes STOPPED
  only if the stop lands while a run whose stream ended tears its companion down; a trading bot that is stopped stays
  in STOPPING. A kill of an ended bot overwrites its state, sweeps what is open and announces itself again. A kill
  sticks, whatever follows short of another stop or kill, except in that same teardown, which swallows it.
- `rule_engine.py:42-44` says overselling is caught by the exchange adapter. The paper adapter fills every
  market order on a marked symbol.
- All callers of `update_mark` (`engine.py:62`, `ccxt_live.py:109`, `demo_paper.py:60`) drop the limit fills it
  returns. No limit fill reaches a ledger, an event or a row, and the breaker and a kill report such orders as
  cancelled.
- `grid.py:3-7` says the grid distributes dearer. A close exactly on a line can make it sell at a loss; it cannot
  exactly while every lot was bought below the line it would be sold at.
- `grid.py:50-53` divides the budget by the intervals, but there is one more line than intervals and each can hold a
  lot: a fall through the whole ladder commits `levels / (levels - 1)` of `total_quote`, and only that exceeds it on a
  run whose lots stay in line order.
- `rule_engine.py:29-34` promises convergence of a bot started mid-stream. It holds without cooldowns, from the
  (W+2)-th accepted bar, and that bound is tight. With cooldowns a warmed-up bot differs on a rule exactly where the
  rule would fire and has cooled in one of the runs only; once both have cooled, on a clock that never runs back, or
  have fired together, it never does again. Short of that the two can go on taking turns for ever.
- `ai_companion.py:69-70` caps consults per UTC day. The count is per stretch of clock readings of one day, so the
  cap can be beaten exactly when a day's stretches, each counted up to the cap, add up to more.

## Model

| member | source | states |
|---|---|---|
| `BotTask.StepSettles` | apps/bot-engine/app/runtime/supervisor.py:288-365 | Every step of a bot task, from any counter, keeps handle state and task in agreement, and a task that cannot trade neither regains that nor begins a submission |
| `BotTask.NothingBeginsAfterTheEnd` | apps/bot-engine/app/runtime/supervisor.py:288-365 | Once a task cannot trade, no sequence of steps ever begins another submission |
| `BotTask.StoppedNeverSubmitsAgain` | apps/bot-engine/app/runtime/supervisor.py:170-203 | From any reachable state, after stop or kill is called the task never submits again, whatever follows |
| `BotTask.StoppingIsNeverSeenByTheLoop` | apps/bot-engine/app/runtime/supervisor.py:170-179 | The loop's own check for STOPPING (line 309) is dead code: an uncancelled task waiting for a bar is RUNNING or IDLE. Contradicts the claim that stop lets the current bar finish |
| `BotTask.StoppingEndsTheStream` | apps/bot-engine/app/runtime/supervisor.py:308-310 | Were a bar to find a stopping task, it would mark the venue, not be traded, and leave as at the end of the stream |
| `BotTask.CancellationsEndTheTask` | apps/bot-engine/app/runtime/supervisor.py:338-360 | A cancellation ends the task wherever it is suspended, waiting for the companion exactly from inside the loop or after it; the state stays, nothing more is begun or credited |
| `BotTask.KillSticksIff` | apps/bot-engine/app/runtime/supervisor.py:181-203 | From any task a kill leaves the bot KILLED under every continuation without another stop or kill exactly when it does not land while a run whose stream ended tears its companion down |
| `BotTask.StopReachesStoppedIff` | apps/bot-engine/app/runtime/supervisor.py:170-179 | From any task some kill-free continuation of a stop makes the bot STOPPED exactly when the stop lands in that same teardown |
| `BotTask.StopNeverReachesStopped` | apps/bot-engine/app/runtime/supervisor.py:170-179 | In particular a trading task that is stopped stays in STOPPING for ever, short of a kill: cancelled, then torn down, then done |
| `BotTask.EndedStreamsTearDown` | apps/bot-engine/app/runtime/supervisor.py:338-365 | That teardown is reached, uncancelled, by every bot with a companion whose stream ends at once |
| `BotTask.KillOverwritesTheEnd` | apps/bot-engine/app/runtime/supervisor.py:181-203 | Kill on a bot that has ended, with orders open or not, is not the no-op documented: left to run it overwrites the final state, cancels, records and reports whatever is open, in order, and publishes bot_killed |
| `BotTask.KillSwallowedByTeardown` | apps/bot-engine/app/runtime/supervisor.py:353-365 | A kill that lands while a run that ended tears its companion down is swallowed there: the bot is STOPPED, and stays so under every continuation without another stop or kill |
| `BotTask.TripNeedsATrustedLoss` | apps/bot-engine/app/runtime/supervisor.py:227-255 | Only a completed step or a bar trips the breaker, and only on a loss at the cap at the last mark, with the market open and the mark young enough |
| `BotTask.TripsOnEveryTrustedLoss` | apps/bot-engine/app/runtime/supervisor.py:227-273 | And always on such a loss: a bar done with, in open hours, trips exactly when the profit on the credited fills is at or below minus the cap at the mark, the market is open at that moment and the mark no older than allowed |
| `BotTask.FailuresAreReported` | apps/bot-engine/app/runtime/supervisor.py:340-352 | An exception in any operation of the loop makes an uncancelled bot ERRORED; left to run it publishes bot_error and leaves, its open orders as they were |
| `BotTask.StrategyFailuresAreReported` | apps/bot-engine/app/runtime/supervisor.py:330-352 | So does a strategy that raises, on a bar after an idle stretch too, with the mark already moved and nothing submitted |
| `BotTask.EndedStreamsStop` | apps/bot-engine/app/runtime/supervisor.py:353-365 | A stream that ends stops the bot once its companion is torn down: STOPPED, bot_stopped published, orders left as they are |
| `BotTask.OtherEndsAreSilent` | apps/bot-engine/app/runtime/supervisor.py:217-225 | A sweep that fails is swallowed: the tripped bot stays PAUSED, waits for its companion and publishes nothing more |
| `BotTask.FailedSweepsStillKill` | apps/bot-engine/app/runtime/supervisor.py:199-225 | A kill whose sweep fails still finishes and publishes bot_killed, with the state, the run and the open set as they were |
| `BotTask.ClosedBarsTradeNothing` | apps/bot-engine/app/runtime/supervisor.py:308-327 | A bar while the market is closed begins no submission, leaves the last mark alone and the bot IDLE, and announces that exactly when it was not idle already |
| `BotTask.FailedStartStaysRunning` | apps/bot-engine/app/runtime/supervisor.py:296-299 | A run whose bot_started could not be published is dead and says RUNNING until somebody stops or kills it |
| `BotTask.StepTells` | apps/bot-engine/app/runtime/supervisor.py:288-365 | Every step keeps: a busy handle state means the task can trade, or its ended stream is being torn down, or its start could not be announced |
| `BotOrders.StepCovers` | apps/bot-engine/app/runtime/router.py:48-115 | Every step of task or kill keeps each order resting at the venue answered for: open set, submission in flight, cut submission, sweep, or recorded as dropped |
| `BotOrders.StepRemembers` | apps/bot-engine/app/runtime/router.py:48-115 | Every step keeps the open set equal to the limit orders recorded so far, filled or not, in order, until a sweep |
| `BotOrders.StepCutRests` | apps/bot-engine/app/runtime/router.py:48-54 | Every step keeps a cut order resting at the venue and unknown to the open set and to every kill |
| `BotOrders.EveryTaskIsSound` | apps/bot-engine/app/runtime/supervisor.py:288-365 | All order invariants hold in every reachable state of every interleaving |
| `BotOrders.BreakerLeavesNothingResting` | apps/bot-engine/app/runtime/supervisor.py:335-337 | When the breaker's sweep has gone through nothing rests; the cancellations published are exactly the limit orders ever placed; so an order the mark filled is reported cancelled |
| `BotOrders.KillLeavesOnlyTheCutOrder` | apps/bot-engine/app/runtime/supervisor.py:192-203 | When a kill is past its sweep, the order cut between placement and registration does rest, and nothing else but what an interrupted sweep dropped; with nothing dropped the book holds exactly the cut order |
| `BotOrders.StepWhole` | apps/bot-engine/app/runtime/router.py:48-115 | Every step keeps: no mark has filled a limit order being recorded or cut, and while anything is in the open set every limit order placed is there, being recorded or cut |
| `BotOrders.KillReportsTheFilledCancelled` | apps/bot-engine/app/runtime/supervisor.py:192-203 | A kill of a finished run with orders open, left to run, reports cancelled every limit order ever placed but the cut one; so, here too, each order the mark filled |
| `BotOrders.DroppedOnlyInsideASweep` | apps/bot-engine/app/runtime/router.py:84-104 | Orders are dropped from the books only by a failure or cancellation inside a sweep that still has some to cancel |
| `BotOrders.StopLeavesOrdersResting` | apps/bot-engine/app/runtime/supervisor.py:170-179 | Stop and error cancel nothing: short of a kill, every order resting when the task could no longer trade rests in every later state |
| `BotOrders.KillInsideTheSweepCancelsNothing` | apps/bot-engine/app/runtime/supervisor.py:192-203 | After a kill lands inside the breaker's sweep, whatever other kills wait and whether or not the cancel in flight got through, no later step cancels anything: every order the sweep had yet to reach goes on resting |
| `BotOrders.SpentKillAnnounces` | apps/bot-engine/app/runtime/supervisor.py:198-202 | Such a kill announces itself all the same once the run is done, having cancelled nothing |
| `BotJournal.StepFollows` | apps/bot-engine/app/runtime/supervisor.py:255-365 | Every step keeps the log a word of the lifecycle grammar that fits the task's counter |
| `BotJournal.LifecycleFollowsTheGrammar` | apps/bot-engine/app/runtime/supervisor.py:296-365 | The log of every run, whatever interrupts it, is a word of the lifecycle grammar |
| `BotJournal.StartIsFirst` | apps/bot-engine/app/runtime/supervisor.py:296-299 | In such a log bot_started occurs only first, and the first event is bot_started or, for a bot killed before it began, bot_killed |
| `BotJournal.IdleIsSilent` | apps/bot-engine/app/runtime/supervisor.py:314-327 | Between bot_idle and its bot_resumed there is no order event, no trip and no second bot_idle |
| `BotJournal.NothingTradesAfterTheEnd` | apps/bot-engine/app/runtime/supervisor.py:255-273 | After a trip, error, stop, kill or cancellation only cancellations and kills follow, or one error straight after a trip |
| `BotJournal.StepTrail` | apps/bot-engine/app/runtime/router.py:48-73 | Every step keeps: published order events, and those about to be published, have their committed rows |
| `BotJournal.NothingPublishedWithoutItsRow` | apps/bot-engine/app/runtime/router.py:8-13 | At every moment of every run each published submission, fill and cancellation has its committed row |
| `BotJournal.StepInStep` | apps/bot-engine/app/runtime/supervisor.py:331-334 | Every step keeps credited, published and committed fills exactly as far apart as the task's counter says |
| `BotJournal.LedgerLagsByOneSubmission` | apps/bot-engine/app/runtime/supervisor.py:331-334 | Credited fills are a prefix of published, published of committed, at most one fill apart and level while waiting for a bar; only a market order's own fill ever gets there |
| `BotLive.SubmissionCompletes` | apps/bot-engine/app/runtime/router.py:48-73 | The suspended steps of one submission, completing one after the other and nothing else, have exactly the effect the router's submit promises |
| `BotLive.SubmissionsComplete` | apps/bot-engine/app/runtime/supervisor.py:331-334 | So do all submissions of a bar, by completions alone |
| `BotLive.BarCompletes` | apps/bot-engine/app/runtime/supervisor.py:308-337 | One bar that arrives in open hours with the strategy's answer, then completions alone, is the loop's bar, the first one after an idle stretch included; it is judged exactly when its mark can be trusted then |
| `BotLive.ClosedBarCompletes` | apps/bot-engine/app/runtime/supervisor.py:311-321 | One that arrives while the market is closed marks the venue, trades nothing and leaves the bot idle |
| `BotLive.UndisturbedIsTheLiveRun` | apps/bot-engine/app/runtime/supervisor.py:288-337 | With market hours or without, after every schedule of completions and bars answered by the strategy, of whatever timing, the task stands where the live run of the bars brought to their end says; between bars it holds exactly that run, idle exactly after a closed bar, tripped exactly when it pauses |
| `BotLive.WithoutASessionItIsTheLoop` | apps/bot-engine/app/runtime/supervisor.py:288-337 | For a bot without market hours that is the plain loop's run of those bars |
| `BotLive.StepsRealiseTheLiveRun` | apps/bot-engine/app/runtime/supervisor.py:288-337 | For every strategy, session and stream of bars met at any times some undisturbed schedule brings the bars in order to their end, all or up to the one that trips, and leaves the task holding the run of the whole stream |
| `Supervisor.Supervisor.StartBot` | apps/bot-engine/app/runtime/supervisor.py:137-168 | Start refuses exactly a busy bot, otherwise installs a new handle and task |
| `Supervisor.Supervisor.StopBot` | apps/bot-engine/app/runtime/supervisor.py:170-179 | Stop sets the current handle's state and cancels its task; unknown bots change nothing |
| `Supervisor.Supervisor.KillBot` | apps/bot-engine/app/runtime/supervisor.py:181-203 | Kill the same, leaving a kill waiting; reports whether the bot is known |
| `Supervisor.Supervisor.KillAll` | apps/bot-engine/app/runtime/supervisor.py:205-215 | Kill all calls kill once on each bot that is live, of that user if one is named; every such bot's current run is killed and every other run and handle is as it was, those of other users and those already STOPPED, ERRORED or KILLED included |
| `Supervisor.ApplyIsSafe` | apps/bot-engine/app/runtime/supervisor.py:137-203 | Every move of the system keeps: whoever can trade is its bot's current handle |
| `Supervisor.AtMostOneTrader` | apps/bot-engine/app/runtime/supervisor.py:150-203 | In every reachable state at most one task per bot can still submit; it is the current handle and its state is STARTING, RUNNING or IDLE |
| `Supervisor.IdleRunsStayIdle` | apps/bot-engine/app/runtime/supervisor.py:170-203 | A run that cannot trade begins nothing whatever the system does next, restarts of its own bot included |
| `Supervisor.StartIsRefusedToTraders` | apps/bot-engine/app/runtime/supervisor.py:151-157 | Start is refused to every bot that can trade, and otherwise only during an ended run's teardown or after a start that could not be announced |
| `Supervisor.TradersAreTargets` | apps/bot-engine/app/runtime/supervisor.py:205-215 | Every run that can trade is a target of kill all for its user |
| `Supervisor.KillAllEndsTrading` | apps/bot-engine/app/runtime/supervisor.py:205-215 | Once every target has been killed, in any order and with anything but a start in between, no run of that user can trade |
| `Supervisor.KillAllExactly` | apps/bot-engine/app/runtime/supervisor.py:205-215 | The same of any order of the calls: each targeted run is killed exactly once, no other run and no handle changes |
| `Supervisor.CallsTouchOneRun` | apps/bot-engine/app/runtime/supervisor.py:170-203 | Stop and kill set the state of the bot's current run and cancel it unless it is over, kill leaves one more kill waiting, and nothing else in the system changes |
| `Supervisor.StartsAreNew` | apps/bot-engine/app/runtime/supervisor.py:150-168 | A start is refused exactly to a STARTING, RUNNING or IDLE bot; else it adds one fresh run, the bot's current one, and changes no other |
| `Router.ExchangeOrderRouter.Submit` | apps/bot-engine/app/runtime/router.py:48-73 | Place, commit, register, publish: the new book, rows, open set and events, and the open set still covers the book |
| `Router.ExchangeOrderRouter.PersistOrder` | apps/bot-engine/app/runtime/router.py:159-212 | Commits the order row, its fill rows and the audit row together |
| `Router.ExchangeOrderRouter.CancelOpen` | apps/bot-engine/app/runtime/router.py:75-115 | Empties the open set, cancels each order, commits and publishes each; leaves nothing resting when the open set covered the book |
| `Router.CancelManyIds` | apps/bot-engine/app/runtime/router.py:90-103 | A sweep removes exactly the given ids from the book |
| `Router.SubmitKeepsCover` | apps/bot-engine/app/runtime/router.py:48-54 | A submission keeps every resting order registered |
| `Router.SweepClearsTheBook` | apps/bot-engine/app/runtime/router.py:84-104 | A sweep of a covering open set leaves nothing resting |
| `Paper.PaperExchangeAdapter.PlaceOrder` | packages/xbt-core/xbt_core/exchanges/paper.py:73-106 | Places as the book function says and keeps ids distinct and fresh |
| `Paper.PaperExchangeAdapter.CancelOrder` | packages/xbt-core/xbt_core/exchanges/paper.py:108-110 | Removes that id from the book, if it rests |
| `Paper.PaperExchangeAdapter.Close` | packages/xbt-core/xbt_core/exchanges/paper.py:112-114 | Forgets every order and mark, never an id |
| `Paper.PaperExchangeAdapter.SetMark` | packages/xbt-core/xbt_core/exchanges/paper.py:68-71 | Moves the mark and runs the matching pass |
| `Paper.PaperExchangeAdapter.MatchResting` | packages/xbt-core/xbt_core/exchanges/paper.py:142-162 | The two loops of the matching pass: fills collected, then their orders popped |
| `Paper.KeptMembers` | packages/xbt-core/xbt_core/exchanges/paper.py:142-162 | What the matching pass keeps is exactly what the mark does not cross |
| `Paper.MatchedExecutes` | packages/xbt-core/xbt_core/exchanges/paper.py:125-162 | What it fills is exactly what the mark crosses, each order in full at its limit fill price |
| `Paper.MatchedOnce` | packages/xbt-core/xbt_core/exchanges/paper.py:142-162 | No order is filled twice by one pass |
| `Paper.WithoutMembers` | packages/xbt-core/xbt_core/exchanges/paper.py:108-110 | Cancelling removes exactly the orders with that id |
| `Paper.LimitFillBreach` | packages/xbt-core/xbt_core/exchanges/paper.py:121-162 | A limit fill breaches its limit by at most the slippage factor exactly when the mark is at the limit or the settings slip at most the whole price, and respects the limit exactly when the slipped mark does |
| `Paper.BookConservation` | packages/xbt-core/xbt_core/exchanges/paper.py:68-162 | Over every sequence of operations accepted limit ids split disjointly into resting, filled, cancelled and closed, each filled at most once and in full, and only orders placed since the last mark can rest crossed |
| `Paper.MarketOrderAlwaysFills` | packages/xbt-core/xbt_core/exchanges/paper.py:73-96 | On a marked symbol every market order fills in full under its own id, whatever is held: overselling is not caught here |
| `Paper.CrossedFillsAtTheMark` | packages/xbt-core/xbt_core/exchanges/paper.py:142-160 | An order is crossed exactly by a mark of its symbol no worse for its side than its limit, and then fills at that mark with the slippage against it |
| `Paper.LimitOrdersRest` | packages/xbt-core/xbt_core/exchanges/paper.py:97-106 | A limit order rests whatever the mark, and fills by no placement |
| `Paper.MarksAreTheLast` | packages/xbt-core/xbt_core/exchanges/paper.py:68-71 | A mark is what its symbol's next orders see; no other symbol's mark moves |
| `Ledger.PnLLedger.Apply` | apps/bot-engine/app/runtime/supervisor.py:97-104 | One fill moves position and net cash out as the ledger function says |
| `Ledger.PnLLedger.ApplyAll` | apps/bot-engine/app/runtime/supervisor.py:333-334 | Fills are applied in order |
| `Ledger.LedgersAgree` | apps/ai-engine/app/backtest/engine.py:65-81 | For any fills the live position is the backtest position and equity is starting cash plus the ledger's profit at any mark |
| `Ledger.AverageCostLedger` | apps/ai-engine/app/backtest/engine.py:68-80 | Cash plus position at average cost is starting cash plus realized less buy fees less the basis written off, for every history |
| `Ledger.AverageCostIdentity` | apps/ai-engine/app/backtest/engine.py:65-81 | The average-cost identity holds exactly when no basis was written off |
| `Ledger.NoOversellNoWriteOff` | apps/ai-engine/app/backtest/engine.py:68-73 | A history that never oversells writes nothing off |
| `Ledger.OversellBreaksTheIdentity` | apps/ai-engine/app/backtest/engine.py:68-73 | An oversold history that does write off |
| `Ledger.PostingCosts` | apps/ai-engine/app/backtest/engine.py:65-81 | At a fixed mark posting fills lowers equity by exactly their cost |
| `Ledger.CountsSellsAndWins` | apps/ai-engine/app/backtest/engine.py:75-79 | The account counts the sells, and as wins exactly those whose proceeds less the fee exceed their average cost at the time |
| `Backtest.RunBacktest` | apps/ai-engine/app/backtest/engine.py:35-97 | The whole result: the replay's curve, final equity and trade count, the drawdown, the win rate as the share of sells that won, and the return as the gain on the starting cash |
| `Backtest.ReplayLoop` | apps/ai-engine/app/backtest/engine.py:61-81 | The nested loops over the running variables compute the replay's account and curve |
| `Backtest.MaxDrawdownPct` | apps/ai-engine/app/backtest/engine.py:100-110 | The one-pass loop computes the drawdown |
| `Backtest.ReplayBooks` | apps/ai-engine/app/backtest/engine.py:61-81 | A run's account is the posting of all its fills, and each curve point is stamped by its bar |
| `Backtest.ReplayPrefix` | apps/ai-engine/app/backtest/engine.py:61-81 | A run on a prefix of the bars is a prefix of the run: no look-ahead |
| `Backtest.MarketFillCost` | packages/xbt-core/xbt_core/exchanges/paper.py:121-140 | What a market fill loses against its mark, as quantity times mark times a charge fixed by the settings |
| `Backtest.NoFreeTradeIff` | packages/xbt-core/xbt_core/exchanges/paper.py:35-39 | No market fill can gain on its own mark exactly when the settings charge every trade |
| `Backtest.OrdinaryConfigCharges` | packages/xbt-core/xbt_core/exchanges/paper.py:35-39 | Slippage of 0 to 10000 basis points with a non-negative fee charges every trade |
| `Backtest.EquityStep` | apps/ai-engine/app/backtest/engine.py:61-81 | Over one bar equity moves by the carried position's price gain less a cost |
| `Backtest.EquityDecomposition` | apps/ai-engine/app/backtest/engine.py:61-81 | Every curve point is starting cash plus the carried positions' price gains less costs that are never negative, for every strategy trading its bar's symbol |
| `Backtest.FlatPriceNeverPays` | apps/ai-engine/app/backtest/engine.py:61-81 | Equity does not rise on a stretch where the price stands still |
| `Backtest.DrawdownIsWorstFromPeak` | apps/ai-engine/app/backtest/engine.py:100-110 | For every curve the result is the largest loss from a running peak, and is attained |
| `Backtest.DrawdownIsPairwiseMax` | apps/ai-engine/app/backtest/engine.py:100-110 | On a curve with no negative equity it is the maximum loss over all ordered pairs from a positive point |
| `Backtest.PairwiseReadingIff` | apps/ai-engine/app/backtest/engine.py:100-110 | On any curve no pair loses more than the drawdown exactly when no negative point follows a positive one, or some deepest loss is from positive points that are all equal |
| `Backtest.DrawdownAtMostHundredIff` | apps/ai-engine/app/backtest/engine.py:100-110 | It is never negative, and at most 100 exactly when equity never goes negative after a positive peak |
| `Backtest.NegativeEquityUnderstatesLoss` | apps/ai-engine/app/backtest/engine.py:100-110 | A curve with a negative point on which the pairwise reading fails |
| `Live.RunLoop` | apps/bot-engine/app/runtime/supervisor.py:308-337 | The bar loop over router, adapter and ledger objects is the live run; once paused nothing rests |
| `Live.RunBar` | apps/bot-engine/app/runtime/supervisor.py:328-337 | One turn of the loop: mark, strategy, submissions, breaker |
| `Live.SubmitAll` | apps/bot-engine/app/runtime/supervisor.py:331-334 | All intents of a bar are placed and their fills credited, in order |
| `Live.StaysPaused` | apps/bot-engine/app/runtime/supervisor.py:335-337 | Once paused no later bar is traded |
| `Live.LiveMatchesBacktest` | apps/bot-engine/app/runtime/supervisor.py:252-255 | Parity with truncation: for every pure strategy, bars and cap the live run makes the backtest's fills bar for bar, its profit is the curve less starting cash, and it pauses exactly at the first bar whose equity is at most starting cash less the cap |
| `EdgeRules.WindowIsLastCloses` | packages/xbt-core/xbt_core/strategies/rule_engine.py:268-277 | The state is exactly the last max_window accepted closes and the values they give |
| `EdgeRules.OnlyItsOwnBars` | packages/xbt-core/xbt_core/strategies/rule_engine.py:268-277 | On every run a bar of another symbol, or without a positive close, changes and emits nothing; any other enters the window |
| `EdgeRules.Judged` | packages/xbt-core/xbt_core/strategies/rule_engine.py:284-300 | Judging the rules in turn gives each its own verdict and leaves the others' memory alone |
| `EdgeRules.FreshRunCatchesUp` | packages/xbt-core/xbt_core/strategies/rule_engine.py:29-34 | A run started on any suffix has the full run's window from its W-th accepted bar and its truths from the next |
| `EdgeRules.MidStreamConvergence` | packages/xbt-core/xbt_core/strategies/rule_engine.py:29-34 | Without cooldowns, from the (W+2)-th accepted bar a fresh run emits exactly the full run's intents, for any indicators and conditions |
| `EdgeRules.AgreementIsPermanent` | packages/xbt-core/xbt_core/strategies/rule_engine.py:284-300 | With cooldowns and on any clock, a warmed-up rule whose last fire both runs remember alike is agreed on for ever |
| `EdgeRules.DisagreementIsACooldown` | packages/xbt-core/xbt_core/strategies/rule_engine.py:284-300 | With cooldowns a warmed-up fresh run and the full run differ on a rule at a bar exactly when the rule would fire there and has cooled in one of them and not in the other |
| `EdgeRules.CooledRunsConverge` | packages/xbt-core/xbt_core/strategies/rule_engine.py:284-300 | On a forward clock they agree on a rule for ever from a warmed-up bar where both remember the same last fire or both have cooled |
| `EdgeRules.CooledRunsEmitAlike` | packages/xbt-core/xbt_core/strategies/rule_engine.py:265-301 | When that holds of every rule they emit the same intents from there on |
| `EdgeRules.OneMindLasts` | packages/xbt-core/xbt_core/strategies/rule_engine.py:284-300 | Two runs with any pasts that see a rule's condition alike, with the same last fire or both cooled, agree on it at every later bar |
| `EdgeRules.FiringTogetherAgrees` | packages/xbt-core/xbt_core/strategies/rule_engine.py:284-300 | Two runs with any pasts in which a rule fires on one bar, and that see its condition alike from then on, agree on it from then on, on any clock |
| `EdgeRules.FiresOnRisingEdges` | packages/xbt-core/xbt_core/strategies/rule_engine.py:35-41 | A rule fires exactly on the accepted bars where its condition rises, it can make an order and no fire of it was less than its cooldown ago |
| `EdgeRules.FiringDiscipline` | packages/xbt-core/xbt_core/strategies/rule_engine.py:35-41 | Between two fires of a rule its condition was false on some bar, and with a cooldown the fires are at least that far apart |
| `EdgeRules.SameEngineRunsAlike` | packages/xbt-core/xbt_core/strategies/rule_engine.py:265-301 | Engines that agree on every input of their parts run alike on every stream |
| `RuleEngine.OnBar` | packages/xbt-core/xbt_core/strategies/rule_engine.py:265-301 | The imperative bar handler is the engine's closed-form step |
| `RuleEngine.JudgeRules` | packages/xbt-core/xbt_core/strategies/rule_engine.py:284-300 | Its loop over the rules updates truths and fire times as the closed form says |
| `RuleEngine.JudgeRule` | packages/xbt-core/xbt_core/strategies/rule_engine.py:285-298 | One turn of that loop |
| `RuleEngine.WidestOf` | packages/xbt-core/xbt_core/strategies/rule_engine.py:153-155 | The trailing window is at least one, covers every indicator and is no wider than needed |
| `RuleEngine.SmaIsTheMean` | packages/xbt-core/xbt_core/strategies/rule_engine.py:331-340 | A moving average exists from its period on: it times the period is the sum of the last closes, and it lies between the least and the greatest of them |
| `RuleEngine.RsiIsTheNetMove` | packages/xbt-core/xbt_core/strategies/rule_engine.py:341-352 | RSI exists from period + 1 closes on: 50, raised or lowered by the share the net move over the last of them is of all their moves; 50 where nothing moved |
| `RuleEngine.WindowSuffices` | packages/xbt-core/xbt_core/strategies/rule_engine.py:268-273 | An indicator has the same value on the bounded window as on the whole history |
| `RuleEngine.TokensMean` | packages/xbt-core/xbt_core/strategies/rule_engine.py:355-358 | A token is a literal before anything else, "price" the last close, an indicator's name its value, and nothing otherwise |
| `RuleEngine.ComparisonsAgree` | packages/xbt-core/xbt_core/strategies/rule_engine.py:371-392 | Of two values exactly one of less, equal and more holds, the other two by negation; a crossing holds exactly when the other side was reached since; a missing value makes every comparison false |
| `RuleEngine.GainsAndLosses` | packages/xbt-core/xbt_core/strategies/rule_engine.py:341-347 | Gains less losses telescope to the window's last close less its first |
| `RuleEngine.RsiReadsTheWindow` | packages/xbt-core/xbt_core/strategies/rule_engine.py:341-351 | RSI is within 0 and 100, above 50 exactly when the window ends higher than it began and below exactly when lower, across both zero-loss branches |
| `RuleEngine.MidStreamParity` | packages/xbt-core/xbt_core/strategies/rule_engine.py:29-34 | The documented convergence, for every parameter set without cooldowns and conditions nested however deep |
| `RuleEngine.MidStreamParityWithCooldowns` | packages/xbt-core/xbt_core/strategies/rule_engine.py:29-41 | With cooldowns, from any warmed-up bar where for every rule the two runs remember the same last fire or have both cooled, they emit the same intents for ever |
| `RuleEngine.OneBarEarlierTheyDiffer` | packages/xbt-core/xbt_core/strategies/rule_engine.py:29-34 | The bound W+2 is tight |
| `RuleEngine.CooldownsBreakConvergence` | packages/xbt-core/xbt_core/strategies/rule_engine.py:29-41 | A stream on which a warmed-up fresh run fires while the full run cools; when exactly this happens is EdgeRules.DisagreementIsACooldown |
| `RuleEngine.CooldownsCanLeapfrog` | packages/xbt-core/xbt_core/strategies/rule_engine.py:29-41 | Two warmed-up runs of one rule with a cooldown can disagree without bound: for every length a stream on which one of them fires at each hop and the other does not, in turn |
| `RuleEngine.OrderIsValid` | packages/xbt-core/xbt_core/strategies/rule_engine.py:309-325 | An order the engine makes is one the intent constructor accepts, in its symbol and a positive size |
| `RuleEngine.OrderCarriesOutTheAction` | packages/xbt-core/xbt_core/strategies/rule_engine.py:309-325 | An order has its action's side and type, its notional at the price it asks for is the action's quote, a limit is off the close by the action's percentage; there is none exactly for a limit a hundred percent or more below the close |
| `RuleEngine.IntentsCarryOutTheRules` | packages/xbt-core/xbt_core/strategies/rule_engine.py:284-300 | On every run each bar emits exactly one order for each rule that fires on it, in rule order, each carrying out its rule's action |
| `RuleEngine.RulesNeverPaidForStandingStill` | packages/xbt-core/xbt_core/strategies/rule_engine.py:265-325 | Whatever the user authored, a rule bot's equity does not rise while the price stands still |
| `Grid.LinesRise` | packages/xbt-core/xbt_core/strategies/grid.py:44-53 | The lines rise strictly and in even steps from the lower to the upper price; the shares of the levels - 1 intervals add up to the budget |
| `Grid.Cuts` | packages/xbt-core/xbt_core/strategies/grid.py:77-90 | Counting the lines below and up to a close cuts the ladder there, and the counts differ by one exactly on a line |
| `Grid.OnBar` | packages/xbt-core/xbt_core/strategies/grid.py:61-103 | The imperative bar handler is the closed-form step, which OrdersAsDrawn and the theorems below describe |
| `Grid.BuyDown` | packages/xbt-core/xbt_core/strategies/grid.py:75-89 | The descending loop buys one lot at each line in [close, previous close), highest first |
| `Grid.SellUp` | packages/xbt-core/xbt_core/strategies/grid.py:90-102 | The ascending loop pops one lot at each line in (previous close, close] while there are lots |
| `Grid.BarTradesAsDrawn` | packages/xbt-core/xbt_core/strategies/grid.py:61-103 | A fall buys one lot at each line in [close, previous close), highest first, each for an equal share of the budget at its line; a rise sells the last lots bought, one at each line in (previous close, close]; nothing else trades, and a bar of another symbol or without a positive close changes nothing |
| `Grid.LotSpendsItsShare` | packages/xbt-core/xbt_core/strategies/grid.py:50-53 | A lot at its line, times the number of intervals, is the whole budget |
| `Grid.RunCommitsShares` | packages/xbt-core/xbt_core/strategies/grid.py:50-79 | On every run the lots held cost one share of the budget each at the lines they were bought at |
| `Grid.LotsCostAtMostTheirShare` | packages/xbt-core/xbt_core/strategies/grid.py:75-79 | What was paid for a lot at its close is at most its share |
| `Grid.BudgetIffLots` | packages/xbt-core/xbt_core/strategies/grid.py:50-79 | A run is within its budget exactly while it holds fewer lots than there are lines: there are shares for one fewer |
| `Grid.CleanRunWithinBudgetIff` | packages/xbt-core/xbt_core/strategies/grid.py:50-79 | A clean run keeps within the budget throughout exactly when its closes never fall from above the upper price to or below the lower |
| `Grid.RunExplains` | packages/xbt-core/xbt_core/strategies/grid.py:65-103 | Every lot held is sized for the line it was bought at, bought at a close no higher than that line |
| `Grid.NeverShort` | packages/xbt-core/xbt_core/strategies/grid.py:14-16 | Bought less sold is exactly the lots held, and never negative |
| `Grid.CleanStepIff` | packages/xbt-core/xbt_core/strategies/grid.py:65-103 | From a tidy stack a bar leaves it tidy exactly when the bar is clean, a check on the two closes and the lines |
| `Grid.TidyIffClean` | packages/xbt-core/xbt_core/strategies/grid.py:65-103 | The stack is one lot per line from the highest ever risen above down to the close, after every bar, exactly when every bar was clean |
| `Grid.OffLineIsTidy` | packages/xbt-core/xbt_core/strategies/grid.py:65-103 | A stream with no close on a line is always clean, hence always tidy |
| `Grid.CleanRunsSellDearer` | packages/xbt-core/xbt_core/strategies/grid.py:3-7 | On a clean run every sale is at a close above the line its lot was bought at, hence dearer |
| `Grid.SellsDearerIffCovered` | packages/xbt-core/xbt_core/strategies/grid.py:65-103 | From any state no next bar whatever sells at or below cost exactly when the state is covered: each lot was bought below the line it would be sold at |
| `Grid.RunsSellDearerIffCovered` | packages/xbt-core/xbt_core/strategies/grid.py:3-7 | No one-bar continuation of any prefix of a run sells at or below cost exactly when every prefix is covered |
| `Grid.CoveredRunsSellDearer` | packages/xbt-core/xbt_core/strategies/grid.py:3-7 | A run whose proper prefixes are covered has sold every lot above its purchase |
| `Grid.CleanIsCoveredIff` | packages/xbt-core/xbt_core/strategies/grid.py:65-103 | After a clean run the state is covered exactly when the last close is on a line or no lot held was bought exactly on its own line |
| `Grid.OffLineIsCovered` | packages/xbt-core/xbt_core/strategies/grid.py:65-103 | With no close on a line every prefix is covered |
| `Grid.OffLinePairsByLine` | packages/xbt-core/xbt_core/strategies/grid.py:65-103 | With no close on a line each sale pops the lot bought at that same line and sells it strictly dearer |
| `Grid.OnLineCloseSellsAtALoss` | packages/xbt-core/xbt_core/strategies/grid.py:3-7 | A run that leaves the covered states and sells at a loss |
| `Grid.GridTradesTheBar` | packages/xbt-core/xbt_core/strategies/grid.py:61-103 | The grid trades only its bar's symbol in positive sizes from every state it reaches |
| `Grid.GridNeverPaidForStandingStill` | packages/xbt-core/xbt_core/strategies/grid.py:61-103 | A grid's equity does not rise while the price stands still |
| `AiSignal.OnBar` | packages/xbt-core/xbt_core/strategies/ai_signal.py:65-113 | The imperative bar handler is the reaction function on the shared state, which the theorems below describe |
| `AiSignal.DecisionsAreTraded` | packages/xbt-core/xbt_core/strategies/ai_signal.py:78-113 | On an accepted bar an unread decision is consumed; to buy emits one market buy whose quantity times the close is the quote amount, to sell with something held one sell of all of it, anything else nothing |
| `AiSignal.EveryBuySpendsTheQuote` | packages/xbt-core/xbt_core/strategies/ai_signal.py:88-99 | On every run every buy spends exactly the quote amount at the close it was made on |
| `AiSignal.NewestDecisionIsTaken` | packages/xbt-core/xbt_core/strategies/ai_signal.py:78-113 | On every run an accepted bar obeys the newest recorded verdict, if it was not obeyed before, there and then; a sell unwinds exactly what was bought and not sold |
| `AiSignal.ConsultsOnTheWindow` | apps/bot-engine/app/runtime/ai_companion.py:88-125 | On every run a tick consults exactly when two closes are in and the day has budget left, on the last lookback closes and on what was bought and not sold |
| `AiSignal.FailedConsultsAreFree` | apps/bot-engine/app/runtime/ai_companion.py:116-129 | A failed consult costs nothing and changes nothing |
| `AiSignal.TheDeadConsultNoMore` | apps/bot-engine/app/runtime/ai_companion.py:126-160 | A companion that was cancelled, or whose event could not be published, never consults, charges or decides again |
| `AiSignal.AiSignalCompanion.Wake` | apps/bot-engine/app/runtime/ai_companion.py:88-120 | From waking to the next suspension: rollover, snapshot, short window, cap, notice |
| `AiSignal.AiSignalCompanion.Decided` | apps/bot-engine/app/runtime/ai_companion.py:127-137 | A successful consult is counted, numbered and left in the slot |
| `AiSignal.ReactFollows` | packages/xbt-core/xbt_core/strategies/ai_signal.py:65-113 | A bar keeps the window the last closes and the trades following decisions |
| `AiSignal.EveryRunFollowsDecisions` | packages/xbt-core/xbt_core/strategies/ai_signal.py:71-113 | For every interleaving acted-on decisions strictly increase and are obeyed, the window is the last lookback closes, held is what was bought since the last sell, and each sell unwinds exactly that |
| `AiSignal.NeverOversells` | packages/xbt-core/xbt_core/strategies/ai_signal.py:14-17 | Held is buys less sells and never negative |
| `AiSignal.DailyCapHolds` | apps/bot-engine/app/runtime/ai_companion.py:72-147 | As long as no day comes back, no day is charged more consults than the cap or noticed twice, whatever failures, short windows and rollovers occur |
| `AiSignal.CapHoldsPerVisit` | apps/bot-engine/app/runtime/ai_companion.py:72-147 | With no assumption on the clock, a day's charges are within its stretches of readings, each counted up to the cap and summed, hence within the cap per visit; its notices are within the stretches longer than the cap, hence one per visit |
| `AiSignal.QuotasAreReached` | apps/bot-engine/app/runtime/ai_companion.py:72-147 | Every sequence of clock readings has a run that spends both bounds in full, on every day at once |
| `AiSignal.CapIsBeatenIff` | apps/bot-engine/app/runtime/ai_companion.py:88-92 | Some run with given clock readings charges a day more than the cap exactly when that day's stretches, each counted up to the cap, add up to more than the cap |
| `AiSignal.NoticedTwiceIff` | apps/bot-engine/app/runtime/ai_companion.py:97-114 | Some run notices a day twice exactly when two of its stretches outlast the cap |
| `AiSignal.ForwardClocksNeverReturn` | apps/bot-engine/app/runtime/ai_companion.py:88-92 | A clock that never runs backwards brings no day back |
| `AiSignal.ReturningDayBeatsTheCap` | apps/bot-engine/app/runtime/ai_companion.py:88-92 | A clock that steps back a day and returns is such a case: with a cap of one the day can be charged twice |
| `Session.DayOf` | packages/xbt-core/xbt_core/market/session.py:118-119 | The local day of an instant is the one whose midnights enclose it, under any daylight-saving schedule |
| `Session.HolidaysApart` | packages/xbt-core/xbt_core/market/session.py:39-64 | Every holiday is a weekday and any two are at least four days apart |
| `Session.HolidaysByRule` | packages/xbt-core/xbt_core/market/session.py:36-64 | The table is exactly the closures of 2026 and 2027 by the exchange's rules: the weekday rules, the Friday before Easter, and fixed dates moved off weekends |
| `Session.FourDaysHoldATradingDay` | packages/xbt-core/xbt_core/market/session.py:122-123 | Any four consecutive days hold a trading day |
| `Session.OpenAfterAnOpening` | packages/xbt-core/xbt_core/market/session.py:99-103 | The market is open exactly in the six and a half hours after the 09:30 of a trading day |
| `Session.OpenByTheClock` | packages/xbt-core/xbt_core/market/session.py:28-103 | The market is open exactly when the New York clock shows 9:30 or later and not yet 16:00 on a weekday that the exchange's rules do not close |
| `Session.NextOpenMs` | packages/xbt-core/xbt_core/market/session.py:105-115 | Always an answer, at most four days on: the first opening strictly after the instant, open at it, no opening between, and closed until then if closed now |
| `Editor.AuthoredToCustomCfg` | apps/web/app/dashboard/page.tsx:792-844 | The loop over rules, pushing complaints, computes rows and warnings |
| `Editor.ReadCondition` | apps/web/app/dashboard/page.tsx:806-828 | The reassignments of combinator and terms compute the reading of one condition |
| `Editor.BuiltWhenMeansItsRow` | apps/web/app/dashboard/page.tsx:766-767 | What the builder writes for a rule with terms parses and holds exactly when its row does |
| `Editor.ComparisonsMean` | packages/xbt-core/xbt_core/strategies/rule_engine.py:371-392 | What each authored comparison word means to the engine, on present and missing values |
| `Editor.ComparisonsAccepted` | packages/xbt-core/xbt_core/strategies/rule_engine.py:215-227 | Exactly seven comparison words are accepted, with both sides given |
| `Editor.ActionsMean` | packages/xbt-core/xbt_core/strategies/rule_engine.py:230-244 | What the words of an authored action mean, and exactly which actions are accepted |
| `Editor.IndicatorsMean` | packages/xbt-core/xbt_core/strategies/rule_engine.py:205-212 | What the words of an authored indicator mean |
| `Editor.BooleansAccepted` | packages/xbt-core/xbt_core/strategies/rule_engine.py:215-224 | and, or and not are accepted exactly when they join accepted conditions, at least one, for not exactly one |
| `Editor.BooleansMean` | packages/xbt-core/xbt_core/strategies/rule_engine.py:371-380 | and holds when every authored term does, or when some does, not when its one term does not |
| `Editor.RulesMean` | packages/xbt-core/xbt_core/strategies/rule_engine.py:230-244 | A rule is accepted exactly when its condition and action are; its cooldown is the authored one, or none |
| `Editor.StrategiesAccepted` | packages/xbt-core/xbt_core/strategies/rule_engine.py:136-175 | A strategy is accepted exactly when it has a symbol and a rule, every part parses, indicator names differ and none is price, and every token of a condition is one of them, the price or a number; it keeps the authored parts in order |
| `Editor.FlatteningOneKind` | apps/web/app/dashboard/page.tsx:800-804 | Flattening a nest of one combinator to its leaves keeps its truth on all values |
| `Editor.LeavesAreKnown` | packages/xbt-core/xbt_core/strategies/rule_engine.py:213-226 | A condition the engine accepts has leaves (the placeholder is never needed), and its tokens are known exactly when those of its leaves are |
| `Editor.RebuiltIndicatorComputesTheSame` | apps/web/app/dashboard/page.tsx:758-763 | An indicator taken through the editor has the same name, window and values |
| `Editor.RebuiltActionOrdersTheSame` | apps/web/app/dashboard/page.tsx:768-770 | An action taken through the editor makes the same order of every bar |
| `Editor.EditedStrategyIsAccepted` | apps/web/app/dashboard/page.tsx:787-844 | Whatever it complains of, what the editor sends back is accepted by the engine with the same indicators, cooldowns and orders |
| `Editor.SilentRules` | apps/web/app/dashboard/page.tsx:792-794 | The warnings are empty exactly when no rule draws one |
| `Editor.SilentEditRunsAlike` | apps/web/app/dashboard/page.tsx:787-844 | If taking a strategy the engine accepts into the editor draws no warning, what it sends back emits the same intents on every stream of bars |
| `Editor.OneKindEditRunsAlike` | apps/web/app/dashboard/page.tsx:787-844 | The same for conditions it does warn of, when each is a nest of a single combinator |
| `Editor.NegationIsLost` | apps/web/app/dashboard/page.tsx:819-822 | A negated comparison comes back as the comparison: true exactly when the authored condition is false |
| `Editor.BuildingIsStable` | apps/web/app/dashboard/page.tsx:757-772 | Sending rows, reading them back and sending again gives the same strategy, and no warning, exactly when every rule has a term |

## Left out

- Decimal context rounding: amounts are exact reals, so results that hinge on the 28th digit are not covered.
- The market-price callback of the paper adapter: marks come from its own table, as in every caller.
- `deliver_fills` and partial fills: nothing calls the former and the code defers the latter.
- Live venues beyond the paper book: an operation cut by a cancellation or a failure may or may not have taken
  effect, but what a real venue answers is not modelled.
- Database and Redis: commits and publishes are appends to logs, each all or nothing.
- Event payloads, reasons, loggers, currencies, fill timestamps, and the open, high, low and volume of bars.
- Decimal literal syntax: how a token reads as a number is a parameter; the editor needs only that "0" reads as zero.
- Number to text and back in the editor's rows (`Number(String(n))`): rows hold the number.
- The time-zone database: any schedule of daylight saving that changes between midnight and 09:30 is covered.
- JSON and pydantic validation before the rule engine's own parser.
- Update in place of the run under interruption: the interruptible run is a state machine over values; its
  uninterrupted loop is also written imperatively (`Live.RunLoop`, `Router.ExchangeOrderRouter`).
- The handle object is a value inside the supervisor's run list; aliasing of handles is not modelled.
- The companion inside the supervisor is a teardown to wait for; its own behaviour is in `AiSignal`.
- DCA, moving-average, momentum and operator-authored strategies, the session guard and the factory: they would add
  only easy members. The run loop takes any strategy.
- The crypto session, which is always open: a bot without a session covers it.
- API routes, the gateway, WebSocket registry, clients of exchanges and models, and all other web code.
- Live.LiveMatchesBacktest: without a session, failures or cancellation, as the backtest has none of them.
