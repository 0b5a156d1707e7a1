# StockEnv — a verified model of the trading environment

This project models the state-transition engine of the reinforcement-learning
stock-trading environment `StockEnv` (`old_results/original/train.py`). An
environment holds one historical price series per instrument. It keeps a
simulated clock that moves in half-day ticks: the even tick of a day is its
opening session and the odd tick its closing session. Its state is the vector
`[cash, holdings..., prices...]`. `reset` starts an episode and `step` applies
one action, a signed share quantity per instrument. `step` trades at the
current prices, moves the clock to the next tick whose date is a trading day,
and reports the new state vector, the reward and whether the episode is over.

Modules, one file each:

- `Wrappers` (`wrappers.dfy`): `Option`, `Result` and `Outcome`.
- `Errors` (`errors.dfy`): the four ways the engine fails. These are an
  inverted date range, an empty instrument list, a missing price, and a
  calendar search that gives up.
- `Calendar` (`calendar.dfy`): ticks, dates and sessions, and the episode
  bound. Also the search of `increment_date` for the next listed date.
- `Prices` (`prices.dfy`): price tables as maps from day ordinal to the
  day's opening and closing price, and the price lookup at a tick.
- `Portfolio` (`portfolio.dfy`):
  - the per-instrument trading rule of `get_new_holdings`;
  - portfolio value;
  - the state record and its flat vector;
  - lemmas about trades and value.
- `Episode` (`episode.dfy`): what `reset` and `step` compute, written as
  functions of the configuration, the clock and the state (`ResetFrom`,
  `StepFrom`). The lemmas about episodes are stated on these functions.
- `Environment` (`environment.dfy`): the class `StockEnv`. Its configuration
  is constant and its clock (`epochs`), state and reference value
  (`startingAmount`) are updated in place. Each method is proved against the
  function that specifies it:
  - the pricing loop against `PricesAt`;
  - the trading loop against `ApplyTrades`;
  - the calendar search against `Advance`;
  - `Reset` against `ResetFrom` and `Step` against `StepFrom`.

Dates are day ordinals. Prices and cash are exact reals and share counts are
integers. The failures of the date-range check, the calendar search and the
price lookup, and the empty instrument list, are `Failure` values here; the
other exceptions the Python code can raise are listed under "Left out". A
failed method leaves the object exactly where the Python code leaves it when
it raises. For example, a `step` whose second price lookup fails has already
moved the clock.

## Model

| member | source | states |
|---|---|---|
| `Calendar.DateAndTime` | old_results/original/train.py:189-198 | The date of a tick is the start date plus the floor of half the tick. The session is the opening one exactly when the tick is even. |
| `Calendar.ResetTickIsDayBeforeStart` | old_results/original/train.py:245 | Tick -1, where a deterministic reset starts, is the closing session of the day before the start date. |
| `Calendar.MaxEpochs` | old_results/original/train.py:227-230 | The range is accepted exactly when the start is not after the end, and otherwise fails with the date-range error. The bound is the tick of the end date's opening session. |
| `Calendar.DoneIffEndDateReached` | old_results/original/train.py:150 | The tick has reached the bound exactly when the simulated date has reached the end date. |
| `Calendar.SkipFrom` | old_results/original/train.py:136-143 | The search from an increment returns the least listed increment below 20, or None when every remaining increment is unlisted. |
| `Calendar.FirstValidIncrement` | old_results/original/train.py:131-143 | The increment chosen is the least one in 1..19 whose date is listed. None means none of the nineteen is listed. |
| `Calendar.Advance` | old_results/original/train.py:127-144 | A successful advance moves fewer than 20 ticks forward to a listed date and skips no listed tick. A failure means ticks 1..19 ahead are all unlisted, and the error names the date of increment 20. |
| `Calendar.WeekendSkip` | old_results/original/train.py:136-144 | From a Friday's closing session, with the weekend missing and Monday listed, one advance lands on Monday's opening session. |
| `Calendar.GapExhaustsSearch` | old_results/original/train.py:140-143 | A gap of unlisted dates covering all nineteen increments makes the search fail. |
| `Prices.PricesAt` | old_results/original/train.py:178-187 | The lookup succeeds exactly when every instrument has a row for the tick's date. A failure names that date. A success gives one price per instrument, in declaration order: that instrument's quote for the date, in the tick's session. |
| `Prices.AdvanceFindsPrices` | old_results/original/train.py:182-186 | If every instrument lists at least the first instrument's dates, then after a successful advance every instrument has a price. |
| `Portfolio.CostIsProduct` | old_results/original/train.py:122 | The cost of a trade is the share count times the price. |
| `Portfolio.ApplyTrades` | old_results/original/train.py:116-125 | There is one new holding per instrument. |
| `Portfolio.TradesPrefix` | old_results/original/train.py:119 | Instruments are handled in declaration order. Later instruments never change the outcome for earlier ones. |
| `Portfolio.TradeDecision` | old_results/original/train.py:119-124 | A trade is applied exactly when the running cash covers it and the holding stays non-negative. An applied trade sets the holding to holding + a and debits a × price; a rejected trade changes neither the holding nor the cash. |
| `Portfolio.TradesKeepHoldingsNonNegative` | old_results/original/train.py:120-124 | Non-negative holdings stay non-negative. |
| `Portfolio.TradesNeverOverdraw` | old_results/original/train.py:120-122 | The cash after an action is either unchanged or non-negative. |
| `Portfolio.TradesKeepSolvency` | old_results/original/train.py:120-124 | Non-negative cash and holdings stay non-negative. |
| `Portfolio.TradesConserveValue` | old_results/original/train.py:119-125 | At the prices of the trades, cash plus the market value of the holdings is the same before and after the action. |
| `Portfolio.ZeroActionChangesNothing` | old_results/original/train.py:119-124 | An all-zero action leaves holdings and cash unchanged. |
| `Portfolio.ScenarioBuyFive` | old_results/original/train.py:119-125 | Buying 5 shares at 10 out of 1000 cash gives holdings [5, 0] and 950 cash. |
| `Portfolio.ScenarioUnaffordable` | old_results/original/train.py:120-124 | A purchase the cash cannot cover changes nothing. |
| `Portfolio.ScenarioEarlierInstrumentFirst` | old_results/original/train.py:119-122 | When two purchases compete for the same cash, the instrument declared first gets it. |
| `Portfolio.Zeros` | old_results/original/train.py:166 | The deterministic starting shares are one zero per instrument. |
| `Portfolio.State.Vector` | old_results/original/train.py:98-100 | The state vector has 1 + 2n entries. |
| `Portfolio.VectorLayout` | old_results/original/train.py:204-206 | Cash sits at index 0, holding i at 1 + i and price i at 1 + n + i. These are the slices `get_holdings` and `calculate_portfolio_value` read. |
| `Portfolio.State.PortfolioValue` | old_results/original/train.py:200-207 | A state holding no shares is worth exactly its cash, at any prices. |
| `Portfolio.RewardIsRevaluation` | old_results/original/train.py:73-79 | Measured against the value before the action, the reward is the market value of the new holdings at the new prices minus the same at the old prices. |
| `Episode.StepFrom` | old_results/original/train.py:81-104 | The state after a step, successful or not, has one holding and one price per instrument. |
| `Episode.StepLandsOnListedDate` | old_results/original/train.py:95-104 | After a successful step the new tick is 1..19 ticks later, on a date the first instrument lists. The state carries that tick's prices and is the returned vector. The done flag holds exactly when the date has reached the end date. |
| `Episode.StepFailureKeepsState` | old_results/original/train.py:91-96 | A failed step changes no cash, holding or price. The clock has moved only when the missing price is at the new tick. |
| `Episode.StepKeepsSolvency` | old_results/original/train.py:94 | A step never makes cash or a holding negative. |
| `Episode.StepConservesValue` | old_results/original/train.py:91-94 | When the state's prices are the current tick's, the trades of a step keep the portfolio's value at those prices. |
| `Episode.FirstStepRewardIsRevaluation` | old_results/original/train.py:102 | When the reference value is the state's own value, as right after a reset, the reward is the revaluation of the new holdings from the old prices to the new ones. |
| `Episode.ScenarioFlatPrices` | old_results/original/train.py:91-104 | With prices flat at 10 and 20 and 1000 cash, buying 5 of the first leaves holdings [5, 0], 950 cash and a reward of 0. |
| `Episode.ResetFrom` | old_results/original/train.py:169-174 | A successful reset produces a state with one holding and one price per instrument. |
| `Episode.ResetLandsOnListedDate` | old_results/original/train.py:169-176 | A successful reset lands 1..19 ticks after the starting tick, on a listed date, with the drawn cash and shares and that tick's prices. A calendar-search failure leaves the clock on the starting tick. |
| `Episode.DeterministicResetIsCash` | old_results/original/train.py:164-175 | A deterministic reset lands on the first listed tick from the start date's opening session on, and its reference value is exactly the upper cash bound. |
| `Episode.DoneFlag` | old_results/original/train.py:293 | The replay buffer's terminal flag is 1 exactly when the episode is done and fewer steps than the bound have run, and 0 otherwise. |
| `Environment.StockEnv.constructor` | old_results/original/train.py:50-66 | Stores the configuration and sets the bound to twice the number of days in the range. The reference value starts at the upper cash bound. The clock at -1 and the empty state are placeholders that `Environment.New`'s first reset replaces; the Python object never holds them. |
| `Environment.StockEnv.CalculatePortfolioValue` | old_results/original/train.py:200-207 | The value is read off the state vector: entry 0, plus the holdings valued at the prices stored from entry 1 + n on. |
| `Environment.StockEnv.CalculateReward` | old_results/original/train.py:73-79 | The reward is the value of the portfolio formed by the given cash, holdings and prices, less the reference value. |
| `Environment.StockEnv.GetDateAndTime` | old_results/original/train.py:189-198 | The current tick lies in the returned date's two ticks past the start. The session is the opening one exactly when the tick is the first of them. |
| `Environment.StockEnv.GetHoldings` | old_results/original/train.py:106-110 | One holding per instrument. |
| `Environment.StockEnv.IsDone` | old_results/original/train.py:146-150 | Done exactly when the simulated date has reached the end date. |
| `Environment.StockEnv.GetStockPrices` | old_results/original/train.py:178-187 | The loop returns `PricesAt` at the current tick. It fails, naming the date, when some instrument has no row for it. |
| `Environment.StockEnv.GetNewHoldings` | old_results/original/train.py:112-125 | The loop returns exactly `ApplyTrades` of the action on the current holdings and cash. |
| `Environment.StockEnv.IncrementDate` | old_results/original/train.py:127-144 | The clock moves to `Advance`'s tick, or is left alone with `Advance`'s error. |
| `Environment.StockEnv.Reset` | old_results/original/train.py:152-176 | Clock, state, reference value and result are those of `ResetFrom`. On success the state is synchronised with the clock and the reference value is the state's value. |
| `Environment.StockEnv.Step` | old_results/original/train.py:81-104 | Clock, state and result are those of `StepFrom`, and the reference value is unchanged. On success the state is synchronised with the new clock. |
| `Environment.New` | old_results/original/train.py:50-67 | An inverted date range is refused first. Then an empty instrument list is refused. Otherwise the result is the first reset's: its error when that reset fails. When it succeeds, a fresh environment whose clock and state are `ResetFrom`'s, synchronised, with the given configuration and a reference value equal to its state's value. |
| `Environment.ResetTwice` | old_results/original/train.py:164-169 | Without random starts, two resets give the same state vector and the same tick. |

## Behaviour of the code worth knowing

- The calendar search tests increments 1 to 19 only. At increment 20 it
  raises before testing, and the message names the date of increment 20
  (train.py:140-143; `Calendar.Advance`).
- In `step`, a missing price at the new tick is raised after
  `increment_date` has already moved the clock, while cash, holdings and
  prices are untouched (train.py:95-96; `Episode.StepFailureKeepsState`).
- The calendar search consults only the first instrument's dates
  (train.py:134). `get_stock_prices` reads every instrument, so a date missing
  from any other instrument fails the lookup (`Prices.AdvanceFindsPrices`).
- With deterministic starts and an empty instrument list, the first reset
  fails when the calendar search reads the first instrument (train.py:134);
  `Environment.New` reports this as `NoInstruments`. With random starts the
  reset raises earlier, at line 241 (see "Left out").

## Left out

- Loading the CSV price files (pandas), and the AssertionError for an
  unknown ticker: the price tables are given to the constructor.
- `initialize_date`'s early `return False` for a date field that is not a
  digit string, or a zero field that is not the last (train.py:217-222). A
  zero last field makes `datetime.date` raise ValueError at line 225. After
  the early return, `max_epochs`, `start_date` and `end_date` are unset (lines
  230-232 are skipped), and line 63 discards the returned value, so the first
  reset fails with AttributeError on `self.start_date` (line 169). Dates are
  ordinals here, so no such input exists in the model.
- `random.randint(lower, upper)` raises ValueError when lower > upper
  (train.py:158). `Environment.DrawFits` cannot hold then, so a random-start
  `Reset` or `New` with an empty cash range cannot be called.
- Environment.StockEnv.Reset: with random starts, the Python code reads the
  start and end dates as year-month-day at train.py:239-242, while the rest of
  the class needs month-day-year strings. The four-digit year then becomes the
  day of the month and `datetime.date` raises ValueError, so every
  random-start reset fails for any real year; `run` defaults to random starts
  (train.py:252). `Reset` and `Environment.DrawFits` instead take the drawn
  tick as given, and the reset succeeds whenever the calendar search and the
  price lookup do.
- Date strings and their parsing:
  - dates are day ordinals;
  - `initialize_date`'s digit and positivity checks are not modelled, only
    its range check;
  - the inconsistent field orders are not modelled: month-day-year in
    `increment_date`, `get_date_and_time` and `initialize_date`,
    year-month-day in `initialize_starting_epoch`, and YYYY-DD-MM in the
    constructor's docstring.
- The random draws of a random reset are the parameter `Draw`, restricted to
  the ranges `random.randint` draws from.
- `Environment.DrawFits`: does not bound the random starting tick above.
  That bound (a fifth of the range) is computed from the dates read
  year-month-day, and depends on date parsing.
- The gym action and observation spaces: `Step` requires one action per
  instrument. Python's `zip` truncation of a shorter action is not modelled.
- `run`, `test`, TD3, the replay buffer, the exploration noise and progress
  bars; the training driver is represented only by its terminal flag
  (`Episode.DoneFlag`).
- `append_portfolio_value` and the CSV and plot output.
- Floating point: prices, cash and rewards are exact reals, so rounding
  in `remaining_money` and in the dot product is not modelled.
- Holdings are integers. The Python code keeps them in a float vector, and
  `test` passes float actions that are never truncated.
- `reset` reads the prices twice, at lines 171 and 173. Both reads are at
  the same tick and give the same prices, so the model reads them once.
