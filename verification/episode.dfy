/**
 * The episode logic of the environment as functions of its configuration
 * and current clock and state: what `reset` and `step` compute, including
 * the clock position they leave behind when they fail.
 */
module Episode {
  import opened Wrappers
  import opened Errors
  import opened Calendar
  import opened Prices
  import opened Portfolio

  /** What `step` returns: the new state vector `[cash, holdings..., prices...]`, the reward and the done flag. */
  datatype Transition = Transition(state: seq<real>, reward: real, done: bool)

  /** The clock and state after `step`, and what it returned or raised. */
  datatype StepEffect = StepEffect(tick: int, state: State, result: Result<Transition, Error>)

  /** The clock after `reset`, and the state it assembled or the error it raised. */
  datatype ResetEffect = ResetEffect(tick: int, result: Result<State, Error>)

  /** Price tables for at least one instrument and a state with one holding and one price for each. */
  predicate Fits(tables: seq<PriceTable>, s: State)
  {
    |tables| >= 1 && s.WellFormed() && |s.holdings| == |tables|
  }

  /**
   * One step from clock `tick` and state `s`: read the prices at `tick`,
   * trade at them, advance the clock, read the prices at the new tick, and
   * value the new state against the reference `startingAmount`. A failing
   * lookup or calendar search leaves the state as it was, and the clock too
   * unless it was the second lookup that failed.
   */
  function StepFrom(tables: seq<PriceTable>, start: int, maxEpochs: int, startingAmount: real,
                    tick: int, s: State, action: seq<int>): (e: StepEffect)
    requires Fits(tables, s) && |action| == |tables|
    ensures Fits(tables, e.state)
  {
    match PricesAt(tables, start, tick)
    case Failure(err) => StepEffect(tick, s, Failure(err))
    case Success(pricesOld) =>
      var trades := ApplyTrades(action, s.holdings, pricesOld, s.cash);
      match Advance(tables[0].Keys, start, tick)
      case Failure(err) => StepEffect(tick, s, Failure(err))
      case Success(next) =>
        match PricesAt(tables, start, next)
        case Failure(err) => StepEffect(next, s, Failure(err))
        case Success(pricesNew) =>
          var s' := State(trades.cash, trades.holdings, pricesNew);
          StepEffect(next, s', Success(Transition(s'.Vector(), s'.PortfolioValue() - startingAmount, IsDoneAt(next, maxEpochs))))
  }

  /**
   * A successful step lands on a later tick, fewer than twenty ticks on,
   * whose date the first instrument lists; the new state carries the prices
   * of that tick and is what the step returns; and the done flag says
   * whether the date has reached the end date.
   */
  lemma StepLandsOnListedDate(tables: seq<PriceTable>, start: int, end: int, maxEpochs: int, startingAmount: real,
                              tick: int, s: State, action: seq<int>)
    requires Fits(tables, s) && |action| == |tables|
    requires MaxEpochs(start, end) == Success(maxEpochs)
    ensures var e := StepFrom(tables, start, maxEpochs, startingAmount, tick, s, action);
      e.result.Success? ==>
        && tick < e.tick < tick + SkipLimit
        && DayOf(start, e.tick) in tables[0]
        && PricesAt(tables, start, e.tick) == Success(e.state.prices)
        && e.result.value.state == e.state.Vector()
        && (e.result.value.done <==> DayOf(start, e.tick) >= end)
  {
    var e := StepFrom(tables, start, maxEpochs, startingAmount, tick, s, action);
    if e.result.Success? {
      DoneIffEndDateReached(start, end, e.tick);
    }
  }

  /**
   * A failed step changes no holding, price or cash; the clock has moved
   * only when the failure is a missing price at the new tick.
   */
  lemma StepFailureKeepsState(tables: seq<PriceTable>, start: int, maxEpochs: int, startingAmount: real,
                              tick: int, s: State, action: seq<int>)
    requires Fits(tables, s) && |action| == |tables|
    ensures var e := StepFrom(tables, start, maxEpochs, startingAmount, tick, s, action);
      e.result.Failure? ==>
        && e.state == s
        && (e.tick == tick || e.result.error == PriceUnavailable(DayOf(start, e.tick)))
  {
  }

  /** Non-negative cash and holdings stay non-negative across a step. */
  lemma StepKeepsSolvency(tables: seq<PriceTable>, start: int, maxEpochs: int, startingAmount: real,
                          tick: int, s: State, action: seq<int>)
    requires Fits(tables, s) && |action| == |tables|
    requires s.Solvent()
    ensures StepFrom(tables, start, maxEpochs, startingAmount, tick, s, action).state.Solvent()
  {
    var pricesOld := PricesAt(tables, start, tick);
    if pricesOld.Success? {
      TradesKeepSolvency(action, s.holdings, pricesOld.value, s.cash);
    }
  }

  /**
   * When the state's prices are those of the current tick, a step keeps the
   * portfolio's value at those pre-trade prices: the trades only exchange
   * cash for shares at the going price.
   */
  lemma StepConservesValue(tables: seq<PriceTable>, start: int, maxEpochs: int, startingAmount: real,
                           tick: int, s: State, action: seq<int>)
    requires Fits(tables, s) && |action| == |tables|
    requires PricesAt(tables, start, tick) == Success(s.prices)
    ensures var e := StepFrom(tables, start, maxEpochs, startingAmount, tick, s, action);
      e.result.Success? ==> e.state.cash + Dot(e.state.holdings, s.prices) == s.PortfolioValue()
  {
    TradesConserveValue(action, s.holdings, s.prices, s.cash);
  }

  /**
   * Right after a reset the reference value is the state's own value, so
   * the first step's reward is exactly the revaluation of the new holdings
   * from the old prices to the new ones.
   */
  lemma FirstStepRewardIsRevaluation(tables: seq<PriceTable>, start: int, maxEpochs: int,
                                     tick: int, s: State, action: seq<int>)
    requires Fits(tables, s) && |action| == |tables|
    requires PricesAt(tables, start, tick) == Success(s.prices)
    ensures var e := StepFrom(tables, start, maxEpochs, s.PortfolioValue(), tick, s, action);
      e.result.Success? ==> e.result.value.reward == Dot(e.state.holdings, Diff(e.state.prices, s.prices))
  {
    var e := StepFrom(tables, start, maxEpochs, s.PortfolioValue(), tick, s, action);
    if e.result.Success? {
      RewardIsRevaluation(action, s.holdings, s.prices, e.state.prices, s.cash);
    }
  }

  /**
   * Two instruments whose prices are flat at 10 and 20, 1000 in cash and no
   * shares: buying five of the first leaves 950 in cash, holdings [5, 0]
   * and a reward of 0.
   */
  lemma ScenarioFlatPrices(tables: seq<PriceTable>, start: int, maxEpochs: int, tick: int)
    requires |tables| == 2
    requires forall d :: d in tables[0] ==> tables[0][d] == Quote(10.0, 10.0)
    requires forall d :: d in tables[1] ==> tables[1][d] == Quote(20.0, 20.0)
    requires PricesAt(tables, start, tick).Success?
    ensures var s := State(1000.0, [0, 0], [10.0, 20.0]);
      var e := StepFrom(tables, start, maxEpochs, 1000.0, tick, s, [5, 0]);
      e.result.Success? ==> e.state.holdings == [5, 0] && e.state.cash == 950.0 && e.result.value.reward == 0.0
  {
    var s := State(1000.0, [0, 0], [10.0, 20.0]);
    var e := StepFrom(tables, start, maxEpochs, 1000.0, tick, s, [5, 0]);
    assert PricesAt(tables, start, tick).value == [10.0, 20.0];
    ScenarioBuyFive();
    if e.result.Success? {
      assert e.state.prices == [10.0, 20.0];
      assert Dot([5, 0], [10.0, 20.0]) == 50.0;
    }
  }

  /**
   * A reset from starting tick `tick0` with the given cash and shares:
   * advance the clock once, then read the prices there.
   */
  function ResetFrom(tables: seq<PriceTable>, start: int, tick0: int, money: real, shares: seq<int>): (e: ResetEffect)
    requires |tables| >= 1 && |shares| == |tables|
    ensures e.result.Success? ==> Fits(tables, e.result.value)
  {
    match Advance(tables[0].Keys, start, tick0)
    case Failure(err) => ResetEffect(tick0, Failure(err))
    case Success(next) =>
      match PricesAt(tables, start, next)
      case Failure(err) => ResetEffect(next, Failure(err))
      case Success(prices) => ResetEffect(next, Success(State(money, shares, prices)))
  }

  /**
   * A successful reset lands after the starting tick on a date the first
   * instrument lists, with the prices of that tick in the state; a failed
   * calendar search leaves the clock on the starting tick.
   */
  lemma ResetLandsOnListedDate(tables: seq<PriceTable>, start: int, tick0: int, money: real, shares: seq<int>)
    requires |tables| >= 1 && |shares| == |tables|
    ensures var e := ResetFrom(tables, start, tick0, money, shares);
      && (e.result.Success? ==>
            && tick0 < e.tick < tick0 + SkipLimit
            && DayOf(start, e.tick) in tables[0]
            && PricesAt(tables, start, e.tick) == Success(e.result.value.prices)
            && e.result.value.cash == money && e.result.value.holdings == shares)
      && (e.result == Failure(CalendarSearchExhausted(DayOf(start, tick0 + SkipLimit))) ==> e.tick == tick0)
  {
  }

  /**
   * The deterministic reset starts from tick -1 with the upper cash bound
   * and no shares: it lands on the first listed tick at or after the start
   * date's opening session, and the portfolio is worth exactly that cash.
   */
  lemma DeterministicResetIsCash(tables: seq<PriceTable>, start: int, upper: int)
    requires |tables| >= 1
    ensures var e := ResetFrom(tables, start, -1, upper as real, Zeros(|tables|));
      e.result.Success? ==>
        && e.tick >= 0
        && (forall t :: 0 <= t < e.tick ==> DayOf(start, t) !in tables[0])
        && e.result.value.PortfolioValue() == upper as real
  {
  }

  /**
   * The terminal flag handed to the replay buffer by the training driver:
   * a true termination counts only while the episode has run fewer steps
   * than the environment's tick bound.
   */
  function DoneFlag(done: bool, episodeTimesteps: int, maxEpochs: int): (f: real)
    ensures f == 1.0 <==> done && episodeTimesteps < maxEpochs
    ensures f == 0.0 <==> !(done && episodeTimesteps < maxEpochs)
  {
    if episodeTimesteps < maxEpochs then (if done then 1.0 else 0.0) else 0.0
  }
}
