/**
 * The trading environment `StockEnv`: configuration fixed at construction
 * (price tables in instrument declaration order, start and end dates as day
 * ordinals, the starting-cash range, the random-start flag) and the mutable
 * clock, state `[cash, holdings..., prices...]` and reference portfolio
 * value that `reset` and `step` update.
 *
 * The calendar search consults only the first instrument's dates, while the
 * price lookup reads every instrument, so an instrument missing a date the
 * first one lists makes `step` or `reset` fail with PriceUnavailable.
 *
 * Date strings are not modelled. In the Python code, `increment_date`,
 * `get_date_and_time` and `initialize_date` read them as month-day-year,
 * `initialize_starting_epoch` reads them as year-month-day, and the
 * constructor's docstring announces year-day-month; and the constructor
 * discards the value `initialize_date` returns.
 */
module Environment {
  import opened Wrappers
  import opened Errors
  import opened Calendar
  import opened Prices
  import opened Portfolio
  import opened Episode

  /** Largest number of shares of one instrument a random reset hands out. */
  const MaxStartingShares: int := 10

  /**
   * The values a random reset draws: the starting cash, the starting shares
   * of each instrument and the tick the clock is set to before it advances.
   */
  datatype Draw = Draw(money: int, shares: seq<int>, tick: int)

  /**
   * The ranges `random.randint` draws from. The upper bound of the starting
   * tick depends on date-string parsing and is not modelled.
   */
  predicate DrawFits(draw: Draw, n: nat, lower: int, upper: int)
  {
    && lower <= draw.money <= upper
    && |draw.shares| == n
    && (forall i :: 0 <= i < n ==> 0 <= draw.shares[i] <= MaxStartingShares)
    && draw.tick >= -1
  }

  /** The cash a reset starts with: the drawn amount under random starts, the upper bound otherwise. */
  function StartingMoney(randomStart: bool, upper: int, draw: Draw): real
  {
    if randomStart then draw.money as real else upper as real
  }

  /** The shares a reset starts with: the drawn ones under random starts, none otherwise. */
  function StartingShares(randomStart: bool, n: nat, draw: Draw): seq<int>
  {
    if randomStart then draw.shares else Zeros(n)
  }

  /** The tick the clock is set to before a reset advances it. */
  function StartingTick(randomStart: bool, draw: Draw): int
  {
    if randomStart then draw.tick else -1
  }

  class StockEnv {
    const tables: seq<PriceTable>
    const start: int
    const end: int
    const maxEpochs: int
    const lower: int
    const upper: int
    const randomStart: bool

    var epochs: int
    var state: State
    var startingAmount: real

    /** The configuration invariant, established by the constructor. */
    ghost predicate Valid()
      reads this
    {
      |tables| >= 1 && MaxEpochs(start, end) == Success(maxEpochs)
    }

    /** A state with one holding and one price per instrument has been assembled by a reset. */
    ghost predicate Ready()
      reads this
    {
      Valid() && state.WellFormed() && |state.holdings| == |tables|
    }

    /** The prices in the state are the ones for the current tick. */
    ghost predicate Synced()
      reads this
    {
      && Ready()
      && PricesAt(tables, start, epochs).Success?
      && state.prices == PricesAt(tables, start, epochs).value
    }

    /**
     * Stores the configuration, the episode bound and the initial reference
     * value (`__init__` up to the first reset). The clock at -1 and the empty
     * state are placeholders: `New` runs the first reset straight away.
     */
    constructor (tables: seq<PriceTable>, start: int, end: int, lower: int, upper: int, randomStart: bool)
      requires |tables| >= 1 && MaxEpochs(start, end).Success?
      ensures Valid() && this.tables == tables && this.start == start && this.end == end
      ensures this.lower == lower && this.upper == upper && this.randomStart == randomStart
      ensures maxEpochs == 2 * (end - start) && startingAmount == upper as real
      ensures epochs == -1 && state == State(0.0, [], [])
    {
      this.tables := tables;
      this.start := start;
      this.end := end;
      this.maxEpochs := MaxEpochs(start, end).value;
      this.lower := lower;
      this.upper := upper;
      this.randomStart := randomStart;
      this.epochs := -1;
      this.state := State(0.0, [], []);
      this.startingAmount := upper as real;
    }

    function GetHoldings(): (h: seq<int>)
      reads this
      requires Ready()
      ensures |h| == |tables|
    {
      state.holdings
    }

    /**
     * The portfolio's value read off the state vector: its first entry, plus
     * the holdings valued at the prices stored after them.
     */
    function CalculatePortfolioValue(): (v: real)
      reads this
      requires Ready()
      ensures var vec, n := state.Vector(), |state.holdings|;
        v == vec[0] + Dot(state.holdings, vec[1 + n..])
    {
      assert state.Vector()[1 + |state.holdings|..] == state.prices;
      state.PortfolioValue()
    }

    /** The reward: the value of the portfolio given by the arguments, less the reference value. */
    function CalculateReward(holdings: seq<int>, cash: real, prices: seq<real>): (r: real)
      reads this
      requires |holdings| == |prices|
      ensures r == State(cash, holdings, prices).PortfolioValue() - startingAmount
    {
      cash + Dot(holdings, prices) - startingAmount
    }

    /** The date and session of the current tick. */
    function GetDateAndTime(): (m: Moment)
      reads this
      ensures 2 * (m.day - start) <= epochs < 2 * (m.day - start) + 2
      ensures m.session == Open <==> epochs == 2 * (m.day - start)
    {
      DateAndTime(start, epochs)
    }

    /** The episode is over exactly when the simulated date has reached the end date. */
    predicate IsDone(): (d: bool)
      reads this
      requires Valid()
      ensures d <==> DayOf(start, epochs) >= end
    {
      DoneIffEndDateReached(start, end, epochs);
      IsDoneAt(epochs, maxEpochs)
    }

    /** The prices of every instrument at the current tick (`get_stock_prices`). */
    method GetStockPrices() returns (r: Result<seq<real>, Error>)
      requires Valid()
      ensures r == PricesAt(tables, start, epochs)
    {
      var now := GetDateAndTime();
      assert now.day == DayOf(start, epochs) && now.session == SessionOf(epochs);
      var result: seq<real> := [];
      for i := 0 to |tables|
        invariant |result| == i
        invariant forall j :: 0 <= j < i ==> now.day in tables[j]
        invariant forall j :: 0 <= j < i ==> result[j] == Quoted(tables[j][now.day], now.session)
      {
        if now.day !in tables[i] {
          return Failure(PriceUnavailable(now.day));
        }
        result := result + [Quoted(tables[i][now.day], now.session)];
      }
      assert PricesAt(tables, start, epochs).Success?;
      assert result == PricesAt(tables, start, epochs).value;
      return Success(result);
    }

    /**
     * The holdings and cash after `action` at `prices` (`get_new_holdings`);
     * the state itself is not changed.
     */
    method GetNewHoldings(action: seq<int>, prices: seq<real>) returns (holdings: seq<int>, cash: real)
      requires Ready() && |action| == |tables| && |prices| == |tables|
      ensures Trades(holdings, cash) == ApplyTrades(action, state.holdings, prices, state.cash)
    {
      var oldHoldings, cash0 := state.holdings, state.cash;
      cash := cash0;
      holdings := [];
      for i := 0 to |tables|
        invariant Trades(holdings, cash) == ApplyTrades(action[..i], oldHoldings[..i], prices[..i], cash0)
      {
        var a, holding, price := action[i], oldHoldings[i], prices[i];
        ApplyTradesStep(action, oldHoldings, prices, cash0, i);
        if cash - Cost(a, price) >= 0.0 && holding + a >= 0 {
          holdings := holdings + [Max(0, holding + a)];
          cash := cash - Cost(a, price);
        } else {
          holdings := holdings + [holding];
        }
      }
      assert action[..|tables|] == action && oldHoldings[..|tables|] == oldHoldings;
      assert prices[..|tables|] == prices;
    }

    /**
     * Advances the clock by the least increment whose date the first
     * instrument lists (`increment_date`). When none of the increments 1..19
     * does, the clock is left alone and the search reports the date of
     * increment 20, which it never tests.
     */
    method IncrementDate() returns (r: Outcome<Error>)
      requires Valid()
      modifies this`epochs
      ensures Valid()
      ensures Advance(tables[0].Keys, start, old(epochs)).Success? ==>
        r == Pass && epochs == Advance(tables[0].Keys, start, old(epochs)).value
      ensures Advance(tables[0].Keys, start, old(epochs)).Failure? ==>
        r == Fail(Advance(tables[0].Keys, start, old(epochs)).error) && epochs == old(epochs)
    {
      var incr := 1;
      var reference := tables[0];
      var adjusted := start + (epochs + incr) / 2;
      while adjusted !in reference
        invariant 1 <= incr < SkipLimit
        invariant adjusted == DayOf(start, epochs + incr)
        invariant forall j :: 1 <= j < incr ==> !ListedAfter(reference.Keys, start, epochs, j)
        decreases SkipLimit - incr
      {
        incr := incr + 1;
        adjusted := start + (epochs + incr) / 2;
        if incr >= SkipLimit {
          assert FirstValidIncrement(reference.Keys, start, epochs).None?;
          return Fail(CalendarSearchExhausted(adjusted));
        }
      }
      assert ListedAfter(reference.Keys, start, epochs, incr);
      assert FirstValidIncrement(reference.Keys, start, epochs) == Some(incr);
      epochs := epochs + incr;
      return Pass;
    }

    /**
     * Starts an episode (`reset` with `initialize_starting_epoch`): cash and
     * shares are the drawn ones under random starts and otherwise the upper
     * cash bound and no shares; the clock is set to the starting tick and
     * advanced once to a listed date; the prices there complete the state,
     * whose value becomes the reference for rewards. A failure leaves state
     * and reference alone but not the clock.
     */
    method Reset(draw: Draw) returns (r: Result<seq<real>, Error>)
      requires Valid()
      requires randomStart ==> DrawFits(draw, |tables|, lower, upper)
      modifies this
      ensures Valid()
      ensures var e := ResetFrom(tables, start, StartingTick(randomStart, draw), StartingMoney(randomStart, upper, draw),
                                 StartingShares(randomStart, |tables|, draw));
        && epochs == e.tick
        && (e.result.Failure? ==>
              r == Failure(e.result.error) && state == old(state) && startingAmount == old(startingAmount))
        && (e.result.Success? ==>
              state == e.result.value && r == Success(state.Vector()) && startingAmount == state.PortfolioValue())
      ensures r.Success? ==> Synced()
    {
      var money := StartingMoney(randomStart, upper, draw);
      var shares := StartingShares(randomStart, |tables|, draw);
      epochs := StartingTick(randomStart, draw);
      ResetLandsOnListedDate(tables, start, epochs, money, shares);
      var advanced := IncrementDate();
      if advanced.Fail? {
        return Failure(advanced.error);
      }
      var prices := GetStockPrices();
      if prices.Failure? {
        return Failure(prices.error);
      }
      state := State(money, shares, prices.value);
      startingAmount := CalculatePortfolioValue();
      return Success(state.Vector());
    }

    /**
     * One transition (`step`): trade at the current prices, advance the
     * clock, read the new prices, and report the new state vector, its gain
     * over the reference value and whether the episode is over.
     */
    method Step(action: seq<int>) returns (r: Result<Transition, Error>)
      requires Ready() && |action| == |tables|
      modifies this
      ensures Ready() && startingAmount == old(startingAmount)
      ensures var e := StepFrom(tables, start, maxEpochs, old(startingAmount), old(epochs), old(state), action);
        epochs == e.tick && state == e.state && r == e.result
      ensures r.Success? ==> Synced()
    {
      StepLandsOnListedDate(tables, start, end, maxEpochs, startingAmount, epochs, state, action);
      ghost var e := StepFrom(tables, start, maxEpochs, startingAmount, epochs, state, action);
      var pricesOld := GetStockPrices();
      if pricesOld.Failure? {
        return Failure(pricesOld.error);
      }
      var holdings, remainingMoney := GetNewHoldings(action, pricesOld.value);
      ghost var tick0 := epochs;
      var advanced := IncrementDate();
      if advanced.Fail? {
        assert e == StepEffect(tick0, state, Failure(advanced.error));
        return Failure(advanced.error);
      }
      var pricesNew := GetStockPrices();
      if pricesNew.Failure? {
        assert e == StepEffect(epochs, state, Failure(pricesNew.error));
        return Failure(pricesNew.error);
      }
      var reward := CalculateReward(holdings, remainingMoney, pricesNew.value);
      state := State(remainingMoney, holdings, pricesNew.value);
      assert reward == state.PortfolioValue() - startingAmount;
      assert e == StepEffect(epochs, state, Success(Transition(state.Vector(), reward, IsDone())));
      return Success(Transition(state.Vector(), reward, IsDone()));
    }
  }

  /**
   * Builds an environment (`StockEnv.__init__`): the date range is checked
   * first, then the first reset runs.
   */
  method New(tables: seq<PriceTable>, start: int, end: int, lower: int, upper: int, randomStart: bool, draw: Draw)
    returns (r: Result<StockEnv, Error>)
    requires randomStart ==> DrawFits(draw, |tables|, lower, upper)
    ensures end < start ==> r == Failure(InvalidDateRange)
    ensures start <= end && |tables| == 0 ==> r == Failure(NoInstruments)
    ensures start <= end && |tables| >= 1 ==>
      var e := ResetFrom(tables, start, StartingTick(randomStart, draw), StartingMoney(randomStart, upper, draw),
                         StartingShares(randomStart, |tables|, draw));
      && (e.result.Failure? ==> r == Failure(e.result.error))
      && (e.result.Success? ==> r.Success? && r.value.epochs == e.tick && r.value.state == e.result.value)
    ensures r.Success? ==>
      && fresh(r.value)
      && r.value.Synced()
      && r.value.tables == tables && r.value.start == start && r.value.end == end
      && r.value.lower == lower && r.value.upper == upper && r.value.randomStart == randomStart
      && r.value.maxEpochs == 2 * (end - start)
      && r.value.startingAmount == r.value.CalculatePortfolioValue()
  {
    var bound := MaxEpochs(start, end);
    if bound.Failure? {
      return Failure(bound.error);
    }
    if |tables| == 0 {
      return Failure(NoInstruments);
    }
    var env := new StockEnv(tables, start, end, lower, upper, randomStart);
    var first := env.Reset(draw);
    if first.Failure? {
      return Failure(first.error);
    }
    return Success(env);
  }

  /**
   * Without random starts, two resets in a row produce the same state vector
   * and the same starting tick.
   */
  method ResetTwice(env: StockEnv, draw1: Draw, draw2: Draw)
    returns (first: Result<seq<real>, Error>, tick1: int, second: Result<seq<real>, Error>, tick2: int)
    requires env.Valid() && !env.randomStart
    modifies env
    ensures first == second && tick1 == tick2
  {
    first := env.Reset(draw1);
    tick1 := env.epochs;
    second := env.Reset(draw2);
    tick2 := env.epochs;
  }
}
