/**
 * Portfolio arithmetic: applying one action (a signed share quantity per
 * instrument) to the holdings and the cash, and valuing the state
 * `[cash, holdings..., prices...]`. Prices and cash are exact reals; share
 * quantities are integers.
 */
module Portfolio {

  /**
   * The value of `shares` shares at `price`, written as repeated addition so
   * that proofs about it stay in linear arithmetic; CostIsProduct shows it
   * is the product `shares * price`.
   */
  function Cost(shares: int, price: real): real
    decreases if shares < 0 then -shares else shares
  {
    if shares == 0 then 0.0
    else if shares > 0 then Cost(shares - 1, price) + price
    else Cost(shares + 1, price) - price
  }

  lemma {:induction false} CostIsProduct(shares: int, price: real)
    ensures Cost(shares, price) == shares as real * price
    decreases if shares < 0 then -shares else shares
  {
    if shares > 0 {
      CostIsProduct(shares - 1, price);
      assert (shares - 1) as real * price + price == shares as real * price;
    } else if shares < 0 {
      CostIsProduct(shares + 1, price);
      assert (shares + 1) as real * price - price == shares as real * price;
    }
  }

  lemma {:induction false} CostAdditive(x: int, y: int, price: real)
    ensures Cost(x + y, price) == Cost(x, price) + Cost(y, price)
    decreases if y < 0 then -y else y
  {
    if y > 0 {
      CostAdditive(x, y - 1, price);
    } else if y < 0 {
      CostAdditive(x, y + 1, price);
    }
  }

  lemma {:induction false} CostOfDifference(shares: int, p: real, q: real)
    ensures Cost(shares, p) - Cost(shares, q) == Cost(shares, p - q)
    decreases if shares < 0 then -shares else shares
  {
    if shares > 0 {
      CostOfDifference(shares - 1, p, q);
    } else if shares < 0 {
      CostOfDifference(shares + 1, p, q);
    }
  }

  /** Market value of the holdings: the sum of holdings[i] * prices[i], accumulated left to right. */
  function Dot(holdings: seq<int>, prices: seq<real>): real
    requires |holdings| == |prices|
    decreases |holdings|
  {
    if |holdings| == 0 then 0.0
    else Dot(holdings[..|holdings| - 1], prices[..|prices| - 1]) + Cost(holdings[|holdings| - 1], prices[|prices| - 1])
  }

  lemma DotLast(holdings: seq<int>, prices: seq<real>)
    requires |holdings| == |prices| > 0
    ensures Dot(holdings, prices)
         == Dot(holdings[..|holdings| - 1], prices[..|prices| - 1]) + Cost(holdings[|holdings| - 1], prices[|prices| - 1])
  {
  }

  function Max(x: int, y: int): int
  {
    if x >= y then x else y
  }

  function Zeros(n: nat): (z: seq<int>)
    ensures |z| == n && forall i :: 0 <= i < n ==> z[i] == 0
  {
    seq(n, _ => 0)
  }

  /** Pointwise difference of two price vectors. */
  function Diff(ps: seq<real>, qs: seq<real>): (d: seq<real>)
    requires |ps| == |qs|
    ensures |d| == |ps| && forall i :: 0 <= i < |ps| ==> d[i] == ps[i] - qs[i]
  {
    seq(|ps|, i requires 0 <= i < |ps| => ps[i] - qs[i])
  }

  /** A trade of `a` shares goes through when the running cash and the holding both stay non-negative. */
  predicate Affordable(cash: real, holding: int, a: int, price: real)
  {
    cash - Cost(a, price) >= 0.0 && holding + a >= 0
  }

  /** New holdings and remaining cash after an action. */
  datatype Trades = Trades(holdings: seq<int>, cash: real)

  /**
   * The effect of `get_new_holdings`: the instruments are visited in
   * declaration order, each trade tested against the cash left by the
   * trades before it; a rejected trade copies the holding and leaves the
   * cash alone.
   */
  function ApplyTrades(action: seq<int>, holdings: seq<int>, prices: seq<real>, cash: real): (r: Trades)
    requires |action| == |holdings| == |prices|
    ensures |r.holdings| == |holdings|
    decreases |action|
  {
    if |action| == 0 then Trades([], cash)
    else
      var n := |action| - 1;
      var before := ApplyTrades(action[..n], holdings[..n], prices[..n], cash);
      if Affordable(before.cash, holdings[n], action[n], prices[n]) then
        Trades(before.holdings + [Max(0, holdings[n] + action[n])], before.cash - Cost(action[n], prices[n]))
      else
        Trades(before.holdings + [holdings[n]], before.cash)
  }

  /** Processing instrument i after the first i have been processed. */
  lemma ApplyTradesStep(action: seq<int>, holdings: seq<int>, prices: seq<real>, cash: real, i: nat)
    requires |action| == |holdings| == |prices| && i < |action|
    ensures var before := ApplyTrades(action[..i], holdings[..i], prices[..i], cash);
      ApplyTrades(action[..i + 1], holdings[..i + 1], prices[..i + 1], cash)
        == if Affordable(before.cash, holdings[i], action[i], prices[i]) then
             Trades(before.holdings + [Max(0, holdings[i] + action[i])], before.cash - Cost(action[i], prices[i]))
           else Trades(before.holdings + [holdings[i]], before.cash)
  {
    assert action[..i + 1][..i] == action[..i];
    assert holdings[..i + 1][..i] == holdings[..i];
    assert prices[..i + 1][..i] == prices[..i];
  }

  /** The cash left after the first `i` instruments have been processed. */
  function RunningCash(action: seq<int>, holdings: seq<int>, prices: seq<real>, cash: real, i: nat): real
    requires |action| == |holdings| == |prices| && i <= |action|
  {
    ApplyTrades(action[..i], holdings[..i], prices[..i], cash).cash
  }

  /** Later instruments never change the outcome for earlier ones. */
  lemma {:induction false} TradesPrefix(action: seq<int>, holdings: seq<int>, prices: seq<real>, cash: real, k: nat)
    requires |action| == |holdings| == |prices| && k <= |action|
    ensures ApplyTrades(action, holdings, prices, cash).holdings[..k]
         == ApplyTrades(action[..k], holdings[..k], prices[..k], cash).holdings
    decreases |action|
  {
    if k < |action| {
      var n := |action| - 1;
      TradesPrefix(action[..n], holdings[..n], prices[..n], cash, k);
      assert action[..n][..k] == action[..k];
      assert holdings[..n][..k] == holdings[..k];
      assert prices[..n][..k] == prices[..k];
      var before := ApplyTrades(action[..n], holdings[..n], prices[..n], cash);
      var r := ApplyTrades(action, holdings, prices, cash);
      assert r.holdings[..n] == before.holdings;
      assert r.holdings[..k] == before.holdings[..k];
    } else {
      assert action[..k] == action && holdings[..k] == holdings && prices[..k] == prices;
    }
  }

  /**
   * The decision for instrument i: its trade of action[i] shares is applied,
   * setting the holding to exactly holding + action[i] and debiting
   * action[i] * price from the running cash, exactly when that trade is
   * affordable against the cash left by the instruments before it;
   * otherwise the holding is copied and the cash is not touched.
   */
  lemma {:induction false} TradeDecision(action: seq<int>, holdings: seq<int>, prices: seq<real>, cash: real, i: nat)
    requires |action| == |holdings| == |prices| && i < |action|
    ensures var c := RunningCash(action, holdings, prices, cash, i);
      && ApplyTrades(action, holdings, prices, cash).holdings[i]
           == (if Affordable(c, holdings[i], action[i], prices[i]) then holdings[i] + action[i] else holdings[i])
      && RunningCash(action, holdings, prices, cash, i + 1)
           == (if Affordable(c, holdings[i], action[i], prices[i]) then c - Cost(action[i], prices[i]) else c)
  {
    TradesPrefix(action, holdings, prices, cash, i + 1);
    ApplyTradesStep(action, holdings, prices, cash, i);
    var r := ApplyTrades(action, holdings, prices, cash);
    assert r.holdings[i] == r.holdings[..i + 1][i];
  }

  /** No holding becomes negative: accepted trades keep it non-negative and rejected ones copy it. */
  lemma {:induction false} TradesKeepHoldingsNonNegative(action: seq<int>, holdings: seq<int>, prices: seq<real>, cash: real)
    requires |action| == |holdings| == |prices|
    requires forall i :: 0 <= i < |holdings| ==> holdings[i] >= 0
    ensures forall i :: 0 <= i < |holdings| ==> ApplyTrades(action, holdings, prices, cash).holdings[i] >= 0
    decreases |action|
  {
    if |action| > 0 {
      var n := |action| - 1;
      TradesKeepHoldingsNonNegative(action[..n], holdings[..n], prices[..n], cash);
      var before := ApplyTrades(action[..n], holdings[..n], prices[..n], cash);
      var r := ApplyTrades(action, holdings, prices, cash);
      if Affordable(before.cash, holdings[n], action[n], prices[n]) {
        assert r.holdings == before.holdings + [Max(0, holdings[n] + action[n])];
      } else {
        assert r.holdings == before.holdings + [holdings[n]] && holdings[n] >= 0;
      }
      assert forall i :: 0 <= i < n ==> r.holdings[i] == before.holdings[i];
    }
  }

  /**
   * The cash after an action is either the cash before it (no trade went
   * through) or non-negative (the last accepted trade left it so).
   */
  lemma {:induction false} TradesNeverOverdraw(action: seq<int>, holdings: seq<int>, prices: seq<real>, cash: real)
    requires |action| == |holdings| == |prices|
    ensures var r := ApplyTrades(action, holdings, prices, cash);
      r.cash == cash || r.cash >= 0.0
    decreases |action|
  {
    if |action| > 0 {
      var n := |action| - 1;
      TradesNeverOverdraw(action[..n], holdings[..n], prices[..n], cash);
    }
  }

  /** Non-negative cash and holdings stay non-negative. */
  lemma TradesKeepSolvency(action: seq<int>, holdings: seq<int>, prices: seq<real>, cash: real)
    requires |action| == |holdings| == |prices|
    requires cash >= 0.0 && forall i :: 0 <= i < |holdings| ==> holdings[i] >= 0
    ensures ApplyTrades(action, holdings, prices, cash).cash >= 0.0
    ensures forall i :: 0 <= i < |holdings| ==> ApplyTrades(action, holdings, prices, cash).holdings[i] >= 0
  {
    TradesNeverOverdraw(action, holdings, prices, cash);
    TradesKeepHoldingsNonNegative(action, holdings, prices, cash);
  }

  /**
   * Value conservation at the prices the trades are made at: cash plus the
   * market value of the holdings is the same before and after the action.
   */
  lemma {:induction false} TradesConserveValue(action: seq<int>, holdings: seq<int>, prices: seq<real>, cash: real)
    requires |action| == |holdings| == |prices|
    ensures ApplyTrades(action, holdings, prices, cash).cash + Dot(ApplyTrades(action, holdings, prices, cash).holdings, prices)
         == cash + Dot(holdings, prices)
    decreases |action|
  {
    if |action| > 0 {
      var n := |action| - 1;
      TradesConserveValue(action[..n], holdings[..n], prices[..n], cash);
      var before := ApplyTrades(action[..n], holdings[..n], prices[..n], cash);
      var r := ApplyTrades(action, holdings, prices, cash);
      assert r.holdings[..n] == before.holdings;
      DotLast(r.holdings, prices);
      DotLast(holdings, prices);
      if Affordable(before.cash, holdings[n], action[n], prices[n]) {
        assert r.holdings[n] == holdings[n] + action[n];
        CostAdditive(holdings[n], action[n], prices[n]);
      }
    }
  }

  /** An all-zero action changes neither the holdings nor the cash, whether or not its trades pass the guard. */
  lemma {:induction false} ZeroActionChangesNothing(action: seq<int>, holdings: seq<int>, prices: seq<real>, cash: real)
    requires |action| == |holdings| == |prices|
    requires forall i :: 0 <= i < |action| ==> action[i] == 0
    ensures ApplyTrades(action, holdings, prices, cash) == Trades(holdings, cash)
    decreases |action|
  {
    if |action| > 0 {
      var n := |action| - 1;
      ZeroActionChangesNothing(action[..n], holdings[..n], prices[..n], cash);
      assert holdings[..n] + [holdings[n]] == holdings;
    }
  }

  /** Buying five shares at 10 out of 1000 cash, with nothing asked of the second instrument. */
  lemma ScenarioBuyFive()
    ensures ApplyTrades([5, 0], [0, 0], [10.0, 20.0], 1000.0) == Trades([5, 0], 950.0)
  {
    assert ApplyTrades([5], [0], [10.0], 1000.0) == Trades([5], 950.0);
  }

  /** A purchase the cash cannot cover leaves holding and cash unchanged. */
  lemma ScenarioUnaffordable()
    ensures ApplyTrades([1], [0], [100.0], 10.0) == Trades([0], 10.0)
  {
    assert ApplyTrades([], [], [], 10.0) == Trades([], 10.0);
  }

  /** When two purchases compete for the same cash, the instrument declared first gets it. */
  lemma ScenarioEarlierInstrumentFirst()
    ensures ApplyTrades([1, 1], [0, 0], [10.0, 10.0], 10.0) == Trades([1, 0], 0.0)
  {
    assert ApplyTrades([1], [0], [10.0], 10.0) == Trades([1], 0.0);
  }

  /**
   * The environment's state: cash, then one holding and one current price
   * per instrument. Holdings are whole share counts.
   */
  datatype State = State(cash: real, holdings: seq<int>, prices: seq<real>)
  {
    predicate WellFormed()
    {
      |holdings| == |prices|
    }

    /** Cash and every holding are non-negative. */
    predicate Solvent()
    {
      cash >= 0.0 && forall i :: 0 <= i < |holdings| ==> holdings[i] >= 0
    }

    /**
     * Cash plus the market value of the holdings at the state's own prices;
     * a state holding no shares is worth exactly its cash.
     */
    function PortfolioValue(): (v: real)
      requires WellFormed()
      ensures (forall i :: 0 <= i < |holdings| ==> holdings[i] == 0) ==> v == cash
    {
      ZeroHoldingsWorthNothing(holdings, prices);
      cash + Dot(holdings, prices)
    }

    /** The flat vector `[cash, holdings..., prices...]` the environment hands out. */
    function Vector(): (v: seq<real>)
      ensures |v| == 1 + |holdings| + |prices|
    {
      [cash] + seq(|holdings|, i requires 0 <= i < |holdings| => holdings[i] as real) + prices
    }
  }

  /** Where each part of the state sits in the flat vector. */
  lemma VectorLayout(s: State)
    requires s.WellFormed()
    ensures var v, n := s.Vector(), |s.holdings|;
      && v[0] == s.cash
      && (forall i :: 0 <= i < n ==> v[1 + i] == s.holdings[i] as real)
      && (forall i :: 0 <= i < n ==> v[1 + n + i] == s.prices[i])
  {
  }

  lemma {:induction false} DotZeros(prices: seq<real>)
    ensures Dot(Zeros(|prices|), prices) == 0.0
    decreases |prices|
  {
    if |prices| > 0 {
      var n := |prices| - 1;
      DotZeros(prices[..n]);
      assert Zeros(|prices|)[..n] == Zeros(n);
    }
  }

  /** Holdings that are all zero are worth nothing at any prices. */
  lemma ZeroHoldingsWorthNothing(holdings: seq<int>, prices: seq<real>)
    requires |holdings| == |prices|
    ensures (forall i :: 0 <= i < |holdings| ==> holdings[i] == 0) ==> Dot(holdings, prices) == 0.0
  {
    if forall i :: 0 <= i < |holdings| ==> holdings[i] == 0 {
      assert holdings == Zeros(|prices|);
      DotZeros(prices);
    }
  }

  /** Dot is linear in the prices. */
  lemma {:induction false} DotOfDiff(holdings: seq<int>, ps: seq<real>, qs: seq<real>)
    requires |holdings| == |ps| == |qs|
    ensures Dot(holdings, ps) - Dot(holdings, qs) == Dot(holdings, Diff(ps, qs))
    decreases |holdings|
  {
    if |holdings| > 0 {
      var n := |holdings| - 1;
      DotOfDiff(holdings[..n], ps[..n], qs[..n]);
      assert Diff(ps, qs)[..n] == Diff(ps[..n], qs[..n]);
      CostOfDifference(holdings[n], ps[n], qs[n]);
    }
  }

  /**
   * Reward measured against a reference equal to the portfolio's value
   * before the action (as right after a reset): it is exactly the change in
   * the market value of the new holdings from the old to the new prices, so
   * flat prices give zero reward whatever was traded.
   */
  lemma RewardIsRevaluation(action: seq<int>, holdings: seq<int>, pricesOld: seq<real>, pricesNew: seq<real>, cash: real)
    requires |action| == |holdings| == |pricesOld| == |pricesNew|
    ensures var r := ApplyTrades(action, holdings, pricesOld, cash);
      r.cash + Dot(r.holdings, pricesNew) - (cash + Dot(holdings, pricesOld))
        == Dot(r.holdings, Diff(pricesNew, pricesOld))
  {
    var r := ApplyTrades(action, holdings, pricesOld, cash);
    TradesConserveValue(action, holdings, pricesOld, cash);
    DotOfDiff(r.holdings, pricesNew, pricesOld);
  }
}
