/**
 * The trader loop: the CryptoTrader object with its portfolio, running flag
 * and last market-data frame, the hourly cycle (fetch market data, then
 * evaluate and execute), and the loop that keeps cycling until a shutdown
 * request clears the running flag.
 */
module Trader {
  import opened Assets
  import opened Arbitrage
  import opened Execution
  import opened Exchange

  /**
   * What happens at one turn of the loop: no scheduled job is due; the two
   * hourly jobs are due, with what the market-data download delivered (None
   * when it raised), the venue's order-book answers and the pairs whose buy
   * orders the venue accepts; or a shutdown request arrives.
   */
  datatype Tick =
    | Idle
    | Hourly(fetched: Option<MarketData>, books: Books, filled: set<string>)
    | Shutdown

  /** The trader's mutable state, and the orders it has submitted so far. */
  datatype TraderState = TraderState(portfolio: Portfolio, financeData: Option<MarketData>, running: bool, sent: seq<Order>)

  /** A successful download replaces the frame; a failed one leaves the previous frame in place. */
  function Refresh(current: Option<MarketData>, fetched: Option<MarketData>): Option<MarketData>
  {
    if fetched.Some? then fetched else current
  }

  /** The effect of one turn of the loop. */
  function Step(st: TraderState, t: Tick, testMode: bool): TraderState
  {
    match t
    case Idle => st
    case Shutdown => st.(running := false)
    case Hourly(fetched, books, filled) =>
      var data := Refresh(st.financeData, fetched);
      var out := Execute(st.portfolio, Evaluate(data, books), filled, testMode);
      st.(financeData := data, portfolio := out.portfolio, sent := st.sent + out.orders)
  }

  /** The loop over a sequence of turns: each turn runs only while the running flag is set. */
  function Replay(st: TraderState, ticks: seq<Tick>, testMode: bool): TraderState
    decreases |ticks|
  {
    if ticks == [] || !st.running then st else Replay(Step(st, ticks[0], testMode), ticks[1..], testMode)
  }

  /** Only a shutdown request clears the running flag, and nothing sets it again. */
  lemma StepRunning(st: TraderState, t: Tick, testMode: bool)
    ensures Step(st, t, testMode).running <==> st.running && !t.Shutdown?
  {
  }

  /**
   * A cycle whose evaluation raises (a market price missing) is caught: the
   * loop keeps running and neither the portfolio nor the submitted orders change.
   */
  lemma FailingCycleContinues(st: TraderState, fetched: Option<MarketData>, books: Books, filled: set<string>, testMode: bool)
    requires Evaluate(Refresh(st.financeData, fetched), books).LookupFailed?
    ensures var st' := Step(st, Hourly(fetched, books, filled), testMode);
            st'.running == st.running && st'.portfolio == st.portfolio && st'.sent == st.sent
  {
  }

  /** A running loop is still running after the turns exactly when none of them was a shutdown request. */
  lemma {:induction false} ReplayRunning(st: TraderState, ticks: seq<Tick>, testMode: bool)
    requires st.running
    decreases |ticks|
    ensures Replay(st, ticks, testMode).running <==> Shutdown !in ticks
  {
    if ticks != [] {
      assert ticks == [ticks[0]] + ticks[1..];
      if !ticks[0].Shutdown? {
        ReplayRunning(Step(st, ticks[0], testMode), ticks[1..], testMode);
      } else {
        StoppedIsFinal(Step(st, ticks[0], testMode), ticks[1..], testMode);
      }
    }
  }

  /** Once the running flag is clear, no further turn changes anything. */
  lemma StoppedIsFinal(st: TraderState, ticks: seq<Tick>, testMode: bool)
    requires !st.running
    ensures Replay(st, ticks, testMode) == st
  {
  }

  /** The turns after the first shutdown request never run. */
  lemma {:induction false} NothingAfterShutdown(st: TraderState, before: seq<Tick>, after: seq<Tick>, testMode: bool)
    requires Shutdown !in before
    decreases |before|
    ensures Replay(st, before + [Shutdown] + after, testMode) == Replay(st, before, testMode).(running := false)
  {
    var ticks := before + [Shutdown] + after;
    if !st.running {
      StoppedIsFinal(st, before, testMode);
    } else if before == [] {
      assert ticks[1..] == after;
      StoppedIsFinal(st.(running := false), after, testMode);
    } else {
      assert ticks[0] == before[0];
      assert ticks[1..] == before[1..] + [Shutdown] + after;
      NothingAfterShutdown(Step(st, before[0], testMode), before[1..], after, testMode);
    }
  }

  /** Over any run, the held symbols stay the same and no holding decreases. */
  lemma {:induction false} ReplayNeverDecreases(st: TraderState, ticks: seq<Tick>, testMode: bool)
    decreases |ticks|
    ensures Replay(st, ticks, testMode).portfolio.Keys == st.portfolio.Keys
    ensures forall s :: s in st.portfolio ==> Replay(st, ticks, testMode).portfolio[s] >= st.portfolio[s]
  {
    if ticks != [] && st.running {
      var next := Step(st, ticks[0], testMode);
      if ticks[0].Hourly? {
        var t := ticks[0];
        ExecuteNeverDecreases(st.portfolio, Evaluate(Refresh(st.financeData, t.fetched), t.books), t.filled, testMode);
      }
      ReplayNeverDecreases(next, ticks[1..], testMode);
    }
  }

  /** In test mode no run ever submits an order or changes the portfolio. */
  lemma {:induction false} TestModeRunKeepsPortfolio(st: TraderState, ticks: seq<Tick>)
    decreases |ticks|
    ensures Replay(st, ticks, true).portfolio == st.portfolio
    ensures Replay(st, ticks, true).sent == st.sent
  {
    if ticks != [] && st.running {
      var t := ticks[0];
      if t.Hourly? {
        NothingPlaced(st.portfolio, Evaluate(Refresh(st.financeData, t.fetched), t.books), t.filled, true);
      }
      TestModeRunKeepsPortfolio(Step(st, t, true), ticks[1..]);
    }
  }

  /** The trader object. */
  class CryptoTrader {
    const testMode: bool
    const exchange: ClientOptions
    var portfolio: Portfolio
    var running: bool
    var financeData: Option<MarketData>
    /** The buy orders submitted to the venue so far. */
    ghost var sent: seq<Order>

    /** Every asset has a holding, and no holding is negative. */
    ghost predicate Valid()
      reads this
    {
      && portfolio.Keys == AllSymbols
      && forall s :: s in portfolio ==> portfolio[s] >= 0.0
    }

    ghost function State(): TraderState
      reads this
    {
      TraderState(portfolio, financeData, running, sent)
    }

    /** A trader of the chosen variant: zero holdings, running, no market data yet. */
    constructor (venue: ExchangeType, config: Config, testMode: bool)
      ensures Valid()
      ensures this.testMode == testMode && exchange == InitializeExchange(venue, config, testMode)
      ensures portfolio == InitialPortfolio() && running && financeData == None && sent == []
    {
      this.testMode := testMode;
      portfolio := InitialPortfolio();
      running := true;
      exchange := InitializeExchange(venue, config, testMode);
      financeData := None;
      sent := [];
    }

    /** Market-data job: fetched is None when the download raised (the error is logged). */
    method GetFinanceData(fetched: Option<MarketData>)
      modifies this`financeData
      ensures financeData == Refresh(old(financeData), fetched)
    {
      if fetched.Some? {
        financeData := fetched;
        // logs the successful fetch
      } else {
        // logs the download error
      }
    }

    /**
     * Trading job: evaluate; an evaluation error escapes (raised); nothing
     * found means nothing to do; otherwise walk the opportunities.
     */
    method ExecuteTrades(books: Books, filled: set<string>) returns (raised: bool, orders: seq<Order>)
      requires Valid()
      modifies this`portfolio, this`sent
      ensures Valid()
      ensures var out := Execute(old(portfolio), Evaluate(financeData, books), filled, testMode);
              raised == out.raised && orders == out.orders && portfolio == out.portfolio
      ensures sent == old(sent) + orders
    {
      var e, requested := CalculateArbitrage(financeData, books);
      raised, orders := false, [];
      if e.LookupFailed? {
        raised := true;
        return;
      }
      if e.NoData? || |e.opportunities| == 0 {
        // logs that no opportunity was found
        return;
      }
      orders := BuyOpportunities(e.opportunities, filled, Symbols);
      ExecuteNeverDecreases(old(portfolio), e, filled, testMode);
    }

    /**
     * The walk over the opportunities. The evaluation inserted them while
     * walking the asset list, so the dictionary yields them in that list's
     * order: walking keyOrder (the asset list) and skipping the symbols
     * without an opportunity visits the same entries in the same order. In
     * live mode each one submits a limit buy of Amount at the market price
     * and, when the venue accepts it (its pair is in filled), adds Amount to
     * the holding; a failed buy is caught and the walk goes on. Test mode
     * submits nothing.
     */
    method BuyOpportunities(opportunities: map<Symbol, Opportunity>, filled: set<string>, keyOrder: seq<Symbol>)
      returns (orders: seq<Order>)
      modifies this`portfolio, this`sent
      ensures testMode ==> orders == [] && portfolio == old(portfolio)
      ensures !testMode ==> orders == PlannedOrders(opportunities, keyOrder)
      ensures !testMode ==> portfolio == Traded(old(portfolio), opportunities, filled, keyOrder)
      ensures sent == old(sent) + orders
    {
      orders := [];
      for i := 0 to |keyOrder|
        invariant testMode ==> orders == [] && portfolio == old(portfolio)
        invariant !testMode ==> orders == PlannedOrders(opportunities, keyOrder[..i])
        invariant !testMode ==> portfolio == Traded(old(portfolio), opportunities, filled, keyOrder[..i])
        invariant sent == old(sent) + orders
      {
        var symbol := keyOrder[i];
        assert keyOrder[..i + 1] == keyOrder[..i] + [symbol];
        PlannedOrdersSnoc(opportunities, keyOrder[..i], symbol);
        TradedSnoc(old(portfolio), opportunities, filled, keyOrder[..i], symbol);
        if symbol in opportunities {
          var data := opportunities[symbol];
          var amount := Amount;
          if !testMode {
            var order := Order(Pair(symbol), amount, data.marketPrice);
            orders := orders + [order];
            sent := sent + [order];
            if Pair(symbol) in filled && symbol in portfolio {
              portfolio := portfolio[symbol := portfolio[symbol] + amount];
              // logs the executed buy
            } else {
              // logs the trade execution error
            }
          } else {
            // logs the buy that test mode would place
          }
        }
      }
      assert keyOrder[..|keyOrder|] == keyOrder;
    }

    /** Shutdown request: clear the running flag. */
    method Stop()
      modifies this`running
      ensures !running
    {
      running := false;
      // logs the shutdown
    }

    /**
     * The main loop: while the running flag is set, take the next turn; an
     * error escaping the trading job is caught and the loop goes on.
     */
    method Run(ticks: seq<Tick>)
      requires Valid()
      modifies this
      ensures Valid()
      ensures State() == Replay(old(State()), ticks, testMode)
    {
      var i := 0;
      while running && i < |ticks|
        invariant i <= |ticks|
        invariant Valid()
        invariant Replay(State(), ticks[i..], testMode) == Replay(old(State()), ticks, testMode)
        decreases |ticks| - i
      {
        ghost var before := State();
        assert ticks[i..][1..] == ticks[i + 1..];
        match ticks[i] {
          case Idle =>
          case Shutdown =>
            Stop();
          case Hourly(fetched, books, filled) =>
            GetFinanceData(fetched);
            var raised, orders := ExecuteTrades(books, filled);
            if raised {
              // logs the error in the main loop
            }
        }
        assert State() == Step(before, ticks[i], testMode);
        i := i + 1;
      }
    }
  }
}
