/**
 * The trade executor: what one execution of the found opportunities submits
 * to the venue and how it changes the portfolio. The trader's loop over the
 * opportunities is the method CryptoTrader.ExecuteTrades; these functions
 * are its specification.
 */
module Execution {
  import opened Assets
  import opened Arbitrage

  /** The fixed quantity of every buy order. */
  const Amount: real := 0.01

  /** A limit buy as submitted to the venue: pair, quantity, limit price. */
  datatype Order = Order(pair: string, amount: real, price: real)

  /** Held quantity per asset symbol. */
  type Portfolio = map<Symbol, real>

  /** The holdings a trader starts with. */
  function InitialPortfolio(): (p: Portfolio)
    ensures p.Keys == AllSymbols
    ensures forall s :: s in p ==> p[s] == 0.0
  {
    map["BTC" := 0.0, "ETH" := 0.0, "XRP" := 0.0]
  }

  /** The buy order visiting one symbol submits: one when it has an opportunity, none otherwise. */
  function OrderFor(opportunities: map<Symbol, Opportunity>, s: Symbol): seq<Order>
  {
    if s in opportunities then [Order(Pair(s), Amount, opportunities[s].marketPrice)] else []
  }

  /**
   * The buy orders submitted for the opportunities, walking syms in order:
   * one per symbol that has an opportunity, for its pair, at its market price.
   */
  function PlannedOrders(opportunities: map<Symbol, Opportunity>, syms: seq<Symbol>): seq<Order>
  {
    if syms == [] then []
    else PlannedOrders(opportunities, syms[..|syms| - 1]) + OrderFor(opportunities, syms[|syms| - 1])
  }

  /**
   * The portfolio after walking syms in order: a symbol with an opportunity
   * whose buy order the venue accepted (its pair is in filled) gains Amount;
   * a holding that is missing is left missing, as the source's failed
   * increment is caught.
   */
  function Traded(p: Portfolio, opportunities: map<Symbol, Opportunity>, filled: set<string>, syms: seq<Symbol>): Portfolio
  {
    if syms == [] then p
    else
      var q, s := Traded(p, opportunities, filled, syms[..|syms| - 1]), syms[|syms| - 1];
      if s in opportunities && Pair(s) in filled && s in q then q[s := q[s] + Amount] else q
  }

  /** Walking one more symbol adds at most its order. */
  lemma PlannedOrdersSnoc(opportunities: map<Symbol, Opportunity>, syms: seq<Symbol>, s: Symbol)
    ensures PlannedOrders(opportunities, syms + [s]) ==
            if s in opportunities then PlannedOrders(opportunities, syms) + [Order(Pair(s), Amount, opportunities[s].marketPrice)]
            else PlannedOrders(opportunities, syms)
  {
  }

  /** Walking one more symbol changes at most its holding. */
  lemma TradedSnoc(p: Portfolio, opportunities: map<Symbol, Opportunity>, filled: set<string>, syms: seq<Symbol>, s: Symbol)
    ensures Traded(p, opportunities, filled, syms + [s]) ==
            var q := Traded(p, opportunities, filled, syms);
            if s in opportunities && Pair(s) in filled && s in q then q[s := q[s] + Amount] else q
  {
  }

  /** What one run of execute_trades yields: whether it raised, the orders submitted, the new portfolio. */
  datatype TradeOutcome = TradeOutcome(raised: bool, orders: seq<Order>, portfolio: Portfolio)

  /**
   * One execution given the evaluation it starts from: an evaluation that
   * raised propagates; no data or no opportunity places nothing; test mode
   * places nothing; live mode places the planned orders and applies the
   * accepted ones.
   */
  function Execute(p: Portfolio, e: Evaluation, filled: set<string>, testMode: bool): TradeOutcome
  {
    match e
    case LookupFailed(_) => TradeOutcome(true, [], p)
    case NoData => TradeOutcome(false, [], p)
    case Found(opportunities) =>
      if |opportunities| == 0 || testMode then TradeOutcome(false, [], p)
      else TradeOutcome(false, PlannedOrders(opportunities, Symbols), Traded(p, opportunities, filled, Symbols))
  }

  /** Each holding gains Amount exactly when its symbol is walked, has an opportunity and its buy was accepted. */
  lemma {:induction false} TradedAt(p: Portfolio, opportunities: map<Symbol, Opportunity>, filled: set<string>, syms: seq<Symbol>)
    requires Distinct(syms)
    ensures Traded(p, opportunities, filled, syms).Keys == p.Keys
    ensures forall s :: s in p ==>
              Traded(p, opportunities, filled, syms)[s] ==
                p[s] + (if s in syms && s in opportunities && Pair(s) in filled then Amount else 0.0)
  {
    if syms != [] {
      var init, last := syms[..|syms| - 1], syms[|syms| - 1];
      assert Distinct(init);
      TradedAt(p, opportunities, filled, init);
      assert syms == init + [last];
      assert last !in init;
    }
  }

  /**
   * Every order is for a walked symbol with an opportunity, for that symbol's
   * pair and Amount at its market price; every such symbol gets one.
   */
  lemma {:induction false} PlannedOrdersAre(opportunities: map<Symbol, Opportunity>, syms: seq<Symbol>)
    ensures forall o :: o in PlannedOrders(opportunities, syms) ==>
              exists s :: s in syms && s in opportunities && o == Order(Pair(s), Amount, opportunities[s].marketPrice)
    ensures forall s :: s in syms && s in opportunities ==>
              Order(Pair(s), Amount, opportunities[s].marketPrice) in PlannedOrders(opportunities, syms)
    ensures (forall s :: s in syms ==> s !in opportunities) ==> PlannedOrders(opportunities, syms) == []
  {
    if syms != [] {
      var init, last := syms[..|syms| - 1], syms[|syms| - 1];
      PlannedOrdersAre(opportunities, init);
      assert syms == init + [last];
    }
  }

  /** When no symbol is walked twice there are exactly as many orders as walked symbols with an opportunity. */
  lemma {:induction false} PlannedOrdersCount(opportunities: map<Symbol, Opportunity>, syms: seq<Symbol>)
    requires Distinct(syms)
    ensures |PlannedOrders(opportunities, syms)| == |set s | s in syms && s in opportunities|
  {
    if syms == [] {
      assert (set s | s in syms && s in opportunities) == {};
    } else {
      var init, last := syms[..|syms| - 1], syms[|syms| - 1];
      DistinctInit(syms);
      PlannedOrdersCount(opportunities, init);
      WalkedSnoc(opportunities, init, last);
      assert syms == init + [last];
    }
  }

  /** Dropping the last symbol keeps the rest distinct and leaves that symbol out of them. */
  lemma DistinctInit(syms: seq<Symbol>)
    requires Distinct(syms) && syms != []
    ensures Distinct(syms[..|syms| - 1]) && syms[|syms| - 1] !in syms[..|syms| - 1]
  {
  }

  /** The walked symbols with an opportunity, one symbol more. */
  lemma WalkedSnoc(opportunities: map<Symbol, Opportunity>, syms: seq<Symbol>, s: Symbol)
    ensures (set t | t in syms + [s] && t in opportunities) ==
            (set t | t in syms && t in opportunities) + (if s in opportunities then {s} else {})
  {
  }

  /** Walking one list and then another submits the first list's orders first. */
  lemma {:induction false} PlannedOrdersAppend(opportunities: map<Symbol, Opportunity>, xs: seq<Symbol>, ys: seq<Symbol>)
    decreases |ys|
    ensures PlannedOrders(opportunities, xs + ys) == PlannedOrders(opportunities, xs) + PlannedOrders(opportunities, ys)
  {
    if ys == [] {
      assert xs + ys == xs;
    } else {
      var init, last := ys[..|ys| - 1], ys[|ys| - 1];
      PlannedOrdersAppend(opportunities, xs, init);
      assert (xs + ys)[..|xs + ys| - 1] == xs + init;
      assert (xs + ys)[|xs + ys| - 1] == last;
    }
  }

  /** A live execution submits the BTC order first, then ETH, then XRP, each only when it is an opportunity. */
  lemma LiveOrdersInAssetOrder(p: Portfolio, opportunities: map<Symbol, Opportunity>, filled: set<string>)
    requires |opportunities| > 0
    ensures Execute(p, Found(opportunities), filled, false).orders ==
            OrderFor(opportunities, "BTC") + OrderFor(opportunities, "ETH") + OrderFor(opportunities, "XRP")
  {
    PlannedOrdersAppend(opportunities, ["BTC"], ["ETH", "XRP"]);
    PlannedOrdersAppend(opportunities, ["ETH"], ["XRP"]);
    assert Symbols == ["BTC"] + ["ETH", "XRP"];
    assert ["ETH", "XRP"] == ["ETH"] + ["XRP"];
  }

  /** In test mode, or with nothing found, no order is placed and the portfolio is unchanged. */
  lemma NothingPlaced(p: Portfolio, e: Evaluation, filled: set<string>, testMode: bool)
    requires testMode || e.NoData? || e.LookupFailed? || (e.Found? && e.opportunities == map[])
    ensures Execute(p, e, filled, testMode) == TradeOutcome(e.LookupFailed?, [], p)
  {
  }

  /**
   * In live mode every holding gains exactly Amount when an opportunity for
   * it was found and its buy was accepted, and is unchanged otherwise; every
   * order goes to an opportunity's pair at its market price.
   */
  lemma LiveExecution(p: Portfolio, opportunities: map<Symbol, Opportunity>, filled: set<string>)
    requires opportunities.Keys <= AllSymbols
    ensures var out := Execute(p, Found(opportunities), filled, false);
            && !out.raised
            && out.portfolio.Keys == p.Keys
            && (forall s :: s in p ==>
                  out.portfolio[s] == p[s] + (if s in opportunities && Pair(s) in filled then Amount else 0.0))
            && (forall o :: o in out.orders ==>
                  exists s :: s in opportunities && o == Order(Pair(s), Amount, opportunities[s].marketPrice))
  {
    SymbolsAreTheAssets();
    if |opportunities| > 0 {
      TradedAt(p, opportunities, filled, Symbols);
      PlannedOrdersAre(opportunities, Symbols);
    }
  }

  /** No execution lowers a holding or changes the set of held symbols. */
  lemma ExecuteNeverDecreases(p: Portfolio, e: Evaluation, filled: set<string>, testMode: bool)
    ensures Execute(p, e, filled, testMode).portfolio.Keys == p.Keys
    ensures forall s :: s in p ==> Execute(p, e, filled, testMode).portfolio[s] >= p[s]
  {
    if e.Found? && |e.opportunities| > 0 && !testMode {
      SymbolsAreTheAssets();
      TradedAt(p, e.opportunities, filled, Symbols);
    }
  }
}
