/**
 * The spread evaluator: for each asset of the fixed list it compares the
 * market close price with the venue's best bid and keeps the assets whose
 * bid lies more than 0.5 percent above the market.
 */
module Arbitrage {
  import opened Assets

  /** Latest close price per ticker ("BTC-USD"), as the market-data feed delivered it. */
  type MarketData = map<string, real>

  /** One resting level of an order book: its price, then its amount. */
  datatype Level = Level(price: real, amount: real)

  /** The venue's answer to one order-book request: a failure, or both sides, best level first. */
  datatype BookReply = BookError | Book(bids: seq<Level>, asks: seq<Level>)

  /** The venue's answers per pair ("BTC/USD"); a pair without an entry is a request that failed. */
  type Books = map<string, BookReply>

  /** The record kept for an asset that passes the threshold. */
  datatype Opportunity = Opportunity(profitPotential: real, marketPrice: real, exchangeBid: real, exchangeAsk: real)

  /**
   * The outcome of one evaluation: no market data at all, a market-price
   * lookup that failed for a symbol (an error that escapes the evaluation),
   * or the opportunities found.
   */
  datatype Evaluation = NoData | LookupFailed(symbol: Symbol) | Found(opportunities: map<Symbol, Opportunity>)

  /** The fixed percentage threshold. */
  const Threshold: real := 0.5

  /** Market data that is absent or empty counts as no data. */
  predicate NoMarketData(data: Option<MarketData>)
  {
    data.None? || |data.value| == 0
  }

  /** The best price on one side of the book, none when that side is empty. */
  function Best(side: seq<Level>): (p: Option<real>)
    ensures p.Some? <==> |side| > 0
    ensures p.Some? ==> p.value == side[0].price
  {
    if |side| > 0 then Some(side[0].price) else None
  }

  /** A price that is present and non-zero. */
  predicate Truthy(p: Option<real>)
  {
    p.Some? && p.value != 0.0
  }

  /** The venue's answer for a pair; no entry means the request failed. */
  function Reply(books: Books, pair: string): BookReply
  {
    if pair in books then books[pair] else BookError
  }

  /** The percentage by which the bid exceeds the market price. */
  function ProfitPotential(bid: real, marketPrice: real): real
    requires marketPrice != 0.0
  {
    (bid - marketPrice) / marketPrice * 100.0
  }

  /** The decision for one asset, given its market price and the venue's answer. */
  function Decide(marketPrice: real, reply: BookReply): Option<Opportunity>
  {
    match reply
    case BookError => None
    case Book(bids, asks) =>
      var bid, ask := Best(bids), Best(asks);
      if Truthy(bid) && Truthy(ask) && marketPrice != 0.0 && ProfitPotential(bid.value, marketPrice) > Threshold
      then Some(Opportunity(ProfitPotential(bid.value, marketPrice), marketPrice, bid.value, ask.value))
      else None
  }

  /** The position of the first symbol of syms whose ticker has no price, or |syms| when every one has. */
  function FirstUnpriced(prices: MarketData, syms: seq<Symbol>): (k: nat)
    ensures k <= |syms|
    ensures forall j :: 0 <= j < k ==> Ticker(syms[j]) in prices
    ensures k < |syms| ==> Ticker(syms[k]) !in prices
  {
    if |syms| == 0 || Ticker(syms[0]) !in prices then 0 else 1 + FirstUnpriced(prices, syms[1..])
  }

  /** The opportunities among syms. */
  function Opportunities(prices: MarketData, books: Books, syms: seq<Symbol>): map<Symbol, Opportunity>
  {
    map s | s in syms && Ticker(s) in prices && Decide(prices[Ticker(s)], Reply(books, Pair(s))).Some?
      :: Decide(prices[Ticker(s)], Reply(books, Pair(s))).value
  }

  /** The loop-free specification of one evaluation over the fixed asset list. */
  function Evaluate(data: Option<MarketData>, books: Books): Evaluation
  {
    if NoMarketData(data) then NoData
    else
      var k := FirstUnpriced(data.value, Symbols);
      if k < |Symbols| then LookupFailed(Symbols[k])
      else Found(Opportunities(data.value, books, Symbols))
  }

  /** The trading pairs of syms, in order. */
  function PairsOf(syms: seq<Symbol>): (r: seq<string>)
    ensures |r| == |syms| && forall i :: 0 <= i < |syms| ==> r[i] == Pair(syms[i])
  {
    seq(|syms|, i requires 0 <= i < |syms| => Pair(syms[i]))
  }

  /**
   * The order-book requests one evaluation makes, in order: none without
   * market data; otherwise one per symbol up to the first unpriced one.
   */
  function Requests(data: Option<MarketData>): seq<string>
  {
    if NoMarketData(data) then [] else PairsOf(Symbols[..FirstUnpriced(data.value, Symbols)])
  }

  /**
   * One evaluation as the trader runs it: a loop over the asset list that
   * looks up the market price (an error that ends the whole evaluation when
   * the ticker is missing), requests the order book (a failure skips that
   * asset only) and applies the threshold.
   */
  method CalculateArbitrage(data: Option<MarketData>, books: Books) returns (e: Evaluation, requested: seq<string>)
    ensures e == Evaluate(data, books)
    ensures requested == Requests(data)
  {
    requested := [];
    if data.None? || |data.value| == 0 {
      return NoData, requested;
    }
    var prices := data.value;
    var opportunities: map<Symbol, Opportunity> := map[];
    for i := 0 to |Symbols|
      invariant forall j :: 0 <= j < i ==> Ticker(Symbols[j]) in prices
      invariant requested == PairsOf(Symbols[..i])
      invariant opportunities == Opportunities(prices, books, Symbols[..i])
    {
      var symbol := Symbols[i];
      if Ticker(symbol) !in prices {
        FirstUnpricedAt(prices, Symbols, i);
        return LookupFailed(symbol), requested;
      }
      var marketPrice := prices[Ticker(symbol)];
      requested := requested + [Pair(symbol)];
      assert Symbols[..i + 1] == Symbols[..i] + [symbol];
      OpportunitiesSnoc(prices, books, Symbols[..i], symbol);
      var reply := Reply(books, Pair(symbol));
      if reply.Book? {
        var bid := if |reply.bids| > 0 then Some(reply.bids[0].price) else None;
        var ask := if |reply.asks| > 0 then Some(reply.asks[0].price) else None;
        if bid.Some? && bid.value != 0.0 && ask.Some? && ask.value != 0.0 && marketPrice != 0.0 {
          var profitPotential := (bid.value - marketPrice) / marketPrice * 100.0;
          if profitPotential > 0.5 {
            opportunities := opportunities[symbol := Opportunity(profitPotential, marketPrice, bid.value, ask.value)];
          }
        }
      } else {
        // logs the order-book error for this symbol
      }
    }
    assert Symbols[..|Symbols|] == Symbols;
    FirstUnpricedAt(prices, Symbols, |Symbols|);
    e := Found(opportunities);
  }

  /** FirstUnpriced is the one position its contract describes. */
  lemma FirstUnpricedAt(prices: MarketData, syms: seq<Symbol>, i: nat)
    requires i <= |syms|
    requires forall j :: 0 <= j < i ==> Ticker(syms[j]) in prices
    requires i < |syms| ==> Ticker(syms[i]) !in prices
    ensures FirstUnpriced(prices, syms) == i
  {
  }

  /** Extending the symbol list by one symbol adds at most that symbol's opportunity. */
  lemma OpportunitiesSnoc(prices: MarketData, books: Books, syms: seq<Symbol>, s: Symbol)
    requires Ticker(s) in prices
    ensures Opportunities(prices, books, syms + [s]) ==
            var d := Decide(prices[Ticker(s)], Reply(books, Pair(s)));
            if d.Some? then Opportunities(prices, books, syms)[s := d.value]
            else Opportunities(prices, books, syms) - {s}
  {
  }

  /** Without market data nothing is evaluated and no order book is requested, whatever the venue says. */
  lemma NoDataShortCircuits(data: Option<MarketData>, books: Books)
    requires NoMarketData(data)
    ensures Evaluate(data, books) == NoData
    ensures Requests(data) == []
  {
  }

  /**
   * An asset is an opportunity exactly when the venue answered, its best bid,
   * its best ask and its market price are all non-zero, and the bid exceeds
   * the market price by more than the threshold, as a percentage of that
   * price; the record holds that percentage and the three prices unchanged.
   */
  lemma FoundOpportunity(data: Option<MarketData>, books: Books, s: Symbol)
    requires Evaluate(data, books).Found?
    ensures Requests(data) == PairsOf(Symbols)
    ensures s in Evaluate(data, books).opportunities ==> s in Symbols
    ensures s in Symbols ==> Ticker(s) in data.value
    ensures s in Symbols ==>
              var mp, reply := data.value[Ticker(s)], Reply(books, Pair(s));
              (s in Evaluate(data, books).opportunities <==>
                 && reply.Book? && |reply.bids| > 0 && |reply.asks| > 0
                 && reply.bids[0].price != 0.0 && reply.asks[0].price != 0.0 && mp != 0.0
                 && (reply.bids[0].price - mp) / mp * 100.0 > 0.5)
    ensures s in Evaluate(data, books).opportunities ==>
              var mp, reply := data.value[Ticker(s)], Reply(books, Pair(s));
              Evaluate(data, books).opportunities[s] ==
                Opportunity((reply.bids[0].price - mp) / mp * 100.0, mp, reply.bids[0].price, reply.asks[0].price)
  {
  }

  /**
   * A market price missing for one asset aborts the whole evaluation: the
   * error names the first such asset, no opportunity survives, and only the
   * order books of the assets before it were requested.
   */
  lemma LookupFailureAborts(data: Option<MarketData>, books: Books)
    ensures Evaluate(data, books).LookupFailed? <==>
              !NoMarketData(data) && exists s :: s in Symbols && Ticker(s) !in data.value
    ensures Evaluate(data, books).LookupFailed? ==>
              exists k :: 0 <= k < |Symbols| && Evaluate(data, books).symbol == Symbols[k] &&
                          Ticker(Symbols[k]) !in data.value &&
                          (forall j :: 0 <= j < k ==> Ticker(Symbols[j]) in data.value) &&
                          Requests(data) == PairsOf(Symbols[..k])
  {
  }

  /**
   * A failed order-book request for one asset removes only that asset: every
   * other asset is still evaluated with the same result.
   */
  lemma BookFailureIsolated(data: Option<MarketData>, books: Books, s: Symbol)
    requires s in Symbols
    ensures var e, e' := Evaluate(data, books), Evaluate(data, books[Pair(s) := BookError]);
            && e'.Found? == e.Found?
            && (e.Found? ==> e'.opportunities == e.opportunities - {s})
            && (!e.Found? ==> e' == e)
  {
  }

  /**
   * For a positive market price the threshold says that the best bid is more
   * than 0.5 percent above the market price.
   */
  lemma PremiumIff(marketPrice: real, bid: real)
    requires marketPrice > 0.0
    ensures ProfitPotential(bid, marketPrice) > Threshold <==> bid > marketPrice * 1.005
  {
  }

  /** A market price of 100 and a best bid of 100.6 give 0.6 percent: kept. */
  lemma AboveThresholdScenario()
    ensures Decide(100.0, Book([Level(100.6, 1.0)], [Level(101.0, 1.0)])) ==
            Some(Opportunity(0.6, 100.0, 100.6, 101.0))
  {
  }

  /** A market price of 100 and a best bid of 100.4 give 0.4 percent: dropped. */
  lemma BelowThresholdScenario()
    ensures Decide(100.0, Book([Level(100.4, 1.0)], [Level(101.0, 1.0)])) == None
  {
  }
}
