/** The market-data client. Each operation sends one request to a provider
    (the stock aggregates service or the crypto aggregator) and maps the
    JSON reply into the application's records. Providers are modelled by
    `Endpoints`: one total function per endpoint from the request's
    parameters to the parsed reply, so a value of `Endpoints` is one snapshot
    of what the providers would answer. */
module MarketApi {
  import opened Wrappers
  import opened Text
  import opened Seqs

  /** A provider reply: the parsed body, or a `fetch`/`json()` that threw. */
  datatype Reply<J> = Body(json: J) | NetworkFailure(message: string)

  // ---- Provider JSON shapes (only the fields the client reads) ----

  /** One previous-day aggregate bar: ticker `T`, close `c`, open `o`, volume `v`. */
  datatype PrevBar = PrevBar(T: string, c: real, o: real, v: real)
  datatype PrevJson = PrevJson(results: Option<seq<PrevBar>>)

  /** One candle of a ranged aggregate: start time `t` in epoch ms and close `c`. */
  datatype Candle = Candle(t: int, c: real)
  datatype RangeJson = RangeJson(results: Option<seq<Candle>>)

  datatype TickerJson = TickerJson(ticker: string, name: string, market: string, primary_exchange: string)
  datatype TickersJson = TickersJson(results: Option<seq<TickerJson>>)

  datatype CoinJson = CoinJson(symbol: string, name: string, current_price: real,
                               total_volume: real, price_change_percentage_24h: real)
  /** The markets listing is an array of coins; an error reply is an object, on which `map` throws. */
  datatype MarketsJson = CoinList(coins: seq<CoinJson>) | NotAList

  /** `prices` is a list of `[timestamp, price]` pairs. */
  datatype MarketChartJson = MarketChartJson(prices: Option<seq<(int, real)>>)

  datatype SearchCoin = SearchCoin(id: string)
  datatype SearchJson = SearchJson(coins: Option<seq<SearchCoin>>)

  /** A coin detail reply; `Malformed` when `market_data` is missing and reading it throws. */
  datatype CoinDetailJson =
    | CoinDetail(symbol: string, name: string, usd_price: real, usd_volume: real, price_change_percentage_24h: real)
    | Malformed

  datatype GlobalData = GlobalData(total_market_cap_usd: real, total_volume_usd: real, btc_percentage: real,
                                   active_cryptocurrencies: int, market_cap_change_percentage_24h_usd: real,
                                   btc_dominance_24h: Option<real>, markets_change_24h: Option<real>)
  datatype GlobalJson = GlobalJson(data: Option<GlobalData>)

  /** The request of `getStockHistory`: symbol, timespan, multiplier and the
      from/to dates as UTC day numbers. */
  datatype RangeQuery = RangeQuery(symbol: string, timespan: string, multiplier: int, from: int, to: int)

  datatype Endpoints = Endpoints(
    prevAggregate: string -> Reply<PrevJson>,
    rangeAggregates: RangeQuery -> Reply<RangeJson>,
    tickers: string -> Reply<TickersJson>,
    markets: Reply<MarketsJson>,
    marketChart: (string, int) -> Reply<MarketChartJson>,
    search: string -> Reply<SearchJson>,
    coin: string -> Reply<CoinDetailJson>,
    global: Reply<GlobalJson>)

  // ---- The application's records ----

  datatype StockQuote = StockQuote(symbol: string, name: string, price: real, volume: real, change: real)
  datatype CryptoQuote = CryptoQuote(symbol: string, name: string, price: real, volume24h: real, priceChange24h: real)

  /** A quote with its `type` discriminator, `'stock'` or `'crypto'`. */
  datatype Quote = Stock(stock: StockQuote) | Crypto(crypto: CryptoQuote)
  {
    function Symbol(): string
    {
      match this
      case Stock(q) => q.symbol
      case Crypto(q) => q.symbol
    }
  }

  datatype StockSearchHit = StockSearchHit(symbol: string, name: string, market: string, exchange: string)

  /** Stock candles carry an ISO time string, crypto points the raw epoch ms;
      both are kept here as the epoch ms they denote. */
  datatype Timestamp = IsoTime(ms: int) | EpochMs(ms: int)
  datatype ChartPoint = ChartPoint(timestamp: Timestamp, price: real)

  datatype MarketStats = MarketStats(totalMarketCap: real, total24hVolume: real, btcDominance: real,
                                     activeCryptocurrencies: int, marketCapChange24h: real,
                                     btcDominanceChange24h: real, activeMarketsChange24h: real)

  const QuoteFailure: string := "Failed to fetch stock quote"
  const ShapeFailure: string := "TypeError"
  const DayMs: int := 24 * 60 * 60 * 1000
  const MaxCryptoSearchHits: nat := 10

  // ---- Operations ----

  /** `getStockQuote(symbol)`: the first previous-day bar, or an error. */
  function GetStockQuote(net: Endpoints, symbol: string): (r: Result<StockQuote>)
    ensures r.Ok? <==> net.prevAggregate(symbol).Body? &&
                       net.prevAggregate(symbol).json.results.Some? &&
                       |net.prevAggregate(symbol).json.results.value| > 0
    ensures r.Ok? ==>
              var bar := net.prevAggregate(symbol).json.results.value[0];
              && r.value.symbol == symbol
              && r.value.name == bar.T
              && r.value.price == bar.c
              && r.value.volume == bar.v
              && r.value.price - r.value.change == bar.o
    ensures net.prevAggregate(symbol).Body? && r.Err? ==> r.message == QuoteFailure
  {
    match net.prevAggregate(symbol)
    case NetworkFailure(m) => Err(m)
    case Body(j) =>
      if j.results.Some? && |j.results.value| > 0 then
        var bar := j.results.value[0];
        Ok(StockQuote(symbol, bar.T, bar.c, bar.v, bar.c - bar.o))
      else Err(QuoteFailure)
  }

  /** The UTC day number of an epoch-ms instant (the date part of its ISO string). */
  function DayOf(ms: int): int
  {
    ms / DayMs
  }

  /** `getStockHistory(symbol)` with its defaults: 5-minute candles from
      yesterday to today, relative to the clock reading `nowMs`. */
  function DefaultHistoryQuery(symbol: string, nowMs: int): (q: RangeQuery)
    ensures q.symbol == symbol && q.timespan == "minute" && q.multiplier == 5
    ensures q.from == q.to - 1 && q.to == DayOf(nowMs)
  {
    RangeQuery(symbol, "minute", 5, DayOf(nowMs - DayMs), DayOf(nowMs))
  }

  function CandlePoint(c: Candle): ChartPoint
  {
    ChartPoint(IsoTime(c.t), c.c)
  }

  /** `getStockHistory`: one point per candle, or `[]` when there are no results. */
  function GetStockHistory(net: Endpoints, q: RangeQuery): (r: Result<seq<ChartPoint>>)
    ensures r.Err? <==> net.rangeAggregates(q).NetworkFailure?
    ensures r.Ok? && net.rangeAggregates(q).json.results.None? ==> r.value == []
    ensures r.Ok? && net.rangeAggregates(q).json.results.Some? ==>
              var candles := net.rangeAggregates(q).json.results.value;
              && |r.value| == |candles|
              && forall i :: 0 <= i < |candles| ==>
                   r.value[i].price == candles[i].c && r.value[i].timestamp.ms == candles[i].t
  {
    match net.rangeAggregates(q)
    case NetworkFailure(m) => Err(m)
    case Body(j) =>
      if j.results.Some? then Ok(Map(CandlePoint, j.results.value)) else Ok([])
  }

  function TickerHit(t: TickerJson): StockSearchHit
  {
    StockSearchHit(t.ticker, t.name, t.market, t.primary_exchange)
  }

  /** `searchStocks(query)`: ticker to symbol, market to type, primary exchange to exchange. */
  function SearchStocks(net: Endpoints, query: string): (r: Result<seq<StockSearchHit>>)
    ensures r.Err? <==> net.tickers(query).NetworkFailure?
    ensures r.Ok? && net.tickers(query).json.results.None? ==> r.value == []
    ensures r.Ok? && net.tickers(query).json.results.Some? ==>
              var ts := net.tickers(query).json.results.value;
              && |r.value| == |ts|
              && forall i :: 0 <= i < |ts| ==>
                   && r.value[i].symbol == ts[i].ticker && r.value[i].name == ts[i].name
                   && r.value[i].market == ts[i].market && r.value[i].exchange == ts[i].primary_exchange
  {
    match net.tickers(query)
    case NetworkFailure(m) => Err(m)
    case Body(j) =>
      if j.results.Some? then Ok(Map(TickerHit, j.results.value)) else Ok([])
  }

  function CoinQuote(c: CoinJson): CryptoQuote
  {
    CryptoQuote(ToUpper(c.symbol), c.name, c.current_price, c.total_volume, c.price_change_percentage_24h)
  }

  /** `getTopCryptos()`: one quote per listed coin, in listing order, symbol upper-cased. */
  function GetTopCryptos(net: Endpoints): (r: Result<seq<CryptoQuote>>)
    ensures r.Ok? <==> net.markets.Body? && net.markets.json.CoinList?
    ensures r.Ok? ==>
              var coins := net.markets.json.coins;
              && |r.value| == |coins|
              && forall i :: 0 <= i < |coins| ==>
                   && r.value[i].symbol == ToUpper(coins[i].symbol) && r.value[i].name == coins[i].name
                   && r.value[i].price == coins[i].current_price && r.value[i].volume24h == coins[i].total_volume
                   && r.value[i].priceChange24h == coins[i].price_change_percentage_24h
  {
    match net.markets
    case NetworkFailure(m) => Err(m)
    case Body(NotAList) => Err(ShapeFailure)
    case Body(CoinList(coins)) => Ok(Map(CoinQuote, coins))
  }

  function PricePoint(p: (int, real)): ChartPoint
  {
    ChartPoint(EpochMs(p.0), p.1)
  }

  /** `getCryptoHistory(symbol, days)`: the chart is requested for the
      lower-cased symbol; each `[timestamp, price]` pair becomes one point. */
  function GetCryptoHistory(net: Endpoints, symbol: string, days: int): (r: Result<seq<ChartPoint>>)
    ensures var reply := net.marketChart(ToLower(symbol), days);
            && (r.Ok? <==> reply.Body? && reply.json.prices.Some?)
            && (r.Ok? ==>
                  && |r.value| == |reply.json.prices.value|
                  && forall i :: 0 <= i < |r.value| ==>
                       r.value[i] == ChartPoint(EpochMs(reply.json.prices.value[i].0), reply.json.prices.value[i].1))
  {
    match net.marketChart(ToLower(symbol), days)
    case NetworkFailure(m) => Err(m)
    case Body(j) =>
      if j.prices.Some? then Ok(Map(PricePoint, j.prices.value)) else Err(ShapeFailure)
  }

  /** The per-hit detail request of `searchCryptos`. */
  function CoinDetailQuote(net: Endpoints, id: string): Result<CryptoQuote>
  {
    match net.coin(id)
    case NetworkFailure(m) => Err(m)
    case Body(Malformed) => Err(ShapeFailure)
    case Body(CoinDetail(sym, name, price, volume, change)) => Ok(CryptoQuote(ToUpper(sym), name, price, volume, change))
  }

  function Take<T>(s: seq<T>, n: nat): (r: seq<T>)
    ensures |r| == if |s| < n then |s| else n
    ensures r == s[..|r|]
  {
    if |s| <= n then s else s[..n]
  }

  /** `searchCryptos(query)`: details for the first ten hits, in hit order;
      one failing detail request fails the whole search. */
  function SearchCryptos(net: Endpoints, query: string): (r: Result<seq<CryptoQuote>>)
    ensures r.Ok? <==>
              && net.search(query).Body? && net.search(query).json.coins.Some?
              && forall i :: 0 <= i < |Take(net.search(query).json.coins.value, MaxCryptoSearchHits)| ==>
                   CoinDetailQuote(net, net.search(query).json.coins.value[i].id).Ok?
    ensures r.Ok? ==>
              var hits := net.search(query).json.coins.value;
              && |r.value| <= MaxCryptoSearchHits
              && |r.value| == |Take(hits, MaxCryptoSearchHits)|
              && forall i :: 0 <= i < |r.value| ==> CoinDetailQuote(net, hits[i].id) == Ok(r.value[i])
    ensures r.Ok? ==> forall i :: 0 <= i < |r.value| ==> r.value[i].symbol == ToUpper(r.value[i].symbol)
  {
    match net.search(query)
    case NetworkFailure(m) => Err(m)
    case Body(j) =>
      if j.coins.None? then Err(ShapeFailure)
      else
        var hits := Take(j.coins.value, MaxCryptoSearchHits);
        var r := All(Map((h: SearchCoin) => CoinDetailQuote(net, h.id), hits));
        if r.Ok? then
          forall i | 0 <= i < |r.value| ensures r.value[i].symbol == ToUpper(r.value[i].symbol) {
            UpperIdempotent(net.coin(hits[i].id).json.symbol);
          }
          r
        else r
  }

  lemma UpperIdempotent(s: string)
    ensures ToUpper(ToUpper(s)) == ToUpper(s)
  {
  }

  function OrZero(x: Option<real>): real
  {
    if x.Some? then x.value else 0.0
  }

  /** `getMarketStats()`: a failed request or a reply without `data` is rethrown;
      the two optional change figures default to zero. */
  function GetMarketStats(net: Endpoints): (r: Result<MarketStats>)
    ensures r.Ok? <==> net.global.Body? && net.global.json.data.Some?
    ensures r.Ok? ==>
              var d := net.global.json.data.value;
              && r.value.totalMarketCap == d.total_market_cap_usd
              && r.value.total24hVolume == d.total_volume_usd
              && r.value.btcDominance == d.btc_percentage
              && r.value.activeCryptocurrencies == d.active_cryptocurrencies
              && r.value.marketCapChange24h == d.market_cap_change_percentage_24h_usd
              && (d.btc_dominance_24h.None? ==> r.value.btcDominanceChange24h == 0.0)
              && (d.btc_dominance_24h.Some? ==> r.value.btcDominanceChange24h == d.btc_dominance_24h.value)
              && (d.markets_change_24h.None? ==> r.value.activeMarketsChange24h == 0.0)
              && (d.markets_change_24h.Some? ==> r.value.activeMarketsChange24h == d.markets_change_24h.value)
    ensures net.global.NetworkFailure? ==> r == Err(net.global.message)
  {
    match net.global
    case NetworkFailure(m) => Err(m)
    case Body(j) =>
      if j.data.None? then Err(ShapeFailure)
      else
        var d := j.data.value;
        Ok(MarketStats(d.total_market_cap_usd, d.total_volume_usd, d.btc_percentage, d.active_cryptocurrencies,
                       d.market_cap_change_percentage_24h_usd, OrZero(d.btc_dominance_24h), OrZero(d.markets_change_24h)))
  }

  /** A history request as the pages issue it: a stock range query, or a
      crypto chart for a symbol and a number of days. */
  datatype HistoryRequest = StockRange(query: RangeQuery) | CryptoChart(symbol: string, days: int)

  /** The chart data one history request yields. */
  function FetchHistory(net: Endpoints, req: HistoryRequest): Result<seq<ChartPoint>>
  {
    match req
    case StockRange(q) => GetStockHistory(net, q)
    case CryptoChart(symbol, days) => GetCryptoHistory(net, symbol, days)
  }

  /** A quote's change is non-negative exactly when the bar closed at or above its open. */
  lemma {:induction false} StockChangeSign(net: Endpoints, symbol: string)
    requires GetStockQuote(net, symbol).Ok?
    ensures var bar := net.prevAggregate(symbol).json.results.value[0];
            GetStockQuote(net, symbol).value.change >= 0.0 <==> bar.c >= bar.o
  {
  }

  /** Every listed coin's quote keeps its symbol up to case. */
  lemma {:induction false} TopCryptoSymbolsUpperCased(net: Endpoints)
    requires GetTopCryptos(net).Ok?
    ensures forall i :: 0 <= i < |GetTopCryptos(net).value| ==>
              ToUpper(GetTopCryptos(net).value[i].symbol) == GetTopCryptos(net).value[i].symbol &&
              ToLower(GetTopCryptos(net).value[i].symbol) == ToLower(net.markets.json.coins[i].symbol)
  {
    var qs := GetTopCryptos(net).value;
    forall i | 0 <= i < |qs|
      ensures ToUpper(qs[i].symbol) == qs[i].symbol && ToLower(qs[i].symbol) == ToLower(net.markets.json.coins[i].symbol)
    {
      UpperIdempotent(net.markets.json.coins[i].symbol);
      LowerOfUpper(net.markets.json.coins[i].symbol);
    }
  }
}
