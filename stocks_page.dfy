/** The stock market page: quotes of five popular stocks, a search box
    whose hits replace the list, the chart of the selected stock and a
    timeframe selector. */
module StocksPage {
  import opened Wrappers
  import opened Seqs
  import opened MarketApi
  import WatchlistPage
  import AssetFilter

  const PopularSymbols: seq<string> := ["AAPL", "MSFT", "GOOGL", "AMZN", "META"]

  /** A row of the list: a quote from the initial fetch, or a search hit once
      a search has replaced the list. */
  datatype StockRow = QuoteRow(quote: StockQuote) | HitRow(hit: StockSearchHit)
  {
    function Symbol(): string
    {
      match this
      case QuoteRow(q) => q.symbol
      case HitRow(h) => h.symbol
    }
  }

  /** `Promise.all` over the popular symbols' quotes. */
  function PopularQuotes(net: Endpoints): Result<seq<StockQuote>>
  {
    All(Map((s: string) => GetStockQuote(net, s), PopularSymbols))
  }

  /** The initial fetch succeeds exactly when every popular symbol is quoted,
      and then yields five quotes in the listed order, so a first stock is
      always selected. */
  lemma {:induction false} PopularQuotesInOrder(net: Endpoints)
    ensures PopularQuotes(net).Ok? <==> forall i :: 0 <= i < |PopularSymbols| ==> GetStockQuote(net, PopularSymbols[i]).Ok?
    ensures PopularQuotes(net).Ok? ==>
              && |PopularQuotes(net).value| == |PopularSymbols| == 5
              && forall i :: 0 <= i < |PopularSymbols| ==> PopularQuotes(net).value[i].symbol == PopularSymbols[i]
  {
    var rs := Map((s: string) => GetStockQuote(net, s), PopularSymbols);
    assert forall i :: 0 <= i < |PopularSymbols| ==> rs[i] == GetStockQuote(net, PopularSymbols[i]);
  }

  /** The chart request for a row: always the default range, whatever the timeframe selector shows. */
  function RowHistory(row: StockRow, nowMs: int): (q: RangeQuery)
    ensures q == DefaultHistoryQuery(row.Symbol(), nowMs)
    ensures q.timespan == "minute" && q.multiplier == 5 && q.from == q.to - 1
  {
    DefaultHistoryQuery(row.Symbol(), nowMs)
  }

  /** The change cell's sign test, used for both colour and `+` prefix: a zero change counts as a gain. */
  function ShowsGain(q: StockQuote): (gain: bool)
    ensures gain <==> q.change >= 0.0
  {
    q.change >= 0.0
  }

  /** The stock page agrees with the watchlist page, and with the watchlist
      table on colour; unlike the table it writes `+` before a zero change. */
  lemma SignRuleAcrossViews(q: StockQuote)
    ensures ShowsGain(q) == WatchlistPage.ShowsGain(Stock(q))
    ensures ShowsGain(q) <==> AssetFilter.ChangeColour(q.change) == AssetFilter.Green
    ensures q.change == 0.0 ==> ShowsGain(q) && AssetFilter.ChangePrefix(q.change) == ""
  {
  }

  class StocksPageView {
    var stocks: seq<StockRow>
    var selectedStock: Option<StockRow>
    var chartData: seq<ChartPoint>
    var loading: bool
    var timeframe: string

    constructor ()
      ensures stocks == [] && selectedStock.None? && chartData == [] && loading && timeframe == "1mo"
    {
      stocks := [];
      selectedStock := None;
      chartData := [];
      loading := true;
      timeframe := "1mo";
    }

    /** `fetchStocks`, run on mount and on every poll: the five quotes
        replace the list and the first is selected with its chart. A failed
        quote keeps the earlier state. */
    method FetchStocks(net: Endpoints, nowMs: int)
      modifies this`stocks, this`selectedStock, this`chartData, this`loading
      ensures !loading
      ensures PopularQuotes(net).Err? ==>
                stocks == old(stocks) && selectedStock == old(selectedStock) && chartData == old(chartData)
      ensures PopularQuotes(net).Ok? ==>
                var data := PopularQuotes(net).value;
                && |stocks| == |data|
                && (forall i :: 0 <= i < |data| ==> stocks[i] == QuoteRow(data[i]))
                && selectedStock == Some(QuoteRow(data[0]))
                && var h := GetStockHistory(net, DefaultHistoryQuery(data[0].symbol, nowMs));
                   chartData == if h.Ok? then h.value else old(chartData)
    {
      PopularQuotesInOrder(net);
      var quotes := PopularQuotes(net);
      if quotes.Ok? {
        var data := quotes.value;
        stocks := Map((q: StockQuote) => QuoteRow(q), data);
        if |data| > 0 {
          selectedStock := Some(QuoteRow(data[0]));
          var h := GetStockHistory(net, RowHistory(QuoteRow(data[0]), nowMs));
          if h.Ok? {
            chartData := h.value;
          }
        }
      }
      loading := false;
    }

    /** `handleStockSelect(stock)`. */
    method HandleStockSelect(stock: StockRow, net: Endpoints, nowMs: int)
      modifies this`selectedStock, this`chartData
      ensures selectedStock == Some(stock)
      ensures var h := GetStockHistory(net, RowHistory(stock, nowMs));
              chartData == if h.Ok? then h.value else old(chartData)
    {
      selectedStock := Some(stock);
      var h := GetStockHistory(net, RowHistory(stock, nowMs));
      if h.Ok? {
        chartData := h.value;
      }
    }

    /** `handleSearch(query)`: an empty query does nothing; the hits replace
        the list but leave the selection and the chart alone. */
    method HandleSearch(query: string, net: Endpoints)
      modifies this`stocks
      ensures query == "" || SearchStocks(net, query).Err? ==> stocks == old(stocks)
      ensures query != "" && SearchStocks(net, query).Ok? ==>
                var hits := SearchStocks(net, query).value;
                |stocks| == |hits| && forall i :: 0 <= i < |hits| ==> stocks[i] == HitRow(hits[i])
    {
      if query == "" {
        return;
      }
      var results := SearchStocks(net, query);
      if results.Ok? {
        stocks := Map((h: StockSearchHit) => HitRow(h), results.value);
      }
    }

    /** The timeframe selector only records the choice; no chart is re-requested. */
    method SetTimeframe(value: string)
      modifies this`timeframe
      ensures timeframe == value
    {
      timeframe := value;
    }
  }
}
