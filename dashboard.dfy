/** The main dashboard page: top cryptos and the quotes of the watchlist's
    stocks, a search box over stocks or cryptos, a chart of the selected
    symbol, and a star that adds a symbol to the watchlist or removes it. */
module Dashboard {
  import opened Wrappers
  import opened Seqs
  import opened MarketApi
  import opened WatchlistStore
  import opened Timeframe
  import WatchlistPage

  /** The search box's target, `'stocks'` or `'crypto'`. */
  datatype SearchType = StocksSearch | CryptoSearch

  /** A search result: a stock hit or a crypto quote, depending on the target. */
  datatype SearchResult = StockResult(hit: StockSearchHit) | CryptoResult(quote: CryptoQuote)

  /** `watchlist.some(item => item.symbol === symbol)`. */
  function IsInWatchlist(watchlist: seq<WatchlistItem>, symbol: string): (r: bool)
    ensures r <==> exists i :: 0 <= i < |watchlist| && watchlist[i].symbol == symbol
  {
    if watchlist == [] then false
    else watchlist[0].symbol == symbol || IsInWatchlist(watchlist[1..], symbol)
  }

  predicate IsStockItem(item: WatchlistItem)
  {
    item.kind == StockType
  }

  function ItemSymbol(item: WatchlistItem): string
  {
    item.symbol
  }

  /** The symbols whose quotes the page requests: the stock items', in watchlist order. */
  function StockSymbols(watchlist: seq<WatchlistItem>): seq<string>
  {
    Map(ItemSymbol, Filter(IsStockItem, watchlist))
  }

  /** The requested symbols are the stock items' symbols, in order: a
      subsequence of the watchlist's symbols that names every stock item, one
      symbol per stock item. */
  lemma {:induction false} StockSymbolsAreTheStockItems(watchlist: seq<WatchlistItem>)
    ensures IsSubsequence(StockSymbols(watchlist), Map(ItemSymbol, watchlist))
    ensures forall i :: 0 <= i < |StockSymbols(watchlist)| ==>
              exists j :: 0 <= j < |watchlist| && IsStockItem(watchlist[j]) && watchlist[j].symbol == StockSymbols(watchlist)[i]
    ensures forall j :: 0 <= j < |watchlist| && IsStockItem(watchlist[j]) ==> watchlist[j].symbol in StockSymbols(watchlist)
    ensures |StockSymbols(watchlist)| == |Filter(IsStockItem, watchlist)|
    ensures forall i :: 0 <= i < |StockSymbols(watchlist)| ==>
              StockSymbols(watchlist)[i] == Filter(IsStockItem, watchlist)[i].symbol
  {
    var stocks := Filter(IsStockItem, watchlist);
    FilterIsSubsequence(IsStockItem, watchlist);
    MapPreservesSubsequence(ItemSymbol, stocks, watchlist);
    forall i | 0 <= i < |StockSymbols(watchlist)|
      ensures exists j :: 0 <= j < |watchlist| && IsStockItem(watchlist[j]) && watchlist[j].symbol == StockSymbols(watchlist)[i]
    {
      var j :| 0 <= j < |watchlist| && watchlist[j] == stocks[i];
    }
    forall j | 0 <= j < |watchlist| && IsStockItem(watchlist[j])
      ensures watchlist[j].symbol in StockSymbols(watchlist)
    {
      var k :| 0 <= k < |stocks| && stocks[k] == watchlist[j];
      assert StockSymbols(watchlist)[k] == watchlist[j].symbol;
    }
  }

  /** `Promise.all` over the stock items' quote requests. */
  function WatchlistStockQuotes(watchlist: seq<WatchlistItem>, net: Endpoints): Result<seq<StockQuote>>
  {
    All(Map((s: string) => GetStockQuote(net, s), StockSymbols(watchlist)))
  }

  /** The quotes, when they all arrive, are one per stock item, in order;
      a single failed quote fails them all. */
  lemma {:induction false} WatchlistStockQuotesInOrder(watchlist: seq<WatchlistItem>, net: Endpoints)
    ensures WatchlistStockQuotes(watchlist, net).Ok? <==>
              forall i :: 0 <= i < |StockSymbols(watchlist)| ==> GetStockQuote(net, StockSymbols(watchlist)[i]).Ok?
    ensures WatchlistStockQuotes(watchlist, net).Ok? ==>
              var qs := WatchlistStockQuotes(watchlist, net).value;
              && |qs| == |StockSymbols(watchlist)|
              && (forall i :: 0 <= i < |qs| ==> qs[i] == GetStockQuote(net, StockSymbols(watchlist)[i]).value)
              && (forall i :: 0 <= i < |qs| ==> qs[i].symbol == StockSymbols(watchlist)[i])
  {
    var syms := StockSymbols(watchlist);
    var rs := Map((s: string) => GetStockQuote(net, s), syms);
    assert forall i :: 0 <= i < |syms| ==> rs[i] == GetStockQuote(net, syms[i]);
  }

  /** What the star does for a symbol: remove it when it is listed, add it otherwise. */
  function ToggledTable(table: seq<WatchlistItem>, userId: Option<string>, watchlist: seq<WatchlistItem>,
                        symbol: string, kind: AssetType, id: string, createdAt: int): seq<WatchlistItem>
  {
    if IsInWatchlist(watchlist, symbol) then Delete(table, UserFilter(userId), symbol)
    else Insert(table, WatchlistItem(id, userId, symbol, kind, createdAt))
  }

  /** When the hook's view is the user's current rows, one press of the star
      flips whether the symbol is in the user's next load. */
  lemma {:induction false} ToggleFlipsMembership(table: seq<WatchlistItem>, uid: string, symbol: string,
                                                 kind: AssetType, id: string, createdAt: int)
    ensures var before := Load(table, uid);
            IsInWatchlist(Load(ToggledTable(table, Some(uid), before, symbol, kind, id, createdAt), uid), symbol)
              == !IsInWatchlist(before, symbol)
  {
    var before := Load(table, uid);
    var after := Load(ToggledTable(table, Some(uid), before, symbol, kind, id, createdAt), uid);
    if IsInWatchlist(before, symbol) {
      DeleteThenLoad(table, uid, symbol);
      assert forall i :: 0 <= i < |after| ==> after[i] in after;
    } else {
      var row := WatchlistItem(id, Some(uid), symbol, kind, createdAt);
      InsertThenLoad(table, row, uid);
      var i :| 0 <= i < |after| && after[i] == row;
    }
  }

  /** The page's search request for a non-empty query. */
  function SearchFor(net: Endpoints, query: string, searchType: SearchType): Result<seq<SearchResult>>
  {
    match searchType
    case StocksSearch =>
      (match SearchStocks(net, query)
       case Ok(hits) => Ok(Map(h => StockResult(h), hits))
       case Err(m) => Err(m))
    case CryptoSearch =>
      (match SearchCryptos(net, query)
       case Ok(qs) => Ok(Map(q => CryptoResult(q), qs))
       case Err(m) => Err(m))
  }

  /** Results are all of the searched kind, one per provider result, in order. */
  lemma {:induction false} SearchResultsMatchTarget(net: Endpoints, query: string, searchType: SearchType)
    requires SearchFor(net, query, searchType).Ok?
    ensures var rs := SearchFor(net, query, searchType).value;
            && (searchType == StocksSearch ==>
                  SearchStocks(net, query).Ok? && |rs| == |SearchStocks(net, query).value| &&
                  forall i :: 0 <= i < |rs| ==> rs[i] == StockResult(SearchStocks(net, query).value[i]))
            && (searchType == CryptoSearch ==>
                  SearchCryptos(net, query).Ok? && |rs| == |SearchCryptos(net, query).value| &&
                  forall i :: 0 <= i < |rs| ==> rs[i] == CryptoResult(SearchCryptos(net, query).value[i]))
  {
  }

  /** The chart request for a selected symbol: the default stock history, or one day of crypto history. */
  function SelectionHistory(symbol: string, kind: AssetType, nowMs: int): (req: HistoryRequest)
    ensures kind == StockType ==> req.StockRange? && req.query == DefaultHistoryQuery(symbol, nowMs)
    ensures kind == CryptoType ==> req == CryptoChart(symbol, 1)
  {
    if kind == StockType then StockRange(DefaultHistoryQuery(symbol, nowMs)) else CryptoChart(symbol, 1)
  }

  /** The dashboard charts a selected asset as the watchlist page does under
      its `24h` timeframe: one day of a crypto, the default range of a stock. */
  lemma {:induction false} SelectionIsTheDayChart(q: Quote, nowMs: int)
    ensures SelectionHistory(q.Symbol(), WatchlistPage.KindOf(q), nowMs) == WatchlistPage.SelectHistory(q, "24h", nowMs)
    ensures q.Crypto? ==> SelectionHistory(q.Symbol(), CryptoType, nowMs).days == DaysFor(Options[0])
  {
    assert Options[0] == "24h";
  }

  class DashboardView {
    var stockQuotes: seq<StockQuote>
    var cryptoQuotes: seq<CryptoQuote>
    var chartData: seq<ChartPoint>
    var selectedSymbol: string
    var loading: bool
    var searchResults: seq<SearchResult>
    var searchType: SearchType

    constructor ()
      ensures stockQuotes == [] && cryptoQuotes == [] && chartData == [] && selectedSymbol == ""
      ensures loading && searchResults == [] && searchType == StocksSearch
    {
      stockQuotes := [];
      cryptoQuotes := [];
      chartData := [];
      selectedSymbol := "";
      loading := true;
      searchResults := [];
      searchType := StocksSearch;
    }

    /** `fetchInitialData`, run whenever the watchlist changes: top cryptos
        first; then, for a non-empty watchlist, the quotes of its stocks. A
        failure keeps what was already set and ends loading. */
    method FetchInitialData(watchlist: seq<WatchlistItem>, net: Endpoints)
      modifies this`stockQuotes, this`cryptoQuotes, this`loading
      ensures !loading
      ensures GetTopCryptos(net).Err? ==> cryptoQuotes == old(cryptoQuotes) && stockQuotes == old(stockQuotes)
      ensures GetTopCryptos(net).Ok? ==> cryptoQuotes == GetTopCryptos(net).value
      ensures GetTopCryptos(net).Ok? && |watchlist| > 0 && WatchlistStockQuotes(watchlist, net).Ok? ==>
                stockQuotes == WatchlistStockQuotes(watchlist, net).value
      ensures |watchlist| == 0 || WatchlistStockQuotes(watchlist, net).Err? ==> stockQuotes == old(stockQuotes)
    {
      var cryptos := GetTopCryptos(net);
      if cryptos.Ok? {
        cryptoQuotes := cryptos.value;
        if |watchlist| > 0 {
          var stocks := WatchlistStockQuotes(watchlist, net);
          if stocks.Ok? {
            stockQuotes := stocks.value;
          }
        }
      }
      loading := false;
    }

    /** `handleSearch(query)`: an empty query clears the results; a failed
        search leaves them as they were. */
    method HandleSearch(query: string, net: Endpoints)
      modifies this`searchResults
      ensures query == "" ==> searchResults == []
      ensures query != "" && SearchFor(net, query, searchType).Ok? ==> searchResults == SearchFor(net, query, searchType).value
      ensures query != "" && SearchFor(net, query, searchType).Err? ==> searchResults == old(searchResults)
    {
      if query == "" {
        searchResults := [];
        return;
      }
      var results := SearchFor(net, query, searchType);
      if results.Ok? {
        searchResults := results.value;
      }
    }

    /** `setSearchType`. */
    method SetSearchType(t: SearchType)
      modifies this`searchType
      ensures searchType == t
    {
      searchType := t;
    }

    /** `handleSymbolSelect(symbol, type)`: the symbol is selected at once;
        the chart is replaced only when its history arrives. */
    method HandleSymbolSelect(symbol: string, kind: AssetType, net: Endpoints, nowMs: int)
      modifies this`selectedSymbol, this`chartData
      ensures selectedSymbol == symbol
      ensures var h := FetchHistory(net, SelectionHistory(symbol, kind, nowMs));
              chartData == if h.Ok? then h.value else old(chartData)
    {
      selectedSymbol := symbol;
      var h := FetchHistory(net, SelectionHistory(symbol, kind, nowMs));
      if h.Ok? {
        chartData := h.value;
      }
    }

    /** `toggleWatchlist(symbol, type)`: exactly one mutation, chosen by the
        hook's current view; a rejected mutation is caught. */
    method ToggleWatchlist(hook: WatchlistHook, symbol: string, kind: AssetType, id: string, createdAt: int,
                           outcome: MutationOutcome)
      modifies hook`table, hook`error
      ensures outcome.Applied? ==>
                hook.table == ToggledTable(old(hook.table), hook.userId, hook.watchlist, symbol, kind, id, createdAt)
      ensures outcome.Rejected? ==> hook.table == old(hook.table)
      ensures outcome.Applied? ==> hook.error == old(hook.error)
      ensures outcome.Rejected? ==> hook.error == Some(ErrorMessage(outcome.err))
      ensures hook.watchlist == old(hook.watchlist)
    {
      var thrown;
      if IsInWatchlist(hook.watchlist, symbol) {
        thrown := hook.RemoveFromWatchlist(symbol, outcome);
      } else {
        thrown := hook.AddToWatchlist(symbol, kind, id, createdAt, outcome);
      }
    }
  }
}
