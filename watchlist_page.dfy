/** The watchlist page: a quote for every watchlist item (stocks quoted one
    by one, cryptos looked up in the top-cryptos listing), a chart of the
    selected asset and a timeframe selector for crypto charts. */
module WatchlistPage {
  import opened Wrappers
  import opened Seqs
  import opened MarketApi
  import opened WatchlistStore
  import opened Timeframe
  import opened Text

  function KindOf(q: Quote): AssetType
  {
    if q.Stock? then StockType else CryptoType
  }

  /** The per-item request: a stock's quote, or the listing entry with the
      crypto item's symbol (none when the listing lacks it). */
  function ResolveItem(net: Endpoints, item: WatchlistItem): (r: Result<Option<Quote>>)
    ensures r.Err? <==> (item.kind == StockType && GetStockQuote(net, item.symbol).Err?) ||
                        (item.kind == CryptoType && GetTopCryptos(net).Err?)
    ensures r.Ok? && r.value.Some? ==> r.value.value.Symbol() == item.symbol && KindOf(r.value.value) == item.kind
    ensures r.Ok? && item.kind == StockType ==> r.value == Some(Stock(GetStockQuote(net, item.symbol).value))
    ensures r.Ok? && r.value.None? <==>
              item.kind == CryptoType && GetTopCryptos(net).Ok? &&
              forall i :: 0 <= i < |GetTopCryptos(net).value| ==> GetTopCryptos(net).value[i].symbol != item.symbol
    ensures r.Ok? && item.kind == CryptoType && r.value.Some? ==>
              var cs := GetTopCryptos(net).value;
              exists j :: 0 <= j < |cs| && r.value.value == Crypto(cs[j]) &&
                          forall k :: 0 <= k < j ==> cs[k].symbol != item.symbol
  {
    match item.kind
    case StockType =>
      (match GetStockQuote(net, item.symbol)
       case Ok(q) => Ok(Some(Stock(q)))
       case Err(m) => Err(m))
    case CryptoType =>
      (match GetTopCryptos(net)
       case Ok(cs) =>
         var found := Find((c: CryptoQuote) => c.symbol == item.symbol, cs);
         if found.Some? then Ok(Some(Crypto(found.value))) else Ok(None)
       case Err(m) => Err(m))
  }

  /** The per-item requests, one per watchlist item. */
  function Requests(net: Endpoints, watchlist: seq<WatchlistItem>): (rs: seq<Result<Option<Quote>>>)
    ensures |rs| == |watchlist| && forall i :: 0 <= i < |watchlist| ==> rs[i] == ResolveItem(net, watchlist[i])
  {
    Map((item: WatchlistItem) => ResolveItem(net, item), watchlist)
  }

  /** `Promise.all` over the per-item requests, then `filter(Boolean)`. */
  function MergeAssets(net: Endpoints, watchlist: seq<WatchlistItem>): Result<seq<Quote>>
  {
    match All(Requests(net, watchlist))
    case Ok(found) => Ok(Somes(found))
    case Err(m) => Err(m)
  }

  function ItemSymbol(item: WatchlistItem): string
  {
    item.symbol
  }

  function QuoteSymbol(q: Quote): string
  {
    q.Symbol()
  }

  /** The merge fails exactly when one item's request does. */
  lemma {:induction false} MergeAssetsFails(net: Endpoints, watchlist: seq<WatchlistItem>)
    ensures MergeAssets(net, watchlist).Err? <==>
              exists i :: 0 <= i < |watchlist| &&
                ((watchlist[i].kind == StockType && GetStockQuote(net, watchlist[i].symbol).Err?) ||
                 (watchlist[i].kind == CryptoType && GetTopCryptos(net).Err?))
  {
    var rs := Requests(net, watchlist);
  }

  /** The merged assets follow watchlist order: their symbols are a
      subsequence of the items' symbols. */
  lemma {:induction false} MergeAssetsInOrder(net: Endpoints, watchlist: seq<WatchlistItem>)
    requires MergeAssets(net, watchlist).Ok?
    ensures |MergeAssets(net, watchlist).value| <= |watchlist|
    ensures IsSubsequence(Map(QuoteSymbol, MergeAssets(net, watchlist).value), Map(ItemSymbol, watchlist))
  {
    var found := All(Requests(net, watchlist)).value;
    assert forall i :: 0 <= i < |found| && found[i].Some? ==> QuoteSymbol(found[i].value) == ItemSymbol(watchlist[i]);
    SomesMapSubsequence(QuoteSymbol, ItemSymbol, found, watchlist);
  }

  /** Each merged asset has the symbol and kind of some watchlist item. */
  lemma {:induction false} MergeAssetsFromItems(net: Endpoints, watchlist: seq<WatchlistItem>)
    requires MergeAssets(net, watchlist).Ok?
    ensures var assets := MergeAssets(net, watchlist).value;
            forall j :: 0 <= j < |assets| ==>
              exists i :: 0 <= i < |watchlist| && watchlist[i].symbol == assets[j].Symbol() &&
                          watchlist[i].kind == KindOf(assets[j])
  {
    var found := All(Requests(net, watchlist)).value;
    var assets := Somes(found);
    forall j | 0 <= j < |assets|
      ensures exists i :: 0 <= i < |watchlist| && watchlist[i].symbol == assets[j].Symbol() &&
                          watchlist[i].kind == KindOf(assets[j])
    {
      var i :| 0 <= i < |found| && found[i] == Some(assets[j]);
      assert ResolveItem(net, watchlist[i]) == Ok(found[i]);
    }
  }

  /** No stock item is dropped: each one's quote is among the assets. */
  lemma {:induction false} MergeAssetsKeepsStocks(net: Endpoints, watchlist: seq<WatchlistItem>)
    requires MergeAssets(net, watchlist).Ok?
    ensures forall i :: 0 <= i < |watchlist| && watchlist[i].kind == StockType ==>
              Stock(GetStockQuote(net, watchlist[i].symbol).value) in MergeAssets(net, watchlist).value
  {
    var rs := Requests(net, watchlist);
    var found := All(rs).value;
    forall i | 0 <= i < |watchlist| && watchlist[i].kind == StockType
      ensures Stock(GetStockQuote(net, watchlist[i].symbol).value) in Somes(found)
    {
      assert ResolveItem(net, watchlist[i]) == Ok(found[i]);
      assert found[i] in found;
    }
  }

  /** No listed crypto item is dropped: the first listing entry with its
      symbol is among the assets. */
  lemma {:induction false} MergeAssetsKeepsListedCryptos(net: Endpoints, watchlist: seq<WatchlistItem>)
    requires MergeAssets(net, watchlist).Ok?
    ensures GetTopCryptos(net).Ok? ==>
              var cs := GetTopCryptos(net).value;
              var assets := MergeAssets(net, watchlist).value;
              forall i :: 0 <= i < |watchlist| && watchlist[i].kind == CryptoType &&
                          (exists j :: 0 <= j < |cs| && cs[j].symbol == watchlist[i].symbol) ==>
                exists j :: 0 <= j < |cs| && cs[j].symbol == watchlist[i].symbol && Crypto(cs[j]) in assets &&
                            forall k :: 0 <= k < j ==> cs[k].symbol != watchlist[i].symbol
  {
    if GetTopCryptos(net).Ok? {
      var cs := GetTopCryptos(net).value;
      var rs := Requests(net, watchlist);
      var found := All(rs).value;
      var assets := Somes(found);
      forall i | 0 <= i < |watchlist| && watchlist[i].kind == CryptoType &&
                 (exists j :: 0 <= j < |cs| && cs[j].symbol == watchlist[i].symbol)
        ensures exists j :: 0 <= j < |cs| && cs[j].symbol == watchlist[i].symbol && Crypto(cs[j]) in assets &&
                            forall k :: 0 <= k < j ==> cs[k].symbol != watchlist[i].symbol
      {
        var r := ResolveItem(net, watchlist[i]);
        assert r == Ok(found[i]);
        assert found[i].Some?;
        assert found[i].value in assets;
        var j :| 0 <= j < |cs| && r.value.value == Crypto(cs[j]) &&
                 forall k :: 0 <= k < j ==> cs[k].symbol != watchlist[i].symbol;
        assert cs[j].symbol == watchlist[i].symbol;
      }
    }
  }

  /** When every crypto item is listed, each item yields one asset, in order. */
  lemma {:induction false} MergeAssetsComplete(net: Endpoints, watchlist: seq<WatchlistItem>)
    requires MergeAssets(net, watchlist).Ok?
    requires forall i :: 0 <= i < |watchlist| ==> ResolveItem(net, watchlist[i]).value.Some?
    ensures var assets := MergeAssets(net, watchlist).value;
            && |assets| == |watchlist|
            && forall i :: 0 <= i < |watchlist| ==> assets[i] == ResolveItem(net, watchlist[i]).value.value
  {
    var rs := Requests(net, watchlist);
    var found := All(rs).value;
    assert forall i :: 0 <= i < |found| ==> found[i] == ResolveItem(net, watchlist[i]).value;
    assert forall i :: 0 <= i < |found| ==> found[i].Some?;
    assert MergeAssets(net, watchlist).value == Somes(found);
  }

  /** The chart request on first selection: the default stock history, or seven days of crypto history. */
  function InitialHistory(q: Quote, nowMs: int): (req: HistoryRequest)
    ensures q.Stock? ==> req == StockRange(DefaultHistoryQuery(q.Symbol(), nowMs))
    ensures q.Crypto? ==> req == CryptoChart(q.Symbol(), 7)
  {
    if q.Stock? then StockRange(DefaultHistoryQuery(q.Symbol(), nowMs)) else CryptoChart(q.Symbol(), 7)
  }

  /** The chart request when an asset is picked: crypto charts follow the timeframe, stock charts do not. */
  function SelectHistory(q: Quote, timeframe: string, nowMs: int): (req: HistoryRequest)
    ensures q.Stock? ==> req == StockRange(DefaultHistoryQuery(q.Symbol(), nowMs))
    ensures q.Crypto? ==> req == CryptoChart(q.Symbol(), DaysFor(timeframe))
  {
    if q.Stock? then StockRange(DefaultHistoryQuery(q.Symbol(), nowMs)) else CryptoChart(q.Symbol(), DaysFor(timeframe))
  }

  /** Picking an asset under the initial `7d` timeframe asks for the same chart as the automatic first selection. */
  lemma PickUnderInitialTimeframe(q: Quote, nowMs: int)
    ensures SelectHistory(q, "7d", nowMs) == InitialHistory(q, nowMs)
  {
  }

  /** The timeframe matters only for cryptos: a stock's chart request is the
      same under every timeframe, and a crypto's differs exactly when the two
      timeframes name different spans. */
  lemma {:induction false} TimeframeMattersOnlyForCryptos(q: Quote, t1: string, t2: string, nowMs: int)
    ensures q.Stock? ==> SelectHistory(q, t1, nowMs) == SelectHistory(q, t2, nowMs) == InitialHistory(q, nowMs)
    ensures q.Crypto? ==> (SelectHistory(q, t1, nowMs) == SelectHistory(q, t2, nowMs) <==> DaysFor(t1) == DaysFor(t2))
    ensures q.Crypto? ==> forall i, j :: 0 <= i < j < |Options| ==>
              SelectHistory(q, Options[i], nowMs) != SelectHistory(q, Options[j], nowMs)
  {
    OptionsMapToTheirSpans();
  }

  /** The sign shown with a quote's change: stocks count zero as a gain
      (`change >= 0`), cryptos do not (`priceChange24h > 0`). The colour and
      the `+` prefix both follow this test. */
  function ShowsGain(q: Quote): (gain: bool)
    ensures q.Stock? ==> (gain <==> q.stock.change >= 0.0)
    ensures q.Crypto? ==> (gain <==> q.crypto.priceChange24h > 0.0)
  {
    match q
    case Stock(s) => s.change >= 0.0
    case Crypto(c) => c.priceChange24h > 0.0
  }

  /** A listed crypto shows a gain exactly when the 24-hour change
      percentage of a listed coin with its ticker is positive; a stock exactly when its last bar closed at or
      above its open. */
  lemma {:induction false} GainFollowsTheMarketData(net: Endpoints, item: WatchlistItem)
    requires ResolveItem(net, item).Ok? && ResolveItem(net, item).value.Some?
    ensures var q := ResolveItem(net, item).value.value;
            && (q.Crypto? ==>
                  exists j :: 0 <= j < |net.markets.json.coins| &&
                              ToUpper(net.markets.json.coins[j].symbol) == item.symbol &&
                              (ShowsGain(q) <==> net.markets.json.coins[j].price_change_percentage_24h > 0.0))
            && (q.Stock? ==> (ShowsGain(q) <==> GetStockQuote(net, item.symbol).value.change >= 0.0))
  {
    var q := ResolveItem(net, item).value.value;
    if q.Crypto? {
      var cs := GetTopCryptos(net).value;
      var j :| 0 <= j < |cs| && q == Crypto(cs[j]);
      assert cs[j].priceChange24h == net.markets.json.coins[j].price_change_percentage_24h;
    }
  }

  /** An unchanged stock is shown as a gain, an unchanged crypto is not. */
  lemma ZeroChangeDiffersByKind(s: StockQuote, c: CryptoQuote)
    requires s.change == 0.0 && c.priceChange24h == 0.0
    ensures ShowsGain(Stock(s)) && !ShowsGain(Crypto(c))
  {
  }

  class WatchlistPageView {
    var assets: seq<Quote>
    var selectedAsset: Option<Quote>
    var chartData: seq<ChartPoint>
    var loading: bool
    var timeframe: string

    constructor ()
      ensures assets == [] && selectedAsset.None? && chartData == [] && loading && timeframe == "7d"
    {
      assets := [];
      selectedAsset := None;
      chartData := [];
      loading := true;
      timeframe := "7d";
    }

    /** `fetchWatchlistData`, run only for a signed-in user. An empty
        watchlist clears the assets; otherwise the merged assets replace them
        and, when nothing is selected yet, the first one is selected and its
        chart requested. Any failure keeps the earlier state; loading ends. */
    method FetchWatchlistData(signedIn: bool, watchlist: seq<WatchlistItem>, net: Endpoints, nowMs: int)
      modifies this`assets, this`selectedAsset, this`chartData, this`loading
      ensures !signedIn ==> assets == old(assets) && selectedAsset == old(selectedAsset) &&
                            chartData == old(chartData) && loading == old(loading)
      ensures signedIn ==> !loading
      ensures signedIn && |watchlist| == 0 ==>
                assets == [] && selectedAsset == old(selectedAsset) && chartData == old(chartData)
      ensures signedIn && |watchlist| > 0 && MergeAssets(net, watchlist).Err? ==>
                assets == old(assets) && selectedAsset == old(selectedAsset) && chartData == old(chartData)
      ensures signedIn && |watchlist| > 0 && MergeAssets(net, watchlist).Ok? ==>
                var merged := MergeAssets(net, watchlist).value;
                && assets == merged
                && (if |merged| > 0 && old(selectedAsset).None? then
                      && selectedAsset == Some(merged[0])
                      && var h := FetchHistory(net, InitialHistory(merged[0], nowMs));
                         chartData == if h.Ok? then h.value else old(chartData)
                    else selectedAsset == old(selectedAsset) && chartData == old(chartData))
    {
      if !signedIn {
        return;
      }
      if |watchlist| == 0 {
        assets := [];
        loading := false;
        return;
      }
      var merged := MergeAssets(net, watchlist);
      if merged.Ok? {
        assets := merged.value;
        if |merged.value| > 0 && selectedAsset.None? {
          selectedAsset := Some(merged.value[0]);
          var h := FetchHistory(net, InitialHistory(merged.value[0], nowMs));
          if h.Ok? {
            chartData := h.value;
          }
        }
      }
      loading := false;
    }

    /** `handleAssetSelect(asset)`. */
    method HandleAssetSelect(asset: Quote, net: Endpoints, nowMs: int)
      modifies this`selectedAsset, this`chartData
      ensures selectedAsset == Some(asset)
      ensures var h := FetchHistory(net, SelectHistory(asset, timeframe, nowMs));
              chartData == if h.Ok? then h.value else old(chartData)
    {
      selectedAsset := Some(asset);
      var h := FetchHistory(net, SelectHistory(asset, timeframe, nowMs));
      if h.Ok? {
        chartData := h.value;
      }
    }

    /** `handleTimeframeChange(value)`: only a selected crypto's chart is re-requested. */
    method HandleTimeframeChange(value: string, net: Endpoints)
      modifies this`timeframe, this`chartData
      ensures timeframe == value
      ensures selectedAsset.Some? && selectedAsset.value.Crypto? ==>
                var h := GetCryptoHistory(net, selectedAsset.value.Symbol(), DaysFor(value));
                chartData == if h.Ok? then h.value else old(chartData)
      ensures !(selectedAsset.Some? && selectedAsset.value.Crypto?) ==> chartData == old(chartData)
    {
      timeframe := value;
      if selectedAsset.Some? && selectedAsset.value.Crypto? {
        var h := GetCryptoHistory(net, selectedAsset.value.Symbol(), DaysFor(value));
        if h.Ok? {
          chartData := h.value;
        }
      }
    }
  }
}
