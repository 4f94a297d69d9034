/** The crypto markets page: the top-cryptos listing, the chart of the
    selected coin and a timeframe selector. */
module CryptoPage {
  import opened Wrappers
  import opened Text
  import opened MarketApi
  import opened Timeframe
  import WatchlistPage

  /** Days of history requested for the automatic first selection. */
  const InitialDays: int := 7

  /** The change cell's sign test, used for both its colour and its `+` prefix:
      a zero change counts as a loss. */
  function ShowsGain(c: CryptoQuote): (gain: bool)
    ensures gain <==> c.priceChange24h > 0.0
  {
    c.priceChange24h > 0.0
  }

  /** The markets page and the watchlist page colour a crypto the same way. */
  lemma SameRuleAsWatchlistPage(c: CryptoQuote)
    ensures ShowsGain(c) == WatchlistPage.ShowsGain(Crypto(c))
  {
  }

  /** The first chart is requested from the market-chart endpoint for the
      first listed coin's lower-cased ticker symbol over seven days, the span
      the initial `7d` timeframe names, and it is the chart the watchlist page
      first requests for that coin. */
  lemma {:induction false} FirstChartRequest(net: Endpoints, nowMs: int)
    requires GetTopCryptos(net).Ok? && |GetTopCryptos(net).value| > 0
    ensures var first := GetTopCryptos(net).value[0];
            var reply := net.marketChart(ToLower(net.markets.json.coins[0].symbol), 7);
            && (GetCryptoHistory(net, first.symbol, InitialDays).Ok? <==> reply.Body? && reply.json.prices.Some?)
            && (GetCryptoHistory(net, first.symbol, InitialDays).Ok? ==>
                  |GetCryptoHistory(net, first.symbol, InitialDays).value| == |reply.json.prices.value|)
            && InitialDays == DaysFor("7d")
            && FetchHistory(net, WatchlistPage.InitialHistory(Crypto(first), nowMs)) ==
                 GetCryptoHistory(net, first.symbol, InitialDays)
  {
    TopCryptoSymbolsUpperCased(net);
  }

  class CryptoPageView {
    var cryptos: seq<CryptoQuote>
    var selectedCrypto: Option<CryptoQuote>
    var chartData: seq<ChartPoint>
    var loading: bool
    var timeframe: string

    constructor ()
      ensures cryptos == [] && selectedCrypto.None? && chartData == [] && loading && timeframe == "7d"
    {
      cryptos := [];
      selectedCrypto := None;
      chartData := [];
      loading := true;
      timeframe := "7d";
    }

    /** `fetchCryptos`, run on mount and on every poll: the listing replaces
        the rows and its first coin is selected, whatever was selected
        before, with a seven-day chart. A failure keeps the earlier state. */
    method FetchCryptos(net: Endpoints)
      modifies this`cryptos, this`selectedCrypto, this`chartData, this`loading
      ensures !loading
      ensures GetTopCryptos(net).Err? ==>
                cryptos == old(cryptos) && selectedCrypto == old(selectedCrypto) && chartData == old(chartData)
      ensures GetTopCryptos(net).Ok? ==>
                var data := GetTopCryptos(net).value;
                && cryptos == data
                && (|data| == 0 ==> selectedCrypto == old(selectedCrypto) && chartData == old(chartData))
                && (|data| > 0 ==>
                      && selectedCrypto == Some(data[0])
                      && var h := GetCryptoHistory(net, data[0].symbol, InitialDays);
                         chartData == if h.Ok? then h.value else old(chartData))
    {
      var listing := GetTopCryptos(net);
      if listing.Ok? {
        var data := listing.value;
        cryptos := data;
        if |data| > 0 {
          selectedCrypto := Some(data[0]);
          var h := GetCryptoHistory(net, data[0].symbol, InitialDays);
          if h.Ok? {
            chartData := h.value;
          }
        }
      }
      loading := false;
    }

    /** `handleCryptoSelect(crypto)`: the chart covers the current timeframe. */
    method HandleCryptoSelect(crypto: CryptoQuote, net: Endpoints)
      modifies this`selectedCrypto, this`chartData
      ensures selectedCrypto == Some(crypto)
      ensures var h := GetCryptoHistory(net, crypto.symbol, DaysFor(timeframe));
              chartData == if h.Ok? then h.value else old(chartData)
    {
      selectedCrypto := Some(crypto);
      var h := GetCryptoHistory(net, crypto.symbol, DaysFor(timeframe));
      if h.Ok? {
        chartData := h.value;
      }
    }

    /** `handleTimeframeChange(value)`: with a selection its chart is
        re-requested for the new span; without one only the timeframe changes. */
    method HandleTimeframeChange(value: string, net: Endpoints)
      modifies this`timeframe, this`chartData
      ensures timeframe == value
      ensures selectedCrypto.Some? ==>
                var h := GetCryptoHistory(net, selectedCrypto.value.symbol, DaysFor(value));
                chartData == if h.Ok? then h.value else old(chartData)
      ensures selectedCrypto.None? ==> chartData == old(chartData)
    {
      timeframe := value;
      if selectedCrypto.Some? {
        var h := GetCryptoHistory(net, selectedCrypto.value.symbol, DaysFor(value));
        if h.Ok? {
          chartData := h.value;
        }
      }
    }
  }
}
