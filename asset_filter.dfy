/** The stand-alone watchlist table component: a fixed list of mock assets,
    filtered by a search box, with the change cell coloured by sign. */
module AssetFilter {
  import opened Text
  import opened Seqs

  datatype Asset = Asset(id: string, name: string, symbol: string, price: real, change: real)

  /** The component's initial `assets` state; it is never changed afterwards. */
  const MockAssets: seq<Asset> := [
    Asset("1", "Bitcoin", "BTC", 50000.0, 2.5),
    Asset("2", "Ethereum", "ETH", 3000.0, -1.2),
    Asset("3", "Apple Inc.", "AAPL", 150.0, 0.8),
    Asset("4", "Tesla Inc.", "TSLA", 700.0, -0.5)
  ]

  /** The filter callback: lower-cased name or symbol contains the lower-cased search. */
  predicate Matches(asset: Asset, search: string)
  {
    || Contains(ToLower(asset.name), ToLower(search))
    || Contains(ToLower(asset.symbol), ToLower(search))
  }

  /** `filteredAssets`. */
  function FilteredAssets(assets: seq<Asset>, search: string): seq<Asset>
  {
    Filter(a => Matches(a, search), assets)
  }

  /** The rows shown: an order-preserving selection of `assets`, holding
      exactly the assets that match. */
  lemma {:induction false} FilteredIsMatchingSubsequence(assets: seq<Asset>, search: string)
    ensures IsSubsequence(FilteredAssets(assets, search), assets)
    ensures forall a :: a in FilteredAssets(assets, search) <==> a in assets && Matches(a, search)
  {
    FilterIsSubsequence(a => Matches(a, search), assets);
    var r := FilteredAssets(assets, search);
    forall a ensures a in r <==> a in assets && Matches(a, search) {
      if a in r {
        var i :| 0 <= i < |r| && r[i] == a;
      }
      if a in assets && Matches(a, search) {
        var i :| 0 <= i < |assets| && assets[i] == a;
      }
    }
  }

  /** An empty search box shows every asset. */
  lemma {:induction false} EmptySearchKeepsAll(assets: seq<Asset>)
    ensures FilteredAssets(assets, "") == assets
  {
    forall i | 0 <= i < |assets| ensures Matches(assets[i], "") {
      ContainsEmpty(ToLower(assets[i].name));
    }
    FilterKeepsAll(a => Matches(a, ""), assets);
  }

  /** Only the lower-cased search matters: any case variant gives the same rows. */
  lemma {:induction false} SearchIsCaseInsensitive(assets: seq<Asset>, search: string, variant: string)
    requires ToLower(search) == ToLower(variant)
    ensures FilteredAssets(assets, search) == FilteredAssets(assets, variant)
  {
    FilterExtensional(a => Matches(a, search), a => Matches(a, variant), assets);
  }

  /** Typing the same search again changes nothing. */
  lemma {:induction false} FilterTwiceIsOnce(assets: seq<Asset>, search: string)
    ensures FilteredAssets(FilteredAssets(assets, search), search) == FilteredAssets(assets, search)
  {
    FilterIdempotent(a => Matches(a, search), assets);
  }

  /** Before anything is typed the table shows the four mock assets in order. */
  lemma InitialRows()
    ensures FilteredAssets(MockAssets, "") == MockAssets
    ensures |FilteredAssets(MockAssets, "")| == 4
  {
    EmptySearchKeepsAll(MockAssets);
  }

  datatype Colour = Green | Red

  /** The change cell's colour class. */
  function ChangeColour(change: real): (c: Colour)
    ensures c == Green <==> change >= 0.0
  {
    if change >= 0.0 then Green else Red
  }

  /** The sign prefix written before the change. */
  function ChangePrefix(change: real): (p: string)
    ensures p == "+" <==> change > 0.0
    ensures p == "" <==> change <= 0.0
  {
    if change > 0.0 then "+" else ""
  }

  /** Zero is the one value shown green without a `+`; a `+` always comes with green. */
  lemma SignRule(change: real)
    ensures ChangePrefix(change) == "+" ==> ChangeColour(change) == Green
    ensures ChangeColour(change) == Green && ChangePrefix(change) == "" <==> change == 0.0
  {
  }
}
