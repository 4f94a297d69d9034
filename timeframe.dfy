/** The chart timeframe selector of the crypto and watchlist pages and the
    number of days of history each choice requests. */
module Timeframe {

  /** The choices the selector offers. */
  const Options: seq<string> := ["24h", "7d", "30d"]

  /** `timeframe === '24h' ? 1 : timeframe === '7d' ? 7 : 30`. */
  function DaysFor(timeframe: string): (days: int)
    ensures days == 1 <==> timeframe == "24h"
    ensures days == 7 <==> timeframe == "7d"
    ensures days == 30 <==> timeframe != "24h" && timeframe != "7d"
  {
    if timeframe == "24h" then 1 else if timeframe == "7d" then 7 else 30
  }

  /** Each offered choice requests the span its label names, and no two
      choices request the same span. */
  lemma OptionsMapToTheirSpans()
    ensures DaysFor(Options[0]) == 1 && DaysFor(Options[1]) == 7 && DaysFor(Options[2]) == 30
    ensures forall i, j :: 0 <= i < j < |Options| ==> DaysFor(Options[i]) != DaysFor(Options[j])
  {
  }
}
