/** The dashboard component's state that the trend and coin-list logic
    writes: the coin list, the settled selection and the trend record shown by
    the three gauges. Each fetch effect is a method that receives the outcome
    of its network call. */
module Dashboard {
  import opened Builtins
  import opened Labels
  import opened Markets
  import opened Trends
  import Gauge

  class CryptoDashboard {
    var allCoins: seq<Coin>
    var selectedCoin: Option<Coin>
    var marketTrends: TrendRecord

    /** The first render: no coins, nothing selected, every horizon `null`. */
    constructor ()
      ensures allCoins == [] && selectedCoin == None && marketTrends == InitialTrends()
    {
      allCoins := [];
      selectedCoin := None;
      marketTrends := InitialTrends();
    }

    /** `fetchTopCoins`: on success store the formatted list and, when nothing
        is selected yet, select its first coin; on failure change nothing. */
    method FetchTopCoins(response: Result<seq<RawCoin>>)
      modifies this`allCoins, this`selectedCoin
      ensures response.Err? ==> allCoins == old(allCoins) && selectedCoin == old(selectedCoin)
      ensures response.Ok? ==> allCoins == FormatCoins(response.value)
      ensures response.Ok? && old(selectedCoin).None? && |response.value| > 0 ==>
        selectedCoin == Some(FormatCoin(response.value[0]))
      ensures response.Ok? && (old(selectedCoin).Some? || |response.value| == 0) ==>
        selectedCoin == old(selectedCoin)
    {
      match response {
        case Err(_) =>
        case Ok(raw) =>
          var formatted := FormatCoins(raw);
          allCoins := formatted;
          if selectedCoin.None? {
            // `formatted[0]` of an empty list is `undefined`: still no selection.
            selectedCoin := if |formatted| > 0 then Some(formatted[0]) else None;
          }
      }
    }

    /** `fetchMarketTrends` for the current selection. `history` is the outcome
        of the market-chart request and `predict` how the prediction service
        answers a request; `sent` is the request posted, if any. */
    method FetchMarketTrends(history: Result<seq<PricePoint>>, predict: Request -> Result<TrendRecord>)
      returns (sent: Option<Request>)
      modifies this`marketTrends
      ensures selectedCoin.None? ==> marketTrends == old(marketTrends)
      ensures sent.Some? <==> selectedCoin.Some? && |ExtractPrices(history)| >= 2 && !HasNaN(ExtractPrices(history))
      ensures selectedCoin.Some? ==> sent == PlanRequest(ExtractPrices(history))
      ensures selectedCoin.Some? ==> marketTrends == PublishedTrends(ExtractPrices(history), predict)
    {
      sent := None;
      if selectedCoin.None? {
        return;
      }
      var prices30d := ExtractPrices(history);
      RejectionIsAboutHistory(prices30d);
      if |prices30d| == 0 {
        // "No price data" is thrown and lands in the catch block.
        marketTrends := Degraded();
        return;
      }
      var prices7d := Week(prices30d);
      var prices1d := Day(prices30d);
      if WindowsRejected(prices1d, prices7d, prices30d) {
        marketTrends := Degraded();
        return;
      }
      sent := Some(Request(prices1d, prices7d, prices30d));
      var answer := predict(sent.value);
      match answer {
        case Ok(record) => marketTrends := record;
        case Err(_) => marketTrends := Degraded();
      }
    }
  }

  /** Before the first classification every gauge points up and reads LOADING. */
  lemma GaugesBeforeFirstRun(key: string)
    ensures Gauge.GaugeAngle(Field(InitialTrends(), key)) == 90
    ensures Gauge.StrokeColour(Field(InitialTrends(), key)) == Gauge.AMBER
    ensures Gauge.Caption(Field(InitialTrends(), key)) == Gauge.LOADING
  {
  }

  /** After a degraded run every gauge points up, amber, and reads UNKNOWN. */
  lemma GaugesWhenDegraded()
    ensures forall key :: key in TREND_KEYS ==> Gauge.GaugeAngle(Field(Degraded(), key)) == 90
    ensures forall key :: key in TREND_KEYS ==> Gauge.StrokeColour(Field(Degraded(), key)) == Gauge.AMBER
    ensures forall key :: key in TREND_KEYS ==> Gauge.Caption(Field(Degraded(), key)) == "UNKNOWN"
  {
    Gauge.CaptionsOfLabels();
  }

  /** With the real service behind it, a usable history never leaves a gauge
      upright: each points left or right. */
  lemma GaugesWithService(prices30d: seq<Sample>)
    requires |prices30d| >= 2 && !HasNaN(prices30d)
    ensures forall key :: key in TREND_KEYS ==>
      Gauge.GaugeAngle(Field(PublishedTrends(prices30d, Service), key)) in {0, 180}
  {
    EndToEndTrends(prices30d);
    GaugesOfDirectionalRecord(PublishedTrends(prices30d, Service));
  }

  /** A record that labels every horizon bullish or bearish turns every gauge sideways. */
  lemma GaugesOfDirectionalRecord(r: TrendRecord)
    requires r.Keys == TREND_KEYS
    requires r[TREND_1D] in {Some(BULLISH), Some(BEARISH)}
    requires r[TREND_7D] in {Some(BULLISH), Some(BEARISH)}
    requires r[TREND_30D] in {Some(BULLISH), Some(BEARISH)}
    ensures forall key :: key in TREND_KEYS ==> Gauge.GaugeAngle(Field(r, key)) in {0, 180}
  {
  }
}
