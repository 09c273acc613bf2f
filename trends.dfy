/** The dashboard's trend decision: from a fetched 30-day price history to the
    record the three gauges display. The history fetch and the `/predict` call
    are the two I/O points; their outcomes are inputs here. */
module Trends {
  import opened Builtins
  import opened Labels
  import Backend

  /** A price as the browser sees it; `NaN` is the only value `isNaN` flags. */
  datatype Sample = Num(value: real) | NaN

  /** One entry of the market-chart `prices` array: `[timestamp, price]`. */
  datatype PricePoint = PricePoint(time: int, price: Sample)

  /** A JSON object of trend labels as the client holds it; `None` is `null`.
      A key that is absent reads as `undefined`, which the gauge treats alike. */
  type TrendRecord = map<string, Option<string>>

  /** The body posted to `/predict`. */
  datatype Request = Request(prices1d: seq<Sample>, prices7d: seq<Sample>, prices30d: seq<Sample>)

  /** What the dashboard shows before any history has been classified. */
  function InitialTrends(): (r: TrendRecord)
    ensures r.Keys == TREND_KEYS
    ensures forall k :: k in r ==> r[k] == None
  {
    map[TREND_1D := None, TREND_7D := None, TREND_30D := None]
  }

  /** The degraded record: every horizon `unknown`. */
  function Degraded(): (r: TrendRecord)
    ensures r.Keys == TREND_KEYS
    ensures forall k :: k in r ==> r[k] == Some(UNKNOWN)
  {
    map[TREND_1D := Some(UNKNOWN), TREND_7D := Some(UNKNOWN), TREND_30D := Some(UNKNOWN)]
  }

  /** Field lookup on a JSON object: a missing key reads as `undefined`. */
  function Field(r: TrendRecord, key: string): Option<string>
  {
    if key in r then r[key] else None
  }

  // ---------------------------------------------------------------------------
  // fetchCoinGeckoHistory
  // ---------------------------------------------------------------------------

  /** `prices.map(([_, price]) => price)`. */
  function PricesOf(points: seq<PricePoint>): (prices: seq<Sample>)
    ensures |prices| == |points|
    ensures forall i :: 0 <= i < |points| ==> prices[i] == points[i].price
  {
    if points == [] then [] else [points[0].price] + PricesOf(points[1..])
  }

  /** The history a fetch yields: the price of every point, in order, or the
      empty list when the request failed. */
  function ExtractPrices(response: Result<seq<PricePoint>>): (prices: seq<Sample>)
    ensures response.Err? ==> prices == []
    ensures response.Ok? ==> |prices| == |response.value|
    ensures response.Ok? ==> forall i :: 0 <= i < |prices| ==> prices[i] == response.value[i].price
  {
    match response
    case Err(_) => []
    case Ok(points) => PricesOf(points)
  }

  // ---------------------------------------------------------------------------
  // fetchMarketTrends
  // ---------------------------------------------------------------------------

  /** `s.some(isNaN)`: some index holds a NaN, which is to say that NaN is
      one of the samples. */
  function HasNaN(s: seq<Sample>): (found: bool)
    ensures found <==> NaN in s
  {
    exists i :: 0 <= i < |s| && s[i].NaN?
  }

  /** The guard that sends the dashboard to the degraded record: it fires
      exactly when some window has fewer than two samples or holds a NaN, so
      every window that passes has a first and a last price and only numbers. */
  predicate WindowsRejected(prices1d: seq<Sample>, prices7d: seq<Sample>, prices30d: seq<Sample>)
    ensures !WindowsRejected(prices1d, prices7d, prices30d) <==>
      && |prices1d| >= 2 && (forall i :: 0 <= i < |prices1d| ==> prices1d[i].Num?)
      && |prices7d| >= 2 && (forall i :: 0 <= i < |prices7d| ==> prices7d[i].Num?)
      && |prices30d| >= 2 && (forall i :: 0 <= i < |prices30d| ==> prices30d[i].Num?)
  {
    || |prices1d| < 2 || |prices7d| < 2 || |prices30d| < 2
    || HasNaN(prices1d) || HasNaN(prices7d) || HasNaN(prices30d)
  }

  /** The medium window, `prices_30d.slice(-7)`: the last seven samples, or the
      whole history when it is shorter. */
  function Week(prices30d: seq<Sample>): (week: seq<Sample>)
    ensures |week| == Min(7, |prices30d|)
    ensures week == prices30d[|prices30d| - |week|..]
  {
    SliceLast(prices30d, 7);
    SliceFrom(prices30d, -7)
  }

  /** The short window, `prices_30d.slice(-2)`: the last two samples, or the
      whole history when it is shorter. */
  function Day(prices30d: seq<Sample>): (day: seq<Sample>)
    ensures |day| == Min(2, |prices30d|)
    ensures day == prices30d[|prices30d| - |day|..]
  {
    SliceLast(prices30d, 2);
    SliceFrom(prices30d, -2)
  }

  /** The two short windows are the last 7 and the last 2 samples of the
      history, or all of it when it is shorter; the day is also the tail of the week. */
  lemma WindowsAreSuffixes(prices30d: seq<Sample>)
    ensures |Week(prices30d)| == Min(7, |prices30d|)
    ensures |Day(prices30d)| == Min(2, |prices30d|)
    ensures prices30d == prices30d[..|prices30d| - |Week(prices30d)|] + Week(prices30d)
    ensures prices30d == prices30d[..|prices30d| - |Day(prices30d)|] + Day(prices30d)
    ensures Week(prices30d) == Week(prices30d)[..|Week(prices30d)| - |Day(prices30d)|] + Day(prices30d)
  {
    SliceLast(prices30d, 7);
    SliceLast(prices30d, 2);
    var n := |prices30d|;
    assert Week(prices30d) == prices30d[n - Min(7, n)..];
    assert Day(prices30d) == prices30d[n - Min(2, n)..];
    assert Week(prices30d)[..|Week(prices30d)| - |Day(prices30d)|] == prices30d[n - Min(7, n)..n - Min(2, n)];
  }

  /** A NaN in a tail of `s` is a NaN in `s`. */
  lemma NaNInSuffix(s: seq<Sample>, k: nat)
    requires k <= |s|
    ensures HasNaN(s[k..]) ==> HasNaN(s)
  {
    if HasNaN(s[k..]) {
      var i :| 0 <= i < |s[k..]| && s[k..][i].NaN?;
      assert s[k + i].NaN?;
    }
  }

  /** Because the short windows are tails of the history, the six-way guard
      reduces to a check of the history alone. */
  lemma RejectionIsAboutHistory(prices30d: seq<Sample>)
    ensures WindowsRejected(Day(prices30d), Week(prices30d), prices30d)
      <==> |prices30d| < 2 || HasNaN(prices30d)
  {
    var n := |prices30d|;
    NaNInSuffix(prices30d, n - |Week(prices30d)|);
    NaNInSuffix(prices30d, n - |Day(prices30d)|);
  }

  /** What `fetchMarketTrends` posts to the prediction service: nothing when
      the history is empty (it throws "No price data") or when the windows fail
      the length/NaN guard, and otherwise the three windows. */
  function PlanRequest(prices30d: seq<Sample>): (request: Option<Request>)
    ensures request.Some? <==> |prices30d| >= 2 && !HasNaN(prices30d)
    ensures request.Some? ==> request.value == Request(Day(prices30d), Week(prices30d), prices30d)
    ensures request.Some? ==> request.value.prices7d == prices30d[|prices30d| - Min(7, |prices30d|)..]
    ensures request.Some? ==> request.value.prices1d == prices30d[|prices30d| - 2..]
  {
    RejectionIsAboutHistory(prices30d);
    WindowsAreSuffixes(prices30d);
    if |prices30d| == 0 then None
    else
      var prices7d := Week(prices30d);
      var prices1d := Day(prices30d);
      if WindowsRejected(prices1d, prices7d, prices30d) then None
      else Some(Request(prices1d, prices7d, prices30d))
  }

  /** The record the dashboard publishes for one history, given how the
      prediction service answers each request. */
  function PublishedTrends(prices30d: seq<Sample>, predict: Request -> Result<TrendRecord>): (r: TrendRecord)
    ensures |prices30d| < 2 || HasNaN(prices30d) ==> r == Degraded()
    ensures |prices30d| >= 2 && !HasNaN(prices30d) ==>
      var answer := predict(Request(Day(prices30d), Week(prices30d), prices30d));
      r == if answer.Ok? then answer.value else Degraded()
  {
    match PlanRequest(prices30d)
    case None => Degraded()
    case Some(request) =>
      match predict(request)
      case Ok(record) => record
      case Err(_) => Degraded()
  }

  /** An empty history (the fetch failed or returned no prices) publishes the
      degraded record, whatever the service would have answered. */
  lemma EmptyHistoryDegrades(predict: Request -> Result<TrendRecord>)
    ensures PublishedTrends(ExtractPrices(Err("network error")), predict) == Degraded()
    ensures PublishedTrends(ExtractPrices(Ok([])), predict) == Degraded()
  {
  }

  // ---------------------------------------------------------------------------
  // The round trip through the prediction service
  // ---------------------------------------------------------------------------

  /** The numbers of a NaN-free sample list, as JSON carries them to the service. */
  function Values(s: seq<Sample>): (v: seq<real>)
    requires !HasNaN(s)
    ensures |v| == |s|
    ensures forall i :: 0 <= i < |s| ==> s[i] == Num(v[i])
  {
    seq(|s|, i requires 0 <= i < |s| => assert !s[i].NaN?; s[i].value)
  }

  /** The service's dictionary as the client receives it. */
  function OverWire(record: map<string, string>): (r: TrendRecord)
    ensures r.Keys == record.Keys
    ensures forall k :: k in r ==> r[k] == Some(record[k])
  {
    map k | k in record :: Some(record[k])
  }

  /** The prediction service reached over the network. The client sends only
      NaN-free windows; a request with a NaN stands for a body the service
      refuses. Otherwise the reply holds the three horizon keys, each labelled
      by `get_trend` from that window's numbers. */
  function Service(request: Request): (answer: Result<TrendRecord>)
    ensures answer.Err? <==> HasNaN(request.prices1d) || HasNaN(request.prices7d) || HasNaN(request.prices30d)
    ensures answer.Ok? ==> answer.value.Keys == TREND_KEYS
    ensures answer.Ok? ==> answer.value[TREND_1D] == Some(Backend.GetTrend(Values(request.prices1d)))
    ensures answer.Ok? ==> answer.value[TREND_7D] == Some(Backend.GetTrend(Values(request.prices7d)))
    ensures answer.Ok? ==> answer.value[TREND_30D] == Some(Backend.GetTrend(Values(request.prices30d)))
  {
    if HasNaN(request.prices1d) || HasNaN(request.prices7d) || HasNaN(request.prices30d) then
      Err("unprocessable request")
    else
      Ok(OverWire(Backend.PredictTrend(Backend.MultiTimeframePriceData(
        Values(request.prices1d), Values(request.prices7d), Values(request.prices30d)))))
  }

  /** The label the service gives one NaN-free window of at least two samples. */
  lemma WindowTrend(s: seq<Sample>)
    requires |s| >= 2 && !HasNaN(s)
    ensures Backend.GetTrend(Values(s)) == if s[|s| - 1].value > s[0].value then BULLISH else BEARISH
  {
    var v := Values(s);
    assert v[0] == s[0].value && v[|v| - 1] == s[|s| - 1].value;
    Backend.GetTrendOfEnds(v);
  }

  /** Client and service together: a usable history yields, per horizon, bullish
      exactly when the latest price beats the first price of that window, and
      bearish otherwise; never unknown, never neutral. */
  lemma EndToEndTrends(prices30d: seq<Sample>)
    requires |prices30d| >= 2 && !HasNaN(prices30d)
    ensures var r, n := PublishedTrends(prices30d, Service), |prices30d|;
      && r.Keys == TREND_KEYS
      && r[TREND_1D] == Some(if prices30d[n - 1].value > prices30d[n - 2].value then BULLISH else BEARISH)
      && r[TREND_7D] == Some(if prices30d[n - 1].value > prices30d[n - Min(7, n)].value then BULLISH else BEARISH)
      && r[TREND_30D] == Some(if prices30d[n - 1].value > prices30d[0].value then BULLISH else BEARISH)
  {
    ServedWindows(prices30d);
    ServiceLabels(Request(Day(prices30d), Week(prices30d), prices30d));
    WindowEnds(prices30d);
  }

  /** Both short windows end at the latest price; the day starts one price
      before it and the week min(7, n) - 1 prices before it. */
  lemma WindowEnds(prices30d: seq<Sample>)
    requires |prices30d| >= 2
    ensures var n, d, w := |prices30d|, Day(prices30d), Week(prices30d);
      && d[0] == prices30d[n - 2] && d[|d| - 1] == prices30d[n - 1]
      && w[0] == prices30d[n - Min(7, n)] && w[|w| - 1] == prices30d[n - 1]
  {
  }

  /** The service's reply to NaN-free windows of two or more samples labels
      each horizon by comparing that window's last price with its first. */
  lemma ServiceLabels(request: Request)
    requires |request.prices1d| >= 2 && !HasNaN(request.prices1d)
    requires |request.prices7d| >= 2 && !HasNaN(request.prices7d)
    requires |request.prices30d| >= 2 && !HasNaN(request.prices30d)
    ensures var answer, d, w, m := Service(request), request.prices1d, request.prices7d, request.prices30d;
      && answer.Ok? && answer.value.Keys == TREND_KEYS
      && answer.value[TREND_1D] == Some(if d[|d| - 1].value > d[0].value then BULLISH else BEARISH)
      && answer.value[TREND_7D] == Some(if w[|w| - 1].value > w[0].value then BULLISH else BEARISH)
      && answer.value[TREND_30D] == Some(if m[|m| - 1].value > m[0].value then BULLISH else BEARISH)
  {
    WindowTrend(request.prices1d);
    WindowTrend(request.prices7d);
    WindowTrend(request.prices30d);
  }

  /** For a usable history the client posts NaN-free tails of it, the service
      accepts them, and its reply is what the client publishes. */
  lemma ServedWindows(prices30d: seq<Sample>)
    requires |prices30d| >= 2 && !HasNaN(prices30d)
    ensures !HasNaN(Day(prices30d)) && !HasNaN(Week(prices30d))
    ensures Service(Request(Day(prices30d), Week(prices30d), prices30d)).Ok?
    ensures PublishedTrends(prices30d, Service) == Service(Request(Day(prices30d), Week(prices30d), prices30d)).value
  {
    WindowsNaNFree(prices30d);
  }

  /** The windows of a NaN-free history are NaN-free. */
  lemma WindowsNaNFree(prices30d: seq<Sample>)
    requires !HasNaN(prices30d)
    ensures !HasNaN(Day(prices30d)) && !HasNaN(Week(prices30d))
  {
    var n := |prices30d|;
    NaNInSuffix(prices30d, n - |Day(prices30d)|);
    NaNInSuffix(prices30d, n - |Week(prices30d)|);
  }
}
