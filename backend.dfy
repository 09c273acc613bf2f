/** The prediction service: `get_trend` and the `/predict` handler
    `predict_trend`. Prices arrive as floats and are only ever compared, so they
    are modelled as reals. */
module Backend {
  import opened Labels

  /** The request body: one price list per horizon, oldest first. */
  datatype MultiTimeframePriceData =
    MultiTimeframePriceData(prices1d: seq<real>, prices7d: seq<real>, prices30d: seq<real>)

  /** `get_trend`: too few samples give `unknown`; otherwise the last price is
      compared with the first, and a tie counts as bearish. */
  function GetTrend(prices: seq<real>): (trend: string)
    ensures trend == UNKNOWN <==> |prices| < 2
    ensures |prices| >= 2 ==> (trend == BULLISH <==> prices[|prices| - 1] > prices[0])
    ensures |prices| >= 2 ==> (trend == BEARISH <==> prices[|prices| - 1] <= prices[0])
    ensures trend in {UNKNOWN, BULLISH, BEARISH}
  {
    if |prices| == 0 || |prices| < 2 then UNKNOWN
    else if prices[|prices| - 1] > prices[0] then BULLISH
    else BEARISH
  }

  /** With two or more prices the label is decided by the two ends alone. */
  lemma GetTrendOfEnds(prices: seq<real>)
    requires |prices| >= 2
    ensures GetTrend(prices) == if prices[|prices| - 1] > prices[0] then BULLISH else BEARISH
  {
  }

  /** The service never answers `neutral`, whatever the prices. */
  lemma GetTrendNeverNeutral(prices: seq<real>)
    ensures GetTrend(prices) != NEUTRAL
  {
    assert GetTrend(prices) in {UNKNOWN, BULLISH, BEARISH};
  }

  /** Only the two end points matter: lists that agree on their first and last
      prices get the same trend, whatever lies between. */
  lemma GetTrendDependsOnlyOnEnds(p: seq<real>, q: seq<real>)
    requires |p| >= 2 && |q| >= 2
    requires p[0] == q[0] && p[|p| - 1] == q[|q| - 1]
    ensures GetTrend(p) == GetTrend(q)
  {
  }

  /** For two samples `[a, b]` the trend is bullish exactly when `b > a`. */
  lemma GetTrendOfPair(a: real, b: real)
    ensures GetTrend([a, b]) == BULLISH <==> b > a
    ensures GetTrend([a, b]) == BEARISH <==> b <= a
  {
  }

  /** `predict_trend`: a record with exactly the three horizon keys, each the
      trend of its own list. */
  function PredictTrend(data: MultiTimeframePriceData): (record: map<string, string>)
    ensures record.Keys == TREND_KEYS
    ensures record[TREND_1D] == GetTrend(data.prices1d)
    ensures record[TREND_7D] == GetTrend(data.prices7d)
    ensures record[TREND_30D] == GetTrend(data.prices30d)
  {
    map[TREND_1D := GetTrend(data.prices1d),
        TREND_7D := GetTrend(data.prices7d),
        TREND_30D := GetTrend(data.prices30d)]
  }

  /** Each horizon's label is computed from its own list alone: changing the
      other two lists leaves it as it was. */
  lemma PredictTrendHorizonsIndependent(d: MultiTimeframePriceData, e: MultiTimeframePriceData)
    ensures d.prices1d == e.prices1d ==> PredictTrend(d)[TREND_1D] == PredictTrend(e)[TREND_1D]
    ensures d.prices7d == e.prices7d ==> PredictTrend(d)[TREND_7D] == PredictTrend(e)[TREND_7D]
    ensures d.prices30d == e.prices30d ==> PredictTrend(d)[TREND_30D] == PredictTrend(e)[TREND_30D]
  {
  }

  /** Every value of a prediction is one of `unknown`, `bullish`, `bearish`. */
  lemma PredictTrendRange(d: MultiTimeframePriceData)
    ensures forall k :: k in PredictTrend(d) ==> PredictTrend(d)[k] in {UNKNOWN, BULLISH, BEARISH}
  {
  }
}
