/** The strings the client and the prediction service exchange: the four trend
    labels and the three keys of a trend record. */
module Labels {
  const BULLISH: string := "bullish"
  const BEARISH: string := "bearish"
  const NEUTRAL: string := "neutral"
  const UNKNOWN: string := "unknown"

  const TREND_1D: string := "trend_1d"
  const TREND_7D: string := "trend_7d"
  const TREND_30D: string := "trend_30d"

  /** The keys every trend record built by either side carries. */
  const TREND_KEYS: set<string> := {TREND_1D, TREND_7D, TREND_30D}

  /** The four labels are told apart by their second letter or by their first. */
  lemma LabelsDistinct()
    ensures BULLISH != BEARISH && BULLISH != NEUTRAL && BULLISH != UNKNOWN
    ensures BEARISH != NEUTRAL && BEARISH != UNKNOWN && NEUTRAL != UNKNOWN
  {
    assert BULLISH[1] != BEARISH[1];
    assert BULLISH[0] != NEUTRAL[0] && BULLISH[0] != UNKNOWN[0];
    assert BEARISH[0] != NEUTRAL[0] && BEARISH[0] != UNKNOWN[0] && NEUTRAL[0] != UNKNOWN[0];
  }
}
