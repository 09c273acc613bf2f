/** The half-circle trend gauge: where its pointer points, what colour it is
    drawn in, and the caption beneath it. The `trend` prop is whatever the
    dashboard holds for one horizon, possibly `null` (`None`) or a string the
    gauge does not know. */
module Gauge {
  import opened Builtins
  import opened Labels

  const GREEN: string := "#22c55e"
  const RED: string := "#ef4444"
  const AMBER: string := "#fbbf24"

  const TEXT_GREEN: string := "text-green-400"
  const TEXT_RED: string := "text-red-400"
  const TEXT_YELLOW: string := "text-yellow-400"

  const LOADING: string := "LOADING"

  /** `getGaugeAngle`: bullish points right (0 degrees), bearish left (180),
      and everything else, `null` included, straight up (90). */
  function GaugeAngle(trend: Option<string>): (angle: int)
    ensures angle in {0, 90, 180}
    ensures angle == 0 <==> trend == Some(BULLISH)
    ensures angle == 180 <==> trend == Some(BEARISH)
  {
    if trend == Some(BULLISH) then 0
    else if trend == Some(BEARISH) then 180
    else if trend == Some(NEUTRAL) || trend == Some(UNKNOWN) then 90
    else 90
  }

  /** Neutral, unknown, a missing value and any unexpected string all leave the
      pointer upright. */
  lemma UprightUnlessDirectional(trend: Option<string>)
    ensures GaugeAngle(None) == 90
    ensures GaugeAngle(Some(NEUTRAL)) == 90 && GaugeAngle(Some(UNKNOWN)) == 90
    ensures trend != Some(BULLISH) && trend != Some(BEARISH) ==> GaugeAngle(trend) == 90
  {
  }

  /** The pointer's stroke colour. */
  function StrokeColour(trend: Option<string>): (colour: string)
    ensures colour in {GREEN, RED, AMBER}
    ensures colour == GREEN <==> trend == Some(BULLISH)
    ensures colour == RED <==> trend == Some(BEARISH)
  {
    if trend == Some(BULLISH) then GREEN
    else if trend == Some(BEARISH) then RED
    else AMBER
  }

  /** The caption's text colour class. */
  function CaptionClass(trend: Option<string>): (cls: string)
    ensures cls in {TEXT_GREEN, TEXT_RED, TEXT_YELLOW}
    ensures cls == TEXT_GREEN <==> trend == Some(BULLISH)
    ensures cls == TEXT_RED <==> trend == Some(BEARISH)
  {
    if trend == Some(BULLISH) then TEXT_GREEN
    else if trend == Some(BEARISH) then TEXT_RED
    else TEXT_YELLOW
  }

  /** Angle, stroke and caption colour make the same three-way split, so the
      gauge never shows, say, a right-pointing red pointer. */
  lemma GaugeSplitAgrees(trend: Option<string>)
    ensures GaugeAngle(trend) == 0 <==> StrokeColour(trend) == GREEN
    ensures StrokeColour(trend) == GREEN <==> CaptionClass(trend) == TEXT_GREEN
    ensures GaugeAngle(trend) == 180 <==> StrokeColour(trend) == RED
    ensures StrokeColour(trend) == RED <==> CaptionClass(trend) == TEXT_RED
    ensures GaugeAngle(trend) == 90 <==> StrokeColour(trend) == AMBER
    ensures StrokeColour(trend) == AMBER <==> CaptionClass(trend) == TEXT_YELLOW
  {
  }

  /** JavaScript truthiness of the prop: `null` and the empty string are falsy. */
  predicate Truthy(trend: Option<string>)
  {
    trend.Some? && trend.value != ""
  }

  /** The caption: the trend in capitals once there is one, `LOADING` before. */
  function Caption(trend: Option<string>): (text: string)
    ensures |text| > 0
    ensures !Truthy(trend) ==> text == LOADING
    ensures Truthy(trend) ==> |text| == |trend.value| && ToLower(text) == ToLower(trend.value)
    ensures forall i :: 0 <= i < |text| ==> !IsLowerAscii(text[i])
  {
    if Truthy(trend) then ToUpper(trend.value) else LOADING
  }

  /** The captions of the labels the dashboard can hold. */
  lemma CaptionsOfLabels()
    ensures Caption(Some(BULLISH)) == "BULLISH"
    ensures Caption(Some(BEARISH)) == "BEARISH"
    ensures Caption(Some(NEUTRAL)) == "NEUTRAL"
    ensures Caption(Some(UNKNOWN)) == "UNKNOWN"
    ensures Caption(None) == LOADING && Caption(Some("")) == LOADING
  {
    assert ToUpper(BULLISH) == "BULLISH";
    assert ToUpper(BEARISH) == "BEARISH";
    assert ToUpper(NEUTRAL) == "NEUTRAL";
    assert ToUpper(UNKNOWN) == "UNKNOWN";
  }
}
