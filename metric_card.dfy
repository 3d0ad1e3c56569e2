/**
 * The change indicator of a dashboard metric card: nothing when the metric has
 * no change, "No change" when the change is zero, and otherwise an arrow with
 * the absolute change, coloured by whether a decrease is reported.
 */
module MetricCard {
  import opened Collections
  import opened Types

  datatype Arrow = TrendingUp | TrendingDown
  datatype Tone = SuccessTone | DestructiveTone

  /** The trend span: its arrow icon, its colour and the number it shows. */
  datatype Trend = Trend(arrow: Arrow, tone: Tone, magnitude: real)

  /** What the card shows after the value: an optional trend span and an optional "No change" span. */
  datatype ChangeIndicator = ChangeIndicator(trend: Option<Trend>, noChange: bool)

  /** `Math.abs` */
  function Abs(x: real): real
  {
    if x < 0.0 then -x else x
  }

  /** The indicator the card renders for `change` and `changeType`. */
  function Indicator(change: Option<real>, changeType: Option<ChangeType>): ChangeIndicator
  {
    var decrease := changeType == Some(Decrease);
    ChangeIndicator(
      if change.Some? && change.value != 0.0
      then Some(Trend(if decrease then TrendingDown else TrendingUp,
                      if decrease then SuccessTone else DestructiveTone,
                      Abs(change.value)))
      else None,
      change == Some(0.0))
  }

  function MetricIndicator(metric: DashboardMetric): ChangeIndicator
  {
    Indicator(metric.change, metric.changeType)
  }

  /**
   * No change value shows nothing; a zero change shows only "No change"; a
   * non-zero change shows only a trend whose number is its absolute value, so
   * positive; at most one of the two is ever shown.
   */
  lemma IndicatorCases(change: Option<real>, changeType: Option<ChangeType>)
    ensures var ind := Indicator(change, changeType);
      && (change.None? ==> ind.trend.None? && !ind.noChange)
      && (change == Some(0.0) ==> ind.trend.None? && ind.noChange)
      && (change.Some? && change.value != 0.0 ==>
            && ind.trend.Some? && !ind.noChange
            && ind.trend.value.magnitude > 0.0
            && (ind.trend.value.magnitude == change.value || ind.trend.value.magnitude == -change.value))
      && !(ind.trend.Some? && ind.noChange)
  {
  }

  /** A reported decrease is a down arrow in the success colour; anything else, even no type, an up arrow in the destructive colour. */
  lemma TrendDirection(change: real, changeType: Option<ChangeType>)
    requires change != 0.0
    ensures var t := Indicator(Some(change), changeType).trend;
      && t.Some?
      && (t.value.arrow == TrendingDown <==> changeType == Some(Decrease))
      && (t.value.tone == SuccessTone <==> t.value.arrow == TrendingDown)
  {
  }
}
