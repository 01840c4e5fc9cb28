/** The NDVI chart (frontend/src/components/NDVIChart.jsx): the points it
    plots, the health label of a value, the improving/declining headline, the
    current-health badge and the colour of the tooltip.

    `value.toFixed(3)` is modelled as rounding half up to 3 decimals
    (`Numeric.Round3`). */
module NdviChart {
  import opened Wrappers
  import opened Numeric
  import GisMock
  import Claude

  datatype Health = Healthy | Moderate | Degraded {
    function Text(): string {
      match this
      case Healthy => "Healthy"
      case Moderate => "Moderate"
      case Degraded => "Degraded"
    }

    /** Position in the order degraded < moderate < healthy. */
    function Rank(): nat {
      match this
      case Degraded => 0
      case Moderate => 1
      case Healthy => 2
    }

    /** The text class that goes with this health. */
    function TextClass(): string {
      match this
      case Healthy => "text-green-600"
      case Moderate => "text-yellow-600"
      case Degraded => "text-red-600"
    }
  }

  /** The number of health thresholds (0.5, 0.7) a value lies strictly above. */
  function HealthBand(v: real): (band: nat)
    ensures band <= 2
  {
    (if v > 0.5 then 1 else 0) + (if v > 0.7 then 1 else 0)
  }

  /** The health label of a value: strictly above 0.7 healthy, strictly
      above 0.5 moderate, otherwise degraded. */
  function HealthOf(v: real): (h: Health)
    ensures h.Rank() == HealthBand(v)
  {
    if v > 0.7 then Healthy else if v > 0.5 then Moderate else Degraded
  }

  /** The thresholds themselves fall in the lower band. */
  lemma HealthBoundaries()
    ensures HealthOf(0.7) == Moderate && HealthOf(0.5) == Degraded
    ensures HealthOf(0.7001) == Healthy && HealthOf(0.5001) == Moderate
  {
  }

  /** A larger value never has a worse label. */
  lemma HealthMonotone(a: real, b: real)
    requires a <= b
    ensures HealthOf(a).Rank() <= HealthOf(b).Rank()
  {
  }

  // ---------------------------------------------------------------------
  // Chart data
  // ---------------------------------------------------------------------

  const FirstYear := 2022

  /** One plotted point: the year, the value to 3 decimals, and the label
      of the unrounded value. */
  datatype ChartPoint = ChartPoint(year: int, ndvi: real, health: Health)

  /** `chartData`: one point per value, in order, from 2022 on. */
  function ChartData(data: seq<real>): (points: seq<ChartPoint>)
    ensures |points| == |data|
  {
    seq(|data|, i requires 0 <= i < |data| => ChartPoint(FirstYear + i, Round3(data[i]), HealthOf(data[i])))
  }

  /** The points keep the order of the data: consecutive years, each value
      within rounding of its source and labelled by it. */
  lemma ChartDataFollowsData(data: seq<real>)
    ensures forall i :: 0 <= i < |data| ==>
              && ChartData(data)[i].year == FirstYear + i
              && data[i] - 0.0005 < ChartData(data)[i].ndvi <= data[i] + 0.0005
              && ChartData(data)[i].health == HealthOf(data[i])
    ensures forall i, j :: 0 <= i < j < |data| ==> ChartData(data)[i].year < ChartData(data)[j].year
  {
  }

  // ---------------------------------------------------------------------
  // Headline and badge
  // ---------------------------------------------------------------------

  datatype Direction = Improving | Declining

  /** The headline: improving only when the last value is strictly above
      the first. */
  function TrendOf(data: seq<real>): (d: Direction)
    requires |data| > 0
    ensures d == Improving <==> data[|data| - 1] > data[0]
  {
    var firstValue := data[0];
    var lastValue := data[|data| - 1];
    if lastValue > firstValue then Improving else Declining
  }

  /** A flat series, and in particular a single value, is shown as declining. */
  lemma FlatIsDeclining(data: seq<real>)
    requires |data| > 0 && data[|data| - 1] == data[0]
    ensures TrendOf(data) == Declining
    ensures |data| == 1 ==> TrendOf(data) == Declining
  {
  }

  /** A chart that says improving belongs to a trend the backend scores 0;
      a trend with a positive score is always shown as declining. */
  lemma ImprovingChartScoresZero(data: seq<real>)
    requires |data| >= 2 && data[0] > 0.0
    ensures TrendOf(data) == Improving ==> GisMock.DegradationScore(Some(data)) == 0.0
    ensures GisMock.DegradationScore(Some(data)) > 0.0 ==> TrendOf(data) == Declining
  {
  }

  /** What the backend words as improving, the chart also shows as improving. */
  lemma ImprovingWordingAgrees(data: seq<real>)
    requires |data| >= 2 && data[0] > 0.0
    requires Claude.DescribeTrend(data) == Claude.Improving
    ensures TrendOf(data) == Improving
  {
    Claude.DescribeTrendByRatio(data);
  }

  /** The current-health badge, decided from the last value with its own chain. */
  function CurrentHealth(lastValue: real): Health {
    if lastValue > 0.7 then Healthy else if lastValue > 0.5 then Moderate else Degraded
  }

  datatype ChartView =
    | NoData
    | Chart(points: seq<ChartPoint>, direction: Direction, currentHealth: Health)

  /** The chart's render decision: no data (missing or empty) gives the
      placeholder; otherwise the points, the headline and the badge. */
  function Render(data: Option<seq<real>>): (v: ChartView)
    ensures v.NoData? <==> data.None? || |data.value| == 0
    ensures v.Chart? ==> |v.points| == |data.value| > 0
  {
    if data.None? || |data.value| == 0 then NoData
    else
      var values := data.value;
      Chart(ChartData(values), TrendOf(values), CurrentHealth(values[|values| - 1]))
  }

  /** The badge always agrees with the label of the last plotted point. */
  lemma BadgeMatchesLastPoint(data: seq<real>)
    requires |data| > 0
    ensures Render(Some(data)).currentHealth == Render(Some(data)).points[|data| - 1].health
  {
  }

  // ---------------------------------------------------------------------
  // Tooltip colour
  // ---------------------------------------------------------------------

  /** The tooltip colour as the source computes it: from the rounded `ndvi`
      of the point rather than from its label. */
  function TooltipClassAsWritten(p: ChartPoint): string {
    if p.ndvi > 0.7 then "text-green-600" else if p.ndvi > 0.5 then "text-yellow-600" else "text-red-600"
  }

  /** A value just above 0.7 is labelled healthy, but rounds to 0.7 and so
      gets the moderate colour: the tooltip shows "Healthy" in yellow. */
  lemma TooltipMismatchAt7004()
    ensures ChartData([0.7004])[0].health == Healthy
    ensures TooltipClassAsWritten(ChartData([0.7004])[0]) == "text-yellow-600"
    ensures TooltipClassAsWritten(ChartData([0.7004])[0]) != ChartData([0.7004])[0].health.TextClass()
  {
    assert Round(0.7004 * 1000.0) == 700;
  }

  /** The tooltip colour taken from the point's label. */
  function TooltipClass(p: ChartPoint): string {
    p.health.TextClass()
  }

  /** With the colour taken from the label, the tooltip never contradicts
      its status text, and it follows the same thresholds as the badge. */
  lemma TooltipMatchesStatus(data: seq<real>, i: int)
    requires 0 <= i < |data|
    ensures TooltipClass(ChartData(data)[i]) == HealthOf(data[i]).TextClass()
    ensures i == |data| - 1 ==> TooltipClass(ChartData(data)[i]) == CurrentHealth(data[i]).TextClass()
  {
  }

  /** On values already at 3 decimals, as the backend produces them, the
      source's colour and the label's colour agree. */
  lemma TooltipAgreesOnThreeDecimals(k: int)
    ensures TooltipClassAsWritten(ChartData([k as real / 1000.0])[0])
            == TooltipClass(ChartData([k as real / 1000.0])[0])
  {
    Round3Exact(k);
  }
}
