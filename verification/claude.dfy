/** The recommendation side of the backend (backend/utils/claude.js): the two
    threshold classifiers that describe a trend and a score, the choice of a
    canned template, and the fallback policy around the language-model call.

    The call itself is not modelled: its outcome is an input (`ApiReply`), and
    the prompt text it would be sent is left out. */
module Claude {
  import opened Wrappers
  import opened Numeric
  import GisMock

  // ---------------------------------------------------------------------
  // Trend wording
  // ---------------------------------------------------------------------

  datatype TrendWording = InsufficientData | Improving | Stable | ModerateDecline | SevereDegradation {
    function Text(): string {
      match this
      case InsufficientData => "insufficient data"
      case Improving => "improving vegetation health"
      case Stable => "stable vegetation with minor fluctuations"
      case ModerateDecline => "moderate vegetation decline"
      case SevereDegradation => "severe vegetation degradation"
    }
  }

  /** `describeTrend`: the percent change from the first to the last value,
      cut at +10, -10 and -25. A first value of 0 divides by zero in the
      source; the model asks for a non-zero first value instead. */
  function DescribeTrend(trend: seq<real>): (w: TrendWording)
    requires |trend| >= 2 ==> trend[0] != 0.0
    ensures w == InsufficientData <==> |trend| < 2
  {
    if |trend| < 2 then InsufficientData
    else
      var first := trend[0];
      var last := trend[|trend| - 1];
      var change := (last - first) / first * 100.0;
      if change > 10.0 then Improving
      else if change > -10.0 then Stable
      else if change > -25.0 then ModerateDecline
      else SevereDegradation
  }

  /** For a positive first value the wording is decided by the ratio of the
      last value to the first: above 1.1 improving, above 0.9 stable, above
      0.75 a moderate decline, otherwise severe. */
  lemma DescribeTrendByRatio(trend: seq<real>)
    requires |trend| >= 2 && trend[0] > 0.0
    ensures DescribeTrend(trend) == Improving <==> GisMock.Last(trend) > 1.1 * trend[0]
    ensures DescribeTrend(trend) == Stable <==>
              0.9 * trend[0] < GisMock.Last(trend) <= 1.1 * trend[0]
    ensures DescribeTrend(trend) == ModerateDecline <==>
              0.75 * trend[0] < GisMock.Last(trend) <= 0.9 * trend[0]
    ensures DescribeTrend(trend) == SevereDegradation <==> GisMock.Last(trend) <= 0.75 * trend[0]
  {
    var first := trend[0];
    var last := GisMock.Last(trend);
    DivideCompare(last - first, first, 0.1);
    DivideCompare(last - first, first, -0.1);
    DivideCompare(last - first, first, -0.25);
  }

  /** Comparing a quotient by a positive divisor is comparing the dividend
      with the scaled bound. */
  lemma DivideCompare(x: real, d: real, k: real)
    requires d > 0.0
    ensures x / d > k <==> x > k * d
    ensures x / d >= k <==> x >= k * d
  {
    var q := x / d;
    assert q * d == x;
    if q > k {
      assert (q - k) * d > 0.0;
    } else {
      assert (k - q) * d >= 0.0;
    }
    if q >= k {
      assert (q - k) * d >= 0.0;
    } else {
      assert (k - q) * d > 0.0;
    }
  }

  // ---------------------------------------------------------------------
  // Severity of a score
  // ---------------------------------------------------------------------

  datatype Severity = LowRisk | ModerateRisk | HighRisk | SevereRisk {
    function Text(): string {
      match this
      case LowRisk => "Low Risk"
      case ModerateRisk => "Moderate Risk"
      case HighRisk => "High Risk"
      case SevereRisk => "Severe Risk"
    }

    /** Position in the order low < moderate < high < severe. */
    function Rank(): nat {
      match this
      case LowRisk => 0
      case ModerateRisk => 1
      case HighRisk => 2
      case SevereRisk => 3
    }
  }

  /** The risk band of a score: how many of the cut points 0.1, 0.25 and 0.5
      the score has reached. Both the backend severity and the dashboard's
      degradation level are read against this one definition. */
  function RiskBand(score: real): (band: nat)
    ensures band <= 3
  {
    (if score >= 0.1 then 1 else 0) + (if score >= 0.25 then 1 else 0) + (if score >= 0.5 then 1 else 0)
  }

  /** `getSeverityLevel`: strict upper cuts at 0.1, 0.25 and 0.5. */
  function GetSeverityLevel(score: real): (s: Severity)
    ensures s.Rank() == RiskBand(score)
  {
    if score < 0.1 then LowRisk
    else if score < 0.25 then ModerateRisk
    else if score < 0.5 then HighRisk
    else SevereRisk
  }

  /** A higher score never gets a milder severity. */
  lemma SeverityMonotone(a: real, b: real)
    requires a <= b
    ensures GetSeverityLevel(a).Rank() <= GetSeverityLevel(b).Rank()
  {
  }

  /** Each cut point belongs to the band above it. */
  lemma SeverityBoundaries()
    ensures GetSeverityLevel(0.0) == LowRisk && GetSeverityLevel(0.1) == ModerateRisk
    ensures GetSeverityLevel(0.25) == HighRisk && GetSeverityLevel(0.5) == SevereRisk
  {
  }

  // ---------------------------------------------------------------------
  // The wording of a trend against the severity of its score
  // ---------------------------------------------------------------------

  /** An improving trend scores 0, so it is low risk. */
  lemma ImprovingIsLowRisk(trend: seq<real>)
    requires |trend| >= 2 && trend[0] > 0.0
    requires DescribeTrend(trend) == Improving
    ensures GetSeverityLevel(GisMock.DegradationScore(Some(trend))) == LowRisk
  {
    DescribeTrendByRatio(trend);
  }

  /** A stable trend declines by less than 10%, so it is at most moderate risk. */
  lemma StableIsAtMostModerate(trend: seq<real>)
    requires |trend| >= 2 && trend[0] > 0.0
    requires DescribeTrend(trend) == Stable
    ensures GetSeverityLevel(GisMock.DegradationScore(Some(trend))).Rank() <= 1
  {
    DescribeTrendByRatio(trend);
    var first := trend[0];
    var last := GisMock.Last(trend);
    DeclineBelow(first, last, 0.9, 0.1);
    Round3Between(Clamp((first - last) / first, 0.0, 1.0), 0, 100);
  }

  /** A moderate decline loses 10% to 25%, so it is moderate or high risk. */
  lemma ModerateDeclineIsModerateOrHigh(trend: seq<real>)
    requires |trend| >= 2 && trend[0] > 0.0
    requires DescribeTrend(trend) == ModerateDecline
    ensures 1 <= GetSeverityLevel(GisMock.DegradationScore(Some(trend))).Rank() <= 2
  {
    DescribeTrendByRatio(trend);
    var first := trend[0];
    var last := GisMock.Last(trend);
    DeclineBelow(first, last, 0.75, 0.25);
    DeclineAtLeast(first, last, 0.9, 0.1);
    Round3Between(Clamp((first - last) / first, 0.0, 1.0), 100, 250);
  }

  /** A severe degradation loses at least 25%, so it is high or severe risk. */
  lemma SevereDegradationIsHighRisk(trend: seq<real>)
    requires |trend| >= 2 && trend[0] > 0.0
    requires DescribeTrend(trend) == SevereDegradation
    ensures GetSeverityLevel(GisMock.DegradationScore(Some(trend))).Rank() >= 2
  {
    DescribeTrendByRatio(trend);
    var first := trend[0];
    var last := GisMock.Last(trend);
    DeclineAtLeast(first, last, 0.75, 0.25);
    Round3Between(Clamp((first - last) / first, 0.0, 1.0), 250, 1000);
  }

  /** Keeping more than `keep` of a positive first value is a decline below `1 - keep`. */
  lemma DeclineBelow(first: real, last: real, keep: real, loss: real)
    requires first > 0.0 && loss == 1.0 - keep && last > keep * first
    ensures (first - last) / first < loss
  {
    DivideCompare(first - last, first, loss);
  }

  /** Keeping at most `keep` of a positive first value is a decline of at least `1 - keep`. */
  lemma DeclineAtLeast(first: real, last: real, keep: real, loss: real)
    requires first > 0.0 && loss == 1.0 - keep && last <= keep * first
    ensures (first - last) / first >= loss
  {
    DivideCompare(first - last, first, loss);
  }

  // ---------------------------------------------------------------------
  // Recommendations and their fallback
  // ---------------------------------------------------------------------

  /** Number of canned recommendation templates. */
  const TemplateCount := 2

  /** `Math.floor(Math.random() * templates.length)`. */
  function TemplateIndex(r: real): (i: int)
    requires 0.0 <= r < 1.0
    ensures 0 <= i < TemplateCount
  {
    (r * TemplateCount as real).Floor
  }

  /** Both templates are reachable: the lower half of the draw picks the
      first, the upper half the second. */
  lemma TemplateIndexHalves(r: real)
    requires 0.0 <= r < 1.0
    ensures TemplateIndex(r) == 0 <==> r < 0.5
    ensures TemplateIndex(r) == 1 <==> r >= 0.5
  {
  }

  /** What the language-model call returned: text blocks, or a thrown error. */
  datatype ApiReply = Reply(content: seq<string>) | ApiError(message: string)

  /** A recommendation text: the model's first text block, or a canned
      template filled with the region, trend and score. */
  datatype Summary =
    | AiText(text: string)
    | MockTemplate(index: int, region: string, trend: seq<real>, score: real)

  /** The result of `generateRecommendations` with whether the call was made. */
  datatype Outcome = Outcome(summary: Summary, attemptedCall: bool)

  /** `generateMockRecommendations`: one of the canned templates, chosen by the draw. */
  function MockRecommendations(region: string, trend: seq<real>, score: real, r: real): (s: Summary)
    requires 0.0 <= r < 1.0
    ensures s.MockTemplate? && 0 <= s.index < TemplateCount
    ensures s.index == TemplateIndex(r)
    ensures s.region == region && s.trend == trend && s.score == score
  {
    MockTemplate(TemplateIndex(r), region, trend, score)
  }

  /** `generateRecommendations`: without a client the canned text is returned
      without a call; with one, the first text block of the reply is returned,
      and a thrown error (including reading a block from an empty reply) falls
      back to the canned text. */
  function GenerateRecommendations(hasClient: bool, reply: ApiReply, r: real,
                                   region: string, trend: seq<real>, score: real): (o: Outcome)
    requires 0.0 <= r < 1.0
    ensures o.attemptedCall == hasClient
    ensures !hasClient ==> o.summary == MockRecommendations(region, trend, score, r)
    ensures o.summary.AiText? <==> hasClient && reply.Reply? && |reply.content| > 0
    ensures o.summary.AiText? ==> o.summary.text == reply.content[0]
    ensures !o.summary.AiText? ==> o.summary == MockRecommendations(region, trend, score, r)
  {
    if !hasClient then Outcome(MockRecommendations(region, trend, score, r), false)
    else
      match reply
      case Reply(content) =>
        if |content| > 0 then Outcome(AiText(content[0]), true)
        else Outcome(MockRecommendations(region, trend, score, r), true)
      case ApiError(_) => Outcome(MockRecommendations(region, trend, score, r), true)
  }

  /** An error from the call never escapes: every outcome is a text, and a
      canned one always names a valid template. */
  lemma RecommendationsNeverFail(hasClient: bool, reply: ApiReply, r: real,
                                 region: string, trend: seq<real>, score: real)
    requires 0.0 <= r < 1.0
    requires reply.ApiError?
    ensures GenerateRecommendations(hasClient, reply, r, region, trend, score).summary.MockTemplate?
    ensures 0 <= GenerateRecommendations(hasClient, reply, r, region, trend, score).summary.index < TemplateCount
  {
  }
}
