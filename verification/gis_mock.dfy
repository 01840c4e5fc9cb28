/** The synthetic analysis engine of the backend (backend/utils/gisMock.js):
    a 4-year NDVI trend, the degradation score derived from it, the
    environmental context of a region and the satellite metadata.

    `Math.random` is replaced by an injected sequence `rand` of draws in [0,1),
    consumed in the order the source calls it:
      rand[0]                 the per-run decline rate,
      rand[2 * y] (y > 0)     the decline multiplier of year y,
      rand[2 * y + 1]         the seasonal variation of year y,
      rand[8], [9], [10]      cloud cover, image age and confidence. */
module GisMock {
  import opened Wrappers
  import opened Numeric
  import opened Text

  const Years := 4
  /** Draws consumed by one trend. */
  const NdviDraws := 8
  /** Draws consumed by one satellite analysis. */
  const AnalysisDraws := NdviDraws + 3
  /** Thirty days in milliseconds, the largest age of the last image. */
  const MonthMs: real := 2592000000.0

  predicate IsUniformDraws(rand: seq<real>) {
    forall i :: 0 <= i < |rand| ==> 0.0 <= rand[i] < 1.0
  }

  function Last(s: seq<real>): real
    requires |s| > 0
  {
    s[|s| - 1]
  }

  // ---------------------------------------------------------------------
  // Base NDVI: latitude band, overridden by region keywords
  // ---------------------------------------------------------------------

  /** The climate-band base NDVI, decided from the coordinates alone. */
  function LatitudeBase(lat: real, lng: real): (b: real)
    ensures Abs(lat) > 60.0 ==> b == 0.4
    ensures 40.0 < Abs(lat) <= 60.0 ==> b == 0.6
    ensures 23.5 <= Abs(lat) <= 40.0 ==> b == 0.7
    ensures Abs(lat) < 23.5 && -20.0 < lng < 50.0 ==> b == 0.5
    ensures Abs(lat) < 23.5 && !(-20.0 < lng < 50.0) ==> b == 0.8
  {
    if Abs(lat) > 60.0 then 0.4
    else if Abs(lat) > 40.0 then 0.6
    else if Abs(lat) < 23.5 then
      (if lng > -20.0 && lng < 50.0 && lat > -35.0 && lat < 35.0 then 0.5 else 0.8)
    else 0.7
  }

  /** The region-keyword groups of the trend generator, in priority order. */
  const BaseRules: seq<Rule<real>> := [
    Rule(["sahel", "desert", "rajasthan"], 0.3),
    Rule(["machakos", "kenya"], 0.6),
    Rule(["brazil", "amazon"], 0.8),
    Rule(["mongolia", "grassland"], 0.5)
  ]

  /** The `else if` chain over the lower-cased region name. */
  function KeywordBase(lower: string): Option<real> {
    if Contains(lower, "sahel") || Contains(lower, "desert") || Contains(lower, "rajasthan") then Some(0.3)
    else if Contains(lower, "machakos") || Contains(lower, "kenya") then Some(0.6)
    else if Contains(lower, "brazil") || Contains(lower, "amazon") then Some(0.8)
    else if Contains(lower, "mongolia") || Contains(lower, "grassland") then Some(0.5)
    else None
  }

  lemma ContainsAnyOf2(s: string, a: string, b: string)
    ensures ContainsAny(s, [a, b]) <==> Contains(s, a) || Contains(s, b)
  {
    var ks := [a, b];
    if Contains(s, a) { assert Contains(s, ks[0]); }
    if Contains(s, b) { assert Contains(s, ks[1]); }
  }

  lemma ContainsAnyOf3(s: string, a: string, b: string, c: string)
    ensures ContainsAny(s, [a, b, c]) <==> Contains(s, a) || Contains(s, b) || Contains(s, c)
  {
    var ks := [a, b, c];
    if Contains(s, a) { assert Contains(s, ks[0]); }
    if Contains(s, b) { assert Contains(s, ks[1]); }
    if Contains(s, c) { assert Contains(s, ks[2]); }
  }

  /** The `else if` chain is the top-to-bottom lookup in the keyword table:
      the first group that matches wins. */
  lemma KeywordBaseIsFirstMatch(lower: string)
    ensures KeywordBase(lower) == FirstMatch(BaseRules, lower)
  {
    ContainsAnyOf3(lower, "sahel", "desert", "rajasthan");
    ContainsAnyOf2(lower, "machakos", "kenya");
    ContainsAnyOf2(lower, "brazil", "amazon");
    ContainsAnyOf2(lower, "mongolia", "grassland");
    var r1, r2, r3 := BaseRules[1..], BaseRules[2..], BaseRules[3..];
    assert r1 == [BaseRules[1], BaseRules[2], BaseRules[3]] && r1[1..] == r2;
    assert r2 == [BaseRules[2], BaseRules[3]] && r2[1..] == r3;
    assert r3 == [BaseRules[3]] && r3[1..] == [];
    assert FirstMatch(r3, lower) == if ContainsAny(lower, BaseRules[3].keywords) then Some(0.5) else None;
  }

  /** The starting NDVI of a trend: the latitude band, then the keyword chain. */
  function BaseNdvi(lat: real, lng: real, region: string): (b: real)
    ensures b in {0.3, 0.4, 0.5, 0.6, 0.7, 0.8}
  {
    match KeywordBase(ToLower(region))
    case Some(k) => k
    case None => LatitudeBase(lat, lng)
  }

  /** A keyword of the region name, matched case-insensitively, overrides the
      latitude band; among keywords the first group of the table wins. */
  lemma BaseNdviPrecedence(lat: real, lng: real, region: string)
    ensures BaseNdvi(lat, lng, region) == FirstMatch(BaseRules, ToLower(region)).GetOr(LatitudeBase(lat, lng))
  {
    KeywordBaseIsFirstMatch(ToLower(region));
  }

  // ---------------------------------------------------------------------
  // The trend
  // ---------------------------------------------------------------------

  /** `0.02 + Math.random() * 0.06`: the decline rate, drawn once per run. */
  function DeclineRate(r: real): (rate: real)
    requires 0.0 <= r < 1.0
    ensures 0.02 <= rate < 0.08
  {
    0.02 + r * 0.06
  }

  /** `rate * (1 + Math.random() * 0.5)`: the decline applied in a later year. */
  function YearDecline(rate: real, r: real): (d: real)
    requires 0.0 <= r < 1.0 && rate > 0.0
    ensures rate <= d < 1.5 * rate
  {
    rate * (1.0 + r * 0.5)
  }

  /** `(Math.random() - 0.5) * 0.05`: the seasonal variation of a year. */
  function Variation(r: real): (v: real)
    requires 0.0 <= r < 1.0
    ensures -0.025 <= v < 0.025
  {
    (r - 0.5) * 0.05
  }

  /** The unclamped running value `currentNDVI` in year `year`: year 0 applies
      no decline, each later year subtracts that year's decline. */
  function Running(base: real, rand: seq<real>, year: nat): real
    requires year < Years && |rand| >= NdviDraws && IsUniformDraws(rand)
  {
    if year == 0 then base
    else Running(base, rand, year - 1) - YearDecline(DeclineRate(rand[0]), rand[2 * year])
  }

  /** The published value of a year: the running value plus the variation,
      clamped to [0.1, 1.0] and rounded to 3 decimals. */
  function YearValue(running: real, r: real): real
    requires 0.0 <= r < 1.0
  {
    Round3(Clamp(running + Variation(r), 0.1, 1.0))
  }

  /** A published value lies in [0.1, 1.0]; it is pinned to a bound when the
      jittered running value leaves the range and is within rounding of it
      otherwise. */
  lemma YearValueRange(running: real, r: real)
    requires 0.0 <= r < 1.0
    ensures 0.1 <= YearValue(running, r) <= 1.0
    ensures running + Variation(r) < 0.1 ==> YearValue(running, r) == 0.1
    ensures running + Variation(r) > 1.0 ==> YearValue(running, r) == 1.0
    ensures 0.1 <= running + Variation(r) <= 1.0 ==>
              running + Variation(r) - 0.0005 < YearValue(running, r) <= running + Variation(r) + 0.0005
  {
    var clamped := Clamp(running + Variation(r), 0.1, 1.0);
    Round3Between(clamped, 100, 1000);
    Round3Exact(100);
    Round3Exact(1000);
  }

  /** The trend the generator produces from a base value and the draws. */
  function TrendSpec(base: real, rand: seq<real>): (t: seq<real>)
    requires |rand| >= NdviDraws && IsUniformDraws(rand)
    ensures |t| == Years
  {
    seq(Years, y requires 0 <= y < Years => YearValue(Running(base, rand, y), rand[2 * y + 1]))
  }

  /** Every value of a generated trend is a valid NDVI in [0.1, 1.0]. */
  lemma TrendInRange(base: real, rand: seq<real>)
    requires |rand| >= NdviDraws && IsUniformDraws(rand)
    ensures forall y :: 0 <= y < Years ==> 0.1 <= TrendSpec(base, rand)[y] <= 1.0
  {
    forall y | 0 <= y < Years ensures 0.1 <= TrendSpec(base, rand)[y] <= 1.0 {
      YearValueRange(Running(base, rand, y), rand[2 * y + 1]);
    }
  }

  /** One later year of the loop: the running value drops by that year's decline. */
  lemma RunningStep(base: real, rand: seq<real>, year: nat, previous: real)
    requires 0 < year < Years && |rand| >= NdviDraws && IsUniformDraws(rand)
    requires previous == Running(base, rand, year - 1)
    ensures previous - (0.02 + rand[0] * 0.06) * (1.0 + rand[2 * year] * 0.5) == Running(base, rand, year)
  {
  }

  /** One year of the loop publishes the value the trend holds for that year. */
  lemma PublishedStep(base: real, rand: seq<real>, year: nat, current: real)
    requires year < Years && |rand| >= NdviDraws && IsUniformDraws(rand)
    requires current == Running(base, rand, year)
    ensures Round3(Clamp(current + (rand[2 * year + 1] - 0.5) * 0.05, 0.1, 1.0)) == TrendSpec(base, rand)[year]
  {
  }

  /** `generateMockNDVI`: the loop lowers `currentNDVI` from the second year on
      and pushes the clamped, rounded yearly value. */
  method GenerateMockNdvi(lat: real, lng: real, region: string, rand: seq<real>) returns (trend: seq<real>)
    requires |rand| >= NdviDraws && IsUniformDraws(rand)
    ensures trend == TrendSpec(BaseNdvi(lat, lng, region), rand)
    ensures |trend| == 4
    ensures forall y :: 0 <= y < |trend| ==> 0.1 <= trend[y] <= 1.0
  {
    var baseNdvi := BaseNdvi(lat, lng, region);
    trend := SynthesizeTrend(baseNdvi, rand);
    TrendInRange(baseNdvi, rand);
  }

  /** The trend loop of `generateMockNDVI`, from the base value on. */
  method SynthesizeTrend(base: real, rand: seq<real>) returns (trend: seq<real>)
    requires |rand| >= NdviDraws && IsUniformDraws(rand)
    ensures trend == TrendSpec(base, rand)
  {
    ghost var spec := TrendSpec(base, rand);
    trend := [];
    var current := base;
    var degradationRate := 0.02 + rand[0] * 0.06;
    var next := 1;  // index of the next draw
    for year := 0 to Years
      invariant |trend| == year
      invariant next == if year == 0 then 1 else 2 * year
      invariant current == Running(base, rand, if year == 0 then 0 else year - 1)
      invariant trend == spec[..year]
    {
      if year > 0 {
        RunningStep(base, rand, year, current);
        current := current - degradationRate * (1.0 + rand[next] * 0.5);
        next := next + 1;
      }
      PublishedStep(base, rand, year, current);
      var variation := (rand[next] - 0.5) * 0.05;
      next := next + 1;
      var yearNdvi := Clamp(current + variation, 0.1, 1.0);
      trend := trend + [Round3(yearNdvi)];
    }
    assert trend == spec;
  }

  /** Every later year lowers the running value by at least the rate and by
      less than one and a half times the rate. */
  lemma RunningYearStep(base: real, rand: seq<real>, year: nat)
    requires 0 < year < Years && |rand| >= NdviDraws && IsUniformDraws(rand)
    ensures DeclineRate(rand[0]) <= Running(base, rand, year - 1) - Running(base, rand, year)
                                 < 1.5 * DeclineRate(rand[0])
  {
  }

  /** Across several years the running value strictly decreases, by at least
      0.02 and by less than 0.12 per year. */
  lemma {:induction false} RunningDecreases(base: real, rand: seq<real>, i: nat, j: nat)
    requires i < j < Years && |rand| >= NdviDraws && IsUniformDraws(rand)
    ensures Running(base, rand, j) < Running(base, rand, i)
    ensures Running(base, rand, i) - 0.12 * (j - i) as real < Running(base, rand, j)
                                                            <= Running(base, rand, i) - 0.02 * (j - i) as real
  {
    RunningYearStep(base, rand, j);
    if i < j - 1 {
      RunningDecreases(base, rand, i, j - 1);
    }
  }

  /** The first year carries no decline: it lies within the seasonal jitter of
      the base (for a base with 3 decimals, away from the clamping bounds). */
  lemma FirstYearNearBase(base: real, rand: seq<real>, k: int)
    requires |rand| >= NdviDraws && IsUniformDraws(rand)
    requires base == k as real / 1000.0 && 125 <= k <= 975
    ensures base - 0.025 <= TrendSpec(base, rand)[0] <= base + 0.025
  {
    var x := base + Variation(rand[1]);
    assert Clamp(x, 0.1, 1.0) == x;
    Round3Between(x, k - 25, k + 25);
  }

  // ---------------------------------------------------------------------
  // Degradation score
  // ---------------------------------------------------------------------

  /** `calculateDegradationScore`: the fractional decline from the first to the
      last value, clamped to [0, 1] and rounded to 3 decimals; 0.3 when the
      trend is missing or has fewer than 2 values. The division by the first
      value is unguarded in the source, so a first value of 0 is excluded. */
  function DegradationScore(trend: Option<seq<real>>): (score: real)
    requires trend.Some? && |trend.value| >= 2 ==> trend.value[0] != 0.0
    ensures trend.None? || |trend.value| < 2 ==> score == 0.3
    ensures 0.0 <= score <= 1.0
    ensures trend.Some? && |trend.value| >= 2 && trend.value[0] > 0.0 && Last(trend.value) >= trend.value[0]
            ==> score == 0.0
  {
    if trend.None? || |trend.value| < 2 then 0.3
    else
      var first := trend.value[0];
      var last := trend.value[|trend.value| - 1];
      var decline := (first - last) / first;
      var clamped := Clamp(decline, 0.0, 1.0);
      Round3Between(clamped, 0, 1000);
      assert first > 0.0 && last >= first ==> decline <= 0.0;
      Round3Exact(0);
      Round3(clamped)
  }

  /** A larger drop from the same first value never gives a smaller score. */
  lemma ScoreMonotone(t1: seq<real>, t2: seq<real>)
    requires |t1| >= 2 && |t2| >= 2 && t1[0] == t2[0] && t1[0] > 0.0
    requires Last(t1) <= Last(t2)
    ensures DegradationScore(Some(t1)) >= DegradationScore(Some(t2))
  {
    var first := t1[0];
    var d1 := (first - Last(t1)) / first;
    var d2 := (first - Last(t2)) / first;
    assert d1 - d2 == (Last(t2) - Last(t1)) / first;
    assert d1 >= d2;
    Round3Monotone(Clamp(d2, 0.0, 1.0), Clamp(d1, 0.0, 1.0));
  }

  lemma DivideAtMost(a: real, b: real, c: real)
    requires b > 0.0 && a <= c * b
    ensures a / b <= c
  {
  }

  /** For a trend in [0.1, 1.0] the score is at most 0.9: the floor of 0.1
      bounds the largest possible decline. */
  lemma ScoreAtMostNineTenths(t: seq<real>)
    requires |t| >= 2 && forall i :: 0 <= i < |t| ==> 0.1 <= t[i] <= 1.0
    ensures DegradationScore(Some(t)) <= 0.9
  {
    var first, last := t[0], Last(t);
    var d := (first - last) / first;
    assert first - last <= 0.9 * first;
    DivideAtMost(first - last, first, 0.9);
    Round3Between(Clamp(d, 0.0, 1.0), 0, 900);
  }

  // ---------------------------------------------------------------------
  // Satellite analysis
  // ---------------------------------------------------------------------

  datatype SatelliteAnalysis = SatelliteAnalysis(
    ndviTrend: seq<real>,
    degradationScore: real,
    dataQuality: string,
    cloudCover: int,
    lastImageDate: real,  // milliseconds since the epoch
    satelliteSource: string,
    resolution: string,
    confidence: int)

  /** `Math.round(Math.random() * 30)`: the cloud cover in percent. */
  function CloudCover(r: real): (c: int)
    requires 0.0 <= r < 1.0
    ensures 0 <= c <= 30
  {
    Round(r * 30.0)
  }

  /** `Math.random() * 30 days` in milliseconds: the age of the last image. */
  function ImageAge(r: real): (ms: real)
    requires 0.0 <= r < 1.0
    ensures 0.0 <= ms < MonthMs
  {
    r * 30.0 * 24.0 * 60.0 * 60.0 * 1000.0
  }

  /** `Math.round((0.8 + Math.random() * 0.2) * 100)`: the confidence in percent. */
  function Confidence(r: real): (c: int)
    requires 0.0 <= r < 1.0
    ensures 80 <= c <= 100
  {
    Round((0.8 + r * 0.2) * 100.0)
  }

  /** `analyzeSatelliteData` without its artificial delay: the trend, its
      score, and metadata drawn from the next three draws; `now` is the clock. */
  method AnalyzeSatelliteData(lat: real, lng: real, region: string, rand: seq<real>, now: real)
    returns (a: SatelliteAnalysis)
    requires |rand| >= AnalysisDraws && IsUniformDraws(rand)
    ensures a.ndviTrend == TrendSpec(BaseNdvi(lat, lng, region), rand)
    ensures a.degradationScore == DegradationScore(Some(a.ndviTrend))
    ensures 0.0 <= a.degradationScore <= 0.9
    ensures a.cloudCover == CloudCover(rand[NdviDraws]) && 0 <= a.cloudCover <= 30
    ensures a.confidence == Confidence(rand[NdviDraws + 2]) && 80 <= a.confidence <= 100
    ensures a.lastImageDate == now - ImageAge(rand[NdviDraws + 1])
    ensures now - MonthMs < a.lastImageDate <= now
    ensures a.dataQuality == "high" && a.satelliteSource == "Sentinel-2 (simulated)"
  {
    var ndviTrend := GenerateMockNdvi(lat, lng, region, rand);
    var degradationScore := DegradationScore(Some(ndviTrend));
    ScoreAtMostNineTenths(ndviTrend);
    a := SatelliteAnalysis(
      ndviTrend,
      degradationScore,
      "high",
      CloudCover(rand[NdviDraws]),
      now - ImageAge(rand[NdviDraws + 1]),
      "Sentinel-2 (simulated)",
      "10m",
      Confidence(rand[NdviDraws + 2]));
  }

  // ---------------------------------------------------------------------
  // Environmental context
  // ---------------------------------------------------------------------

  datatype ClimateZone = Tropical | Temperate | Arid | SemiArid {
    function Name(): string {
      match this
      case Tropical => "tropical"
      case Temperate => "temperate"
      case Arid => "arid"
      case SemiArid => "semi-arid"
    }
  }

  datatype Classification = Classification(climateZone: ClimateZone, avgRainfall: int, primaryThreats: seq<string>)

  datatype EnvironmentalContext = EnvironmentalContext(
    climateZone: ClimateZone,
    avgRainfall: int,  // millimetres per year
    primaryThreats: seq<string>,
    soilType: string,
    landUse: string)
  {
    function Classified(): Classification {
      Classification(climateZone, avgRainfall, primaryThreats)
    }
  }

  const DefaultThreats: seq<string> := ["soil erosion", "climate variability"]
  const AridContext := Classification(Arid, 200, ["desertification", "drought", "overgrazing"])
  const SemiAridContext := Classification(SemiArid, 500, ["soil erosion", "drought", "deforestation"])

  /** The keyword groups of the context classifier, in priority order. */
  const ContextRules: seq<Rule<Classification>> := [
    Rule(["sahel", "desert"], AridContext),
    Rule(["kenya", "machakos"], SemiAridContext)
  ]

  /** The classification from the latitude alone. */
  function LatitudeContext(lat: real): (c: Classification)
    ensures Abs(lat) < 23.5 ==> c == Classification(Tropical, 1200, DefaultThreats)
    ensures Abs(lat) > 40.0 ==> c == Classification(Temperate, 600, DefaultThreats)
    ensures 23.5 <= Abs(lat) <= 40.0 ==> c == Classification(Temperate, 800, DefaultThreats)
  {
    if Abs(lat) < 23.5 then Classification(Tropical, 1200, DefaultThreats)
    else if Abs(lat) > 40.0 then Classification(Temperate, 600, DefaultThreats)
    else Classification(Temperate, 800, DefaultThreats)
  }

  /** `getEnvironmentalContext` without its random elevation: the latitude
      default, then the region keywords, each assignment overriding the last. */
  function GetEnvironmentalContext(lat: real, lng: real, region: string): (c: EnvironmentalContext)
    ensures c.Classified() == FirstMatch(ContextRules, ToLower(region)).GetOr(LatitudeContext(lat))
    ensures c.soilType == "mixed" && c.landUse == "agriculture/pastoral"
  {
    var regionLower := ToLower(region);
    var (zone, rainfall, threats) :=
      if Abs(lat) < 23.5 then (Tropical, 1200, DefaultThreats)
      else if Abs(lat) > 40.0 then (Temperate, 600, DefaultThreats)
      else (Temperate, 800, DefaultThreats);
    ContainsAnyOf2(regionLower, "sahel", "desert");
    ContainsAnyOf2(regionLower, "kenya", "machakos");
    assert ContextRules[1..][1..] == [];
    if Contains(regionLower, "sahel") || Contains(regionLower, "desert") then
      EnvironmentalContext(Arid, 200, ["desertification", "drought", "overgrazing"], "mixed", "agriculture/pastoral")
    else if Contains(regionLower, "kenya") || Contains(regionLower, "machakos") then
      EnvironmentalContext(SemiArid, 500, ["soil erosion", "drought", "deforestation"], "mixed", "agriculture/pastoral")
    else
      EnvironmentalContext(zone, rainfall, threats, "mixed", "agriculture/pastoral")
  }

  /** Without keywords, the two latitude classifiers agree: the zone is tropical
      exactly when the trend starts from a tropical base (0.5 or 0.8), and the
      rainfall is 600 exactly when the base is a high-latitude one (0.4 or 0.6). */
  lemma LatitudeClassifiersAgree(lat: real, lng: real)
    ensures LatitudeContext(lat).climateZone == Tropical <==> LatitudeBase(lat, lng) in {0.5, 0.8}
    ensures LatitudeContext(lat).avgRainfall == 600 <==> LatitudeBase(lat, lng) in {0.4, 0.6}
  {
  }

  /** A region named after the Sahel or a desert gets both the lowest starting
      NDVI and the arid classification, whatever its coordinates. */
  lemma DesertRegionsAreAridAndSparse(lat: real, lng: real, region: string)
    requires Contains(ToLower(region), "sahel") || Contains(ToLower(region), "desert")
    ensures BaseNdvi(lat, lng, region) == 0.3
    ensures GetEnvironmentalContext(lat, lng, region).Classified() == AridContext
  {
    ContainsAnyOf3(ToLower(region), "sahel", "desert", "rajasthan");
    ContainsAnyOf2(ToLower(region), "sahel", "desert");
  }

  /** The Machakos sample region is classified as semi-arid, 500 mm. */
  lemma MachakosIsSemiArid()
    ensures GetEnvironmentalContext(-1.5177, 37.2634, "Machakos County, Kenya").Classified() == SemiAridContext
  {
    var s := ToLower("Machakos County, Kenya");
    assert s == "machakos county, kenya";
    assert OccursAt(s, "kenya", 17);
    NotContainsMissingChar(s, "sahel", 4);   // no 'l'
    NotContainsMissingChar(s, "desert", 0);  // no 'd'
  }

  /** The Kelvin sign lower-cases to 'k', so a region spelt with it still
      names Kenya: away from the tropics the keyword decides both the
      starting NDVI and the climate context. */
  lemma KelvinSignNamesKenya()
    ensures LatitudeBase(30.0, 0.0) != 0.6
    ensures BaseNdvi(30.0, 0.0, "\U{212A}ENYA") == 0.6
    ensures GetEnvironmentalContext(30.0, 0.0, "\U{212A}ENYA").Classified() == SemiAridContext
  {
    var s := ToLower("\U{212A}ENYA");
    assert s == "kenya";
    assert OccursAt(s, "kenya", 0);
    NotContainsMissingChar(s, "sahel", 0);      // no 's'
    NotContainsMissingChar(s, "desert", 0);     // no 'd'
    NotContainsMissingChar(s, "rajasthan", 0);  // no 'r'
  }
}
