/** The frontend's offline stand-in for the analysis endpoint
    (frontend/src/api/mockApi.js): a canned analysis response, and
    `mockAnalyzeRegion`, which returns it with the caller's region and
    coordinates spread over it. */
module MockApi {
  import opened Js
  import opened Wrappers
  import opened Numeric
  import GisMock
  import Regions

  const CannedTrend: seq<real> := [0.72, 0.68, 0.61, 0.54]
  const CannedScore: real := 0.25
  const CannedCloudCover := 15
  const CannedConfidence := 92
  const CannedSummary: string :=
    "Vegetation in this region has declined by 25% since 2022 due to soil erosion and climate stress. Recommended actions: 1) Implement contour farming to reduce erosion, 2) Plant drought-tolerant native species, 3) Establish water conservation systems like check dams, 4) Practice rotational grazing to allow vegetation recovery."
  const CannedThreats: seq<string> := ["soil erosion", "drought", "deforestation"]

  function Numbers(xs: seq<real>): (v: Value)
    ensures v.Arr? && |v.items| == |xs|
    ensures forall i :: 0 <= i < |xs| ==> v.items[i] == Num(xs[i])
  {
    Arr(seq(|xs|, i requires 0 <= i < |xs| => Num(xs[i])))
  }

  function Strings(xs: seq<string>): (v: Value)
    ensures v.Arr? && |v.items| == |xs|
    ensures forall i :: 0 <= i < |xs| ==> v.items[i] == Str(xs[i])
  {
    Arr(seq(|xs|, i requires 0 <= i < |xs| => Str(xs[i])))
  }

  const CannedMetadata: map<string, Value> := map[
    "dataQuality" := Str("high"),
    "cloudCover" := Num(CannedCloudCover as real),
    "lastImageDate" := Str("2024-10-01T00:00:00.000Z"),
    "satelliteSource" := Str("Sentinel-2 (simulated)"),
    "confidence" := Num(CannedConfidence as real),
    "climateZone" := Str("semi-arid"),
    "avgRainfall" := Num(500.0),
    "primaryThreats" := Strings(CannedThreats)
  ]

  /** `mockAnalyzeResponse`; `analysisDate` is the time the module was
      loaded, given as `loadedAt`. */
  function MockAnalyzeResponse(loadedAt: string): (m: map<string, Value>)
    ensures "region" in m && "coordinates" in m
    ensures "ndviTrend" in m && m["ndviTrend"] == Numbers(CannedTrend)
    ensures "degradationScore" in m && m["degradationScore"] == Num(CannedScore)
    ensures "aiSummary" in m && m["aiSummary"] == Str(CannedSummary)
    ensures "metadata" in m && m["metadata"] == Obj(CannedMetadata)
    ensures "analysisDate" in m && m["analysisDate"] == Str(loadedAt)
  {
    map[
      "region" := Str("Sample Region"),
      "coordinates" := Obj(map["lat" := Num(-1.5177), "lng" := Num(37.2634)]),
      "ndviTrend" := Numbers(CannedTrend),
      "degradationScore" := Num(CannedScore),
      "aiSummary" := Str(CannedSummary),
      "metadata" := Obj(CannedMetadata),
      "analysisDate" := Str(loadedAt)
    ]
  }

  /** `mockAnalyzeRegion` without its delay: the canned response with the
      given region and coordinates; every other field is the canned one. */
  function MockAnalyzeRegion(region: Value, coordinates: Value, loadedAt: string): (r: map<string, Value>)
    ensures r.Keys == MockAnalyzeResponse(loadedAt).Keys
    ensures r["region"] == region && r["coordinates"] == coordinates
    ensures forall k :: k in r && k != "region" && k != "coordinates" ==> r[k] == MockAnalyzeResponse(loadedAt)[k]
  {
    Spread(MockAnalyzeResponse(loadedAt), map["region" := region, "coordinates" := coordinates])
  }

  /** `mockRegions`: the first two of the sample regions. */
  const MockRegions: seq<Regions.SampleRegion> := [
    Regions.SampleRegion(1.0, "Machakos County, Kenya", -1.5177, 37.2634, "Kenya", "high",
                         "Semi-arid region experiencing severe soil erosion"),
    Regions.SampleRegion(2.0, "Rajasthan Desert, India", 27.0238, 74.2179, "India", "severe",
                         "Desert expansion and drought stress")
  ]

  // ---------------------------------------------------------------------
  // The canned response against what the backend would compute
  // ---------------------------------------------------------------------

  /** The score of every mocked analysis is the backend's score of its
      trend: (0.72 - 0.54) / 0.72 = 0.25. */
  lemma CannedScoreAgrees(region: Value, coordinates: Value, loadedAt: string)
    ensures MockAnalyzeRegion(region, coordinates, loadedAt)["ndviTrend"] == Numbers(CannedTrend)
    ensures MockAnalyzeRegion(region, coordinates, loadedAt)["degradationScore"]
            == Num(GisMock.DegradationScore(Some(CannedTrend)))
  {
    assert (0.72 - 0.54) / 0.72 == 0.25;
    assert Clamp(0.25, 0.0, 1.0) == 0.25;
    Round3Exact(250);
  }

  /** The metadata of every mocked analysis is the canned metadata. */
  lemma MockedMetadata(region: Value, coordinates: Value, loadedAt: string)
    ensures MockAnalyzeRegion(region, coordinates, loadedAt)["metadata"] == Obj(CannedMetadata)
  {
    assert "metadata" != "region" && "metadata" != "coordinates";
  }

  /** The entries of the canned metadata, one key at a time. */
  lemma CannedMetadataEntries()
    ensures Get(Obj(CannedMetadata), "climateZone") == Str("semi-arid")
    ensures Get(Obj(CannedMetadata), "avgRainfall") == Num(500.0)
    ensures Get(Obj(CannedMetadata), "primaryThreats") == Strings(CannedThreats)
    ensures Get(Obj(CannedMetadata), "cloudCover") == Num(15.0)
    ensures Get(Obj(CannedMetadata), "confidence") == Num(92.0)
  {
  }

  /** The climate fields of every mocked analysis are those of the
      semi-arid classification. */
  lemma MockedClimate(region: Value, coordinates: Value, loadedAt: string)
    ensures var metadata := MockAnalyzeRegion(region, coordinates, loadedAt)["metadata"];
            && Get(metadata, "climateZone") == Str(GisMock.SemiAridContext.climateZone.Name())
            && Get(metadata, "avgRainfall") == Num(GisMock.SemiAridContext.avgRainfall as real)
            && Get(metadata, "primaryThreats") == Strings(GisMock.SemiAridContext.primaryThreats)
  {
    MockedMetadata(region, coordinates, loadedAt);
    CannedMetadataEntries();
  }

  /** The climate fields of every mocked analysis are those the backend
      gives a Kenyan or Machakos region. */
  lemma CannedContextAgrees(region: Value, coordinates: Value, loadedAt: string)
    ensures var metadata := MockAnalyzeRegion(region, coordinates, loadedAt)["metadata"];
            && Get(metadata, "climateZone") == Str(GisMock.SemiAridContext.climateZone.Name())
            && Get(metadata, "avgRainfall") == Num(GisMock.SemiAridContext.avgRainfall as real)
            && Get(metadata, "primaryThreats") == Strings(GisMock.SemiAridContext.primaryThreats)
    ensures GisMock.GetEnvironmentalContext(-1.5177, 37.2634, "Machakos County, Kenya").Classified()
            == GisMock.SemiAridContext
  {
    MockedClimate(region, coordinates, loadedAt);
    GisMock.MachakosIsSemiArid();
  }

  /** The cloud cover and confidence of every mocked analysis are values
      the backend can draw: 0.5 gives a cloud cover of 15 and 0.6 a
      confidence of 92. */
  lemma CannedMetadataReachable(region: Value, coordinates: Value, loadedAt: string)
    ensures var metadata := MockAnalyzeRegion(region, coordinates, loadedAt)["metadata"];
            && Get(metadata, "cloudCover") == Num(GisMock.CloudCover(0.5) as real)
            && Get(metadata, "confidence") == Num(GisMock.Confidence(0.6) as real)
  {
    MockedMetadata(region, coordinates, loadedAt);
    CannedMetadataEntries();
    assert 0.5 * 30.0 + 0.5 == 15.5;
    assert (0.8 + 0.6 * 0.2) * 100.0 + 0.5 == 92.5;
  }

  /** The offline region list is a prefix of the sample regions. */
  lemma MockRegionsArePrefix()
    ensures MockRegions == Regions.SampleRegions[..2]
  {
  }
}
