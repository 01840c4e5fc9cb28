/** The analysis routes of the backend (backend/routes/analyze.js): POST
    /analyze validates the body, composes the satellite analysis, the
    environmental context and the recommendations, and tries to store the
    result; GET /history/:region and GET /regions return fixed shapes.

    The request body is a dynamic value (`Js.Value`). The clock (`now`), the
    draws (`rand`), whether a language-model client exists, the reply of that
    client and the outcome of the storage call are inputs. */
module AnalyzeRoute {
  import opened Js
  import opened Wrappers
  import GisMock
  import Claude
  import Regions

  /** Index of the draw that picks the canned recommendation template: the
      satellite analysis consumes the draws before it. */
  const TemplateDraw := GisMock.AnalysisDraws

  /** What the storage call did: returned a stored row, or threw. */
  datatype StoreOutcome = Stored(id: string) | StoreFailed

  datatype Metadata = Metadata(
    dataQuality: string,
    cloudCover: int,
    lastImageDate: real,
    satelliteSource: string,
    confidence: int,
    climateZone: string,
    avgRainfall: int,
    primaryThreats: seq<string>)

  /** `analysisResult`; `id` is present only once storage succeeded. */
  datatype AnalysisResult = AnalysisResult(
    region: string,
    coordinates: Value,
    ndviTrend: seq<real>,
    degradationScore: real,
    aiSummary: Claude.Summary,
    metadata: Metadata,
    analysisDate: real,
    id: Option<string>)

  /** 400 with the input error, 500 carrying the request's region (or
      "unknown"), or the result. */
  datatype Response = BadRequest | ServerError(region: Value) | Ok(result: AnalysisResult)

  predicate IsNullish(v: Value) {
    v.Undefined? || v.Null?
  }

  /** The input check: a region, coordinates, and numeric lat and lng. */
  predicate InvalidInput(body: Value) {
    var coordinates := Get(body, "coordinates");
    !Truthy(Get(body, "region")) || !Truthy(coordinates)
    || !Get(coordinates, "lat").Num? || !Get(coordinates, "lng").Num?
  }

  /** `req.body?.region || 'unknown'`. */
  function ErrorRegion(body: Value): (r: Value)
    ensures IsNullish(body) ==> r == Str("unknown")
    ensures !IsNullish(body) && Truthy(Get(body, "region")) ==> r == Get(body, "region")
    ensures !IsNullish(body) && !Truthy(Get(body, "region")) ==> r == Str("unknown")
    ensures Truthy(r)
  {
    if !IsNullish(body) && Truthy(Get(body, "region")) then Get(body, "region") else Str("unknown")
  }

  /** POST /analyze. Destructuring a missing body throws, and so does
      lower-casing a region that is not a string; both land in the 500
      handler. A failed storage call only leaves `id` unset. */
  method PostAnalyze(body: Value, rand: seq<real>, now: real, hasClient: bool,
                     reply: Claude.ApiReply, store: StoreOutcome) returns (response: Response)
    requires |rand| > TemplateDraw && GisMock.IsUniformDraws(rand)
    ensures response.BadRequest? <==> !IsNullish(body) && InvalidInput(body)
    ensures response.ServerError? <==>
              IsNullish(body) || (!InvalidInput(body) && !Get(body, "region").Str?)
    ensures response.ServerError? ==> response.region == ErrorRegion(body)
    ensures response.Ok? ==>
              var r := response.result;
              var coordinates := Get(body, "coordinates");
              var lat := Get(coordinates, "lat").n;
              var lng := Get(coordinates, "lng").n;
              && Get(body, "region") == Str(r.region)
              && r.coordinates == coordinates
              && r.ndviTrend == GisMock.TrendSpec(GisMock.BaseNdvi(lat, lng, r.region), rand)
              && r.degradationScore == GisMock.DegradationScore(Some(r.ndviTrend))
              && r.aiSummary == Claude.GenerateRecommendations(hasClient, reply, rand[TemplateDraw],
                                  r.region, r.ndviTrend, r.degradationScore).summary
              && r.metadata.climateZone == GisMock.GetEnvironmentalContext(lat, lng, r.region).climateZone.Name()
              && r.metadata.avgRainfall == GisMock.GetEnvironmentalContext(lat, lng, r.region).avgRainfall
              && r.metadata.primaryThreats == GisMock.GetEnvironmentalContext(lat, lng, r.region).primaryThreats
              && r.metadata.dataQuality == "high"
              && r.metadata.satelliteSource == "Sentinel-2 (simulated)"
              && r.metadata.cloudCover == GisMock.CloudCover(rand[GisMock.NdviDraws])
              && r.metadata.lastImageDate == now - GisMock.ImageAge(rand[GisMock.NdviDraws + 1])
              && r.metadata.confidence == GisMock.Confidence(rand[GisMock.NdviDraws + 2])
              && 0 <= r.metadata.cloudCover <= 30
              && 80 <= r.metadata.confidence <= 100
              && r.analysisDate == now
              && (r.id.Some? <==> store.Stored?)
              && (store.Stored? ==> r.id == Some(store.id))
  {
    if IsNullish(body) {
      return ServerError(ErrorRegion(body));
    }
    var region := Get(body, "region");
    var coordinates := Get(body, "coordinates");
    if !Truthy(region) || !Truthy(coordinates)
       || !Get(coordinates, "lat").Num? || !Get(coordinates, "lng").Num? {
      return BadRequest;
    }
    if !region.Str? {
      return ServerError(ErrorRegion(body));
    }
    var lat := Get(coordinates, "lat").n;
    var lng := Get(coordinates, "lng").n;
    var satelliteData := GisMock.AnalyzeSatelliteData(lat, lng, region.s, rand, now);
    var environmentalContext := GisMock.GetEnvironmentalContext(lat, lng, region.s);
    var aiSummary := Claude.GenerateRecommendations(hasClient, reply, rand[TemplateDraw], region.s,
                                                   satelliteData.ndviTrend, satelliteData.degradationScore).summary;
    var analysisResult := AnalysisResult(
      region.s,
      coordinates,
      satelliteData.ndviTrend,
      satelliteData.degradationScore,
      aiSummary,
      Metadata(
        satelliteData.dataQuality,
        satelliteData.cloudCover,
        satelliteData.lastImageDate,
        satelliteData.satelliteSource,
        satelliteData.confidence,
        environmentalContext.climateZone.Name(),
        environmentalContext.avgRainfall,
        environmentalContext.primaryThreats),
      now,
      None);
    if store.Stored? {
      analysisResult := analysisResult.(id := Some(store.id));
    }
    return Ok(analysisResult);
  }

  // ---------------------------------------------------------------------
  // GET /history/:region
  // ---------------------------------------------------------------------

  /** One past analysis; `analysisDate` is in milliseconds since the epoch. */
  datatype HistoryEntry = HistoryEntry(
    id: string,
    region: string,
    analysisDate: real,
    degradationScore: real,
    summary: string)

  datatype HistoryResponse =
    | HistoryBadRequest
    | History(region: string, history: seq<HistoryEntry>, totalAnalyses: int)

  const DayMs: real := 24.0 * 60.0 * 60.0 * 1000.0

  /** The canned history of a region: two past analyses, 30 and 90 days old. */
  function MockHistory(region: string, now: real): (h: seq<HistoryEntry>)
    ensures |h| == 2
    ensures forall i :: 0 <= i < |h| ==> h[i].region == region && h[i].analysisDate < now
  {
    [ HistoryEntry("hist_1", region, now - 30.0 * DayMs, 0.15,
                   "Previous analysis showed moderate degradation risk"),
      HistoryEntry("hist_2", region, now - 90.0 * DayMs, 0.12,
                   "Earlier analysis indicated improving conditions") ]
  }

  /** GET /history/:region: an empty region is refused; otherwise the canned
      history, its length as the total, every entry naming the region. */
  function GetHistory(region: string, now: real): (r: HistoryResponse)
    ensures r.HistoryBadRequest? <==> region == ""
    ensures r.History? ==>
              && r.region == region
              && r.totalAnalyses == |r.history| == 2
              && (forall i :: 0 <= i < |r.history| ==> r.history[i].region == region)
  {
    if region == "" then HistoryBadRequest
    else
      var mockHistory := MockHistory(region, now);
      History(region, mockHistory, |mockHistory|)
  }

  /** The entries come newest first, and both past scores are of moderate risk. */
  lemma HistoryIsNewestFirst(region: string, now: real)
    requires region != ""
    ensures GetHistory(region, now).history[0].analysisDate > GetHistory(region, now).history[1].analysisDate
    ensures Claude.GetSeverityLevel(GetHistory(region, now).history[0].degradationScore) == Claude.ModerateRisk
    ensures Claude.GetSeverityLevel(GetHistory(region, now).history[1].degradationScore) == Claude.ModerateRisk
  {
  }

  // ---------------------------------------------------------------------
  // GET /regions
  // ---------------------------------------------------------------------

  datatype RegionsResponse = RegionsResponse(regions: seq<Regions.SampleRegion>, total: int)

  /** GET /regions: the sample regions and their count. */
  function ListRegions(): (r: RegionsResponse)
    ensures r.total == |r.regions| == 5
    ensures forall i :: 0 <= i < |r.regions| ==> r.regions[i].id == (i + 1) as real
  {
    RegionsResponse(Regions.SampleRegions, |Regions.SampleRegions|)
  }
}
