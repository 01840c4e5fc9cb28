/** The 2-D map (frontend/src/components/MapView.jsx): a click picks the
    first sample region within 5 degrees of the clicked point, or makes up a
    generic region there; a marker click picks its region. The region passed
    to `onRegionSelect` is the result; `None` means no call.

    The degree distance `sqrt(dlat² + dlng²) < 5` is compared squared,
    `dlat² + dlng² < 25`, which holds for the same points. */
module MapView {
  import opened Wrappers
  import opened Regions

  /** The squared degree distance between a region and a point. */
  function SquaredDistance(r: SampleRegion, lat: real, lng: real): (d: real)
    ensures d >= 0.0
  {
    (r.lat - lat) * (r.lat - lat) + (r.lng - lng) * (r.lng - lng)
  }

  predicate Near(r: SampleRegion, lat: real, lng: real) {
    SquaredDistance(r, lat, lng) < 25.0
  }

  /** `SAMPLE_REGIONS.find(...)`: the first region, in array order, near the point. */
  function FindNear(regions: seq<SampleRegion>, lat: real, lng: real): (found: Option<nat>)
    ensures found.None? <==> forall j :: 0 <= j < |regions| ==> !Near(regions[j], lat, lng)
    ensures found.Some? ==> found.value < |regions| && Near(regions[found.value], lat, lng)
    ensures found.Some? ==> forall j :: 0 <= j < found.value ==> !Near(regions[j], lat, lng)
  {
    if regions == [] then None
    else if Near(regions[0], lat, lng) then Some(0)
    else
      match FindNear(regions[1..], lat, lng)
      case None => None
      case Some(k) => Some(k + 1)
  }

  /** The region a map click selects: the first nearby sample, or else a
      generic region at the clicked point named after the formatted
      coordinates `coordinatesText` and stamped with the click time. */
  function ClickedRegion(lat: real, lng: real, nowMs: real, coordinatesText: string): (r: SampleRegion)
    ensures FindNear(SampleRegions, lat, lng).Some? ==>
              r == SampleRegions[FindNear(SampleRegions, lat, lng).value]
    ensures FindNear(SampleRegions, lat, lng).None? ==>
              r.lat == lat && r.lng == lng && r.country == "Unknown" && r.degradationLevel == "moderate"
  {
    match FindNear(SampleRegions, lat, lng)
    case Some(i) => SampleRegions[i]
    case None =>
      SampleRegion(nowMs, "Region " + coordinatesText, lat, lng, "Unknown", "moderate",
                   "User-selected region for analysis")
  }

  /** `MapClickHandler`'s click: nothing while loading, otherwise the
      clicked region is selected. */
  function MapClick(loading: bool, lat: real, lng: real, nowMs: real, coordinatesText: string): (selected: Option<SampleRegion>)
    ensures selected.None? <==> loading
    ensures selected.Some? ==> selected.value == ClickedRegion(lat, lng, nowMs, coordinatesText)
  {
    if loading then None else Some(ClickedRegion(lat, lng, nowMs, coordinatesText))
  }

  /** A marker's click: `!loading && onRegionSelect(region)`. */
  function MarkerClick(loading: bool, region: SampleRegion): (selected: Option<SampleRegion>)
    ensures selected.None? <==> loading
    ensures selected.Some? ==> selected.value == region
  {
    if loading then None else Some(region)
  }

  /** Clicking exactly on a region selects it, unless an earlier region is
      also within 5 degrees of it. */
  lemma ClickOnRegion(regions: seq<SampleRegion>, i: nat)
    requires i < |regions|
    requires forall j :: 0 <= j < i ==> !Near(regions[j], regions[i].lat, regions[i].lng)
    ensures FindNear(regions, regions[i].lat, regions[i].lng) == Some(i)
  {
    assert Near(regions[i], regions[i].lat, regions[i].lng);
  }

  /** The sample regions lie more than 5 degrees apart. */
  lemma SamplesSeparated()
    ensures forall i, j :: 0 <= j < i < |SampleRegions| ==>
              !Near(SampleRegions[j], SampleRegions[i].lat, SampleRegions[i].lng)
  {
  }

  /** So clicking on any sample region's own coordinates selects that region. */
  lemma ClickOnSampleSelectsIt(i: nat, nowMs: real, coordinatesText: string)
    requires i < |SampleRegions|
    ensures MapClick(false, SampleRegions[i].lat, SampleRegions[i].lng, nowMs, coordinatesText) == Some(SampleRegions[i])
  {
    SamplesSeparated();
    ClickOnRegion(SampleRegions, i);
  }
}
