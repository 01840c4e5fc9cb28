/** The 3-D map (frontend/src/components/MapView3D.jsx): marker colours by
    degradation level and their legend, the marker click that selects a
    region and opens its popup, and the map click that makes up a custom
    region. Calls to `onRegionSelect` are recorded in `selections`. */
module MapView3D {
  import opened Wrappers
  import opened Text
  import Js

  /** A region of the 3-D map, which carries a sample NDVI. */
  datatype Region = Region(
    id: real,
    name: string,
    lat: real,
    lng: real,
    degradationLevel: string,
    ndvi: real,
    description: string)

  const SampleRegions: seq<Region> := [
    Region(1.0, "Sahel Region, Mali", 16.0, -2.0, "severe", 0.25,
           "Semi-arid region experiencing desertification"),
    Region(2.0, "Northern Cape, South Africa", -29.0, 21.0, "high", 0.35,
           "Karoo region with overgrazing impacts"),
    Region(3.0, "Machakos County, Kenya", -1.5177, 37.2634, "high", 0.40,
           "Semi-arid region with soil erosion"),
    Region(4.0, "Upper East Region, Ghana", 10.9, -0.9, "moderate", 0.55,
           "Savanna region with seasonal drought"),
    Region(5.0, "Maradi Region, Niger", 13.5, 7.1, "severe", 0.22,
           "Sahel region with extreme desertification")
  ]

  // ---------------------------------------------------------------------
  // Marker colours
  // ---------------------------------------------------------------------

  const MarkerColors: map<string, string> :=
    map["low" := "#22c55e", "moderate" := "#f59e0b", "high" := "#ef4444", "severe" := "#991b1b"]

  /** `getMarkerColor`: the colour of a known level, and the moderate colour
      for any other level. */
  function GetMarkerColor(level: string): (color: string)
    ensures level in MarkerColors ==> color == MarkerColors[level]
    ensures level !in MarkerColors ==> color == MarkerColors["moderate"]
  {
    if level in MarkerColors then MarkerColors[level] else MarkerColors["moderate"]
  }

  /** Every marker colour is one of the four level colours. */
  lemma MarkerColorIsKnown(level: string)
    ensures GetMarkerColor(level) in MarkerColors.Values
  {
    assert MarkerColors["moderate"] in MarkerColors.Values;
  }

  /** The legend's rows, each a level as shown and its colour. */
  const Legend: seq<(string, string)> :=
    [("Low", "#22c55e"), ("Moderate", "#f59e0b"), ("High", "#ef4444"), ("Severe", "#991b1b")]

  /** The legend shows, for each level, the colour its markers get. */
  lemma LegendMatchesMarkers()
    ensures forall i :: 0 <= i < |Legend| ==> Legend[i].1 == GetMarkerColor(ToLower(Legend[i].0))
  {
    assert ToLower("Low") == "low";
    assert ToLower("Moderate") == "moderate";
    assert ToLower("High") == "high";
    assert ToLower("Severe") == "severe";
  }

  /** Every sample region is drawn in its own level's colour, not the fallback. */
  lemma SampleLevelsAreKnown()
    ensures forall i :: 0 <= i < |SampleRegions| ==> SampleRegions[i].degradationLevel in MarkerColors
  {
  }

  // ---------------------------------------------------------------------
  // Clicks
  // ---------------------------------------------------------------------

  /** The custom region a map click makes: a moderate level, NDVI 0.45, the
      clicked coordinates; its name is the formatted coordinates. */
  function CustomRegion(lat: real, lng: real, nowMs: real, coordinatesText: string): Region {
    Region(nowMs, coordinatesText, lat, lng, "moderate", 0.45, "Custom selected location")
  }

  /** The state of the 3-D map that its handlers change. */
  class MapState {
    var popupInfo: Option<Region>
    var selections: seq<Region>

    constructor()
      ensures popupInfo.None? && selections == []
    {
      popupInfo := None;
      selections := [];
    }

    /** `handleMarkerClick`: ignored while loading; otherwise the region is
        selected and its popup opened. */
    method HandleMarkerClick(loading: bool, region: Region)
      modifies this
      ensures loading ==> popupInfo == old(popupInfo) && selections == old(selections)
      ensures !loading ==> popupInfo == Some(region) && selections == old(selections) + [region]
    {
      if !loading {
        selections := selections + [region];
        popupInfo := Some(region);
      }
    }

    /** The popup's close button. */
    method ClosePopup()
      modifies this
      ensures popupInfo.None? && selections == old(selections)
    {
      popupInfo := None;
    }

    /** The map's click: only when not loading and the click reports an
        empty list of features (a click on no marker) is a custom region
        selected; the popup is left as it was. */
    method HandleMapClick(loading: bool, features: Option<seq<Js.Value>>, lat: real, lng: real,
                          nowMs: real, coordinatesText: string)
      modifies this
      ensures popupInfo == old(popupInfo)
      ensures !loading && features.Some? && |features.value| == 0 ==>
                selections == old(selections) + [CustomRegion(lat, lng, nowMs, coordinatesText)]
      ensures !(!loading && features.Some? && |features.value| == 0) ==> selections == old(selections)
    {
      if !loading && features.Some? && |features.value| == 0 {
        var region := CustomRegion(lat, lng, nowMs, coordinatesText);
        selections := selections + [region];
      }
    }
  }

  /** Whatever the click, a selected custom region is moderate and drawn in
      the moderate colour at the clicked point. */
  lemma CustomRegionIsModerate(lat: real, lng: real, nowMs: real, coordinatesText: string)
    ensures GetMarkerColor(CustomRegion(lat, lng, nowMs, coordinatesText).degradationLevel) == "#f59e0b"
    ensures CustomRegion(lat, lng, nowMs, coordinatesText).lat == lat
    ensures CustomRegion(lat, lng, nowMs, coordinatesText).lng == lng
  {
  }
}
