/** The dashboard sidebar (frontend/src/components/Sidebar.jsx): the label
    and colour of a degradation score, the list of saved analyses that the
    save button prepends to, and the "Analyses Run" counter.

    Analyses are plain objects, held as maps from field names to values. The
    clock (`nowMs` and its ISO rendering `nowIso`) is an input. */
module Sidebar {
  import opened Js
  import opened Wrappers
  import InsightsPanel

  // ---------------------------------------------------------------------
  // Label and colour of a score
  // ---------------------------------------------------------------------

  datatype Label = Low | Medium | High {
    function Text(): string {
      match this
      case Low => "Low"
      case Medium => "Medium"
      case High => "High"
    }

    /** The badge classes that go with this label. */
    function Classes(): string {
      match this
      case Low => "text-green-600 bg-green-100"
      case Medium => "text-yellow-600 bg-yellow-100"
      case High => "text-red-600 bg-red-100"
    }

    function Rank(): nat {
      match this
      case Low => 0
      case Medium => 1
      case High => 2
    }
  }

  /** `getDegradationLabel`: strict upper cuts at 0.2 and 0.4. */
  function GetDegradationLabel(score: real): (l: Label)
    ensures l == Low <==> score < 0.2
    ensures l == Medium <==> 0.2 <= score < 0.4
    ensures l == High <==> score >= 0.4
  {
    if score < 0.2 then Low else if score < 0.4 then Medium else High
  }

  /** `getDegradationColor`, written out separately in the sidebar. */
  function GetDegradationColor(score: real): string {
    if score < 0.2 then "text-green-600 bg-green-100"
    else if score < 0.4 then "text-yellow-600 bg-yellow-100"
    else "text-red-600 bg-red-100"
  }

  /** The colour always belongs to the label shown next to it. */
  lemma ColorMatchesLabel(score: real)
    ensures GetDegradationColor(score) == GetDegradationLabel(score).Classes()
  {
  }

  /** A higher score never gets a milder label. */
  lemma LabelMonotone(a: real, b: real)
    requires a <= b
    ensures GetDegradationLabel(a).Rank() <= GetDegradationLabel(b).Rank()
  {
  }

  /** The sidebar's bands are not the analysis panel's: 0.3 is "Medium"
      here and "High" there, and 0.15 is "Low" here and "Moderate" there. */
  lemma SidebarBandsDifferFromPanel()
    ensures GetDegradationLabel(0.3) == Medium && InsightsPanel.GetDegradationLevel(0.3).level == InsightsPanel.High
    ensures GetDegradationLabel(0.15) == Low && InsightsPanel.GetDegradationLevel(0.15).level == InsightsPanel.Moderate
  {
  }

  // ---------------------------------------------------------------------
  // Saved analyses
  // ---------------------------------------------------------------------

  /** The entry a save creates: generated fields first, then every field of
      the analysis spread over them. */
  function NewAnalysis(analysisData: map<string, Value>, nowMs: real, nowIso: string): (entry: map<string, Value>)
  {
    var generated := map[
      "id" := Num(nowMs),
      "region" := Field(analysisData, "region"),
      "degradationScore" := Field(analysisData, "degradationScore"),
      "createdAt" := Str(nowIso),
      "coordinates" := Field(analysisData, "coordinates")];
    Spread(generated, analysisData)
  }

  /** Every field of the analysis survives into the entry, its own `id` and
      `createdAt` included; the generated ones are used only where the
      analysis has none, and region, score and coordinates always read as
      in the analysis. */
  lemma NewAnalysisKeepsData(analysisData: map<string, Value>, nowMs: real, nowIso: string)
    ensures forall k :: k in analysisData ==>
              k in NewAnalysis(analysisData, nowMs, nowIso) && NewAnalysis(analysisData, nowMs, nowIso)[k] == analysisData[k]
    ensures "id" in NewAnalysis(analysisData, nowMs, nowIso) && "createdAt" in NewAnalysis(analysisData, nowMs, nowIso)
    ensures "id" !in analysisData ==> NewAnalysis(analysisData, nowMs, nowIso)["id"] == Num(nowMs)
    ensures "createdAt" !in analysisData ==> NewAnalysis(analysisData, nowMs, nowIso)["createdAt"] == Str(nowIso)
    ensures Field(NewAnalysis(analysisData, nowMs, nowIso), "region") == Field(analysisData, "region")
    ensures Field(NewAnalysis(analysisData, nowMs, nowIso), "degradationScore") == Field(analysisData, "degradationScore")
    ensures Field(NewAnalysis(analysisData, nowMs, nowIso), "coordinates") == Field(analysisData, "coordinates")
  {
  }

  /** The three sample entries the sidebar loads when it mounts. */
  function MockSavedAnalyses(): (saved: seq<map<string, Value>>)
    ensures |saved| == 3
  {
    [ map["id" := Num(1.0), "region" := Str("Central Valley"), "degradationScore" := Num(0.35),
          "createdAt" := Str("2024-01-15T10:30:00Z"),
          "coordinates" := Obj(map["lat" := Num(36.7783), "lng" := Num(-119.4179)])],
      map["id" := Num(2.0), "region" := Str("Northern Plains"), "degradationScore" := Num(0.22),
          "createdAt" := Str("2024-01-12T14:15:00Z"),
          "coordinates" := Obj(map["lat" := Num(47.0527), "lng" := Num(-101.0659)])],
      map["id" := Num(3.0), "region" := Str("Southeast Coastal"), "degradationScore" := Num(0.18),
          "createdAt" := Str("2024-01-10T09:45:00Z"),
          "coordinates" := Obj(map["lat" := Num(31.3069), "lng" := Num(-84.1557)])] ]
  }

  /** `"Analyses Run"`: the saved analyses, plus one for a current analysis. */
  function AnalysesRun(savedCount: nat, hasAnalysisData: bool): (n: nat)
    ensures savedCount <= n <= savedCount + 1
    ensures n == savedCount + 1 <==> hasAnalysisData
  {
    savedCount + (if hasAnalysisData then 1 else 0)
  }

  /** The sidebar's state. */
  class SidebarState {
    var savedAnalyses: seq<map<string, Value>>

    /** `useState([])`. */
    constructor()
      ensures savedAnalyses == []
    {
      savedAnalyses := [];
    }

    /** The mount effect: the sample entries replace the list. */
    method LoadSavedAnalyses()
      modifies this
      ensures savedAnalyses == MockSavedAnalyses()
    {
      savedAnalyses := MockSavedAnalyses();
    }

    /** The counter as rendered from the current list. */
    function AnalysesRunNow(hasAnalysisData: bool): nat
      reads this
    {
      AnalysesRun(|savedAnalyses|, hasAnalysisData)
    }

    /** `handleSaveAnalysis`: without analysis data nothing changes; with it
      exactly one new entry goes in front, and the earlier entries follow in
      their old order. */
    method HandleSaveAnalysis(analysisData: Option<map<string, Value>>, nowMs: real, nowIso: string)
      modifies this
      ensures analysisData.None? ==> savedAnalyses == old(savedAnalyses)
      ensures analysisData.Some? ==>
                savedAnalyses == [NewAnalysis(analysisData.value, nowMs, nowIso)] + old(savedAnalyses)
      ensures |savedAnalyses| == old(|savedAnalyses|) + (if analysisData.Some? then 1 else 0)
      ensures savedAnalyses[|savedAnalyses| - old(|savedAnalyses|)..] == old(savedAnalyses)
      ensures analysisData.Some? ==> AnalysesRunNow(true) == old(AnalysesRunNow(true)) + 1
    {
      if analysisData.Some? {
        var newAnalysis := NewAnalysis(analysisData.value, nowMs, nowIso);
        savedAnalyses := [newAnalysis] + savedAnalyses;
      }
    }
  }
}
