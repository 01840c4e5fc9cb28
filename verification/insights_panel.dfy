/** The analysis panel of the dashboard
    (frontend/src/components/InsightsPanel.jsx): the severity badge and the
    progress bar of a degradation score, the downloadable report with its
    sanitised file name, and which sections the panel shows. */
module InsightsPanel {
  import opened Js
  import opened Wrappers
  import opened Numeric
  import opened Text
  import Claude

  // ---------------------------------------------------------------------
  // Severity badge and progress bar
  // ---------------------------------------------------------------------

  datatype Level = Low | Moderate | High | Severe {
    function Text(): string {
      match this
      case Low => "Low"
      case Moderate => "Moderate"
      case High => "High"
      case Severe => "Severe"
    }

    function Rank(): nat {
      match this
      case Low => 0
      case Moderate => 1
      case High => 2
      case Severe => 3
    }

    /** The progress-bar class that belongs to this level. */
    function BarClass(): string {
      match this
      case Low => "bg-green-500"
      case Moderate => "bg-yellow-500"
      case High => "bg-orange-500"
      case Severe => "bg-red-500"
    }
  }

  /** The badge of a score: its level and the text and background classes
      (the icon is left out). */
  datatype DegradationLevel = DegradationLevel(level: Level, color: string, bg: string)

  /** `getDegradationLevel`: strict upper cuts at 0.1, 0.25 and 0.5. */
  function GetDegradationLevel(score: real): (d: DegradationLevel)
    ensures d.level.Rank() == Claude.RiskBand(score)
  {
    if score < 0.1 then DegradationLevel(Low, "text-green-600", "bg-green-100")
    else if score < 0.25 then DegradationLevel(Moderate, "text-yellow-600", "bg-yellow-100")
    else if score < 0.5 then DegradationLevel(High, "text-orange-600", "bg-orange-100")
    else DegradationLevel(Severe, "text-red-600", "bg-red-100")
  }

  /** The dashboard badge and the backend's severity wording put every
      score in the same band. */
  lemma LevelMatchesSeverity(score: real)
    ensures GetDegradationLevel(score).level.Rank() == Claude.GetSeverityLevel(score).Rank()
    ensures GetDegradationLevel(score).level.Text() + " Risk" == Claude.GetSeverityLevel(score).Text()
  {
  }

  /** The class of the progress bar, written out separately in the panel. */
  function BarColor(score: real): string {
    if score < 0.1 then "bg-green-500"
    else if score < 0.25 then "bg-yellow-500"
    else if score < 0.5 then "bg-orange-500"
    else "bg-red-500"
  }

  /** The bar is always coloured as the badge's level. */
  lemma BarColorMatchesLevel(score: real)
    ensures BarColor(score) == GetDegradationLevel(score).level.BarClass()
  {
  }

  /** `Math.min(score * 100, 100)`: the bar width in percent. */
  function BarWidth(score: real): (w: real)
    ensures w <= 100.0
    ensures score <= 1.0 ==> w == score * 100.0
    ensures 0.0 <= score ==> 0.0 <= w
  {
    Min(score * 100.0, 100.0)
  }

  /** A wider bar means a higher score, up to the full bar. */
  lemma BarWidthMonotone(a: real, b: real)
    requires a <= b
    ensures BarWidth(a) <= BarWidth(b)
  {
  }

  // ---------------------------------------------------------------------
  // The report file name
  // ---------------------------------------------------------------------

  /** One character of `replace(/[^a-zA-Z0-9]/g, '-')`. */
  function SanitizeChar(c: char): char {
    if IsAlnum(c) then c else '-'
  }

  /** `replace(/[^a-zA-Z0-9]/g, '-')`: letters and digits stay in place,
      every other character becomes a dash. */
  function Sanitize(s: string): (r: string)
    ensures |r| == |s|
    ensures forall i :: 0 <= i < |s| ==> (IsAlnum(s[i]) ==> r[i] == s[i])
    ensures forall i :: 0 <= i < |s| ==> (!IsAlnum(s[i]) ==> r[i] == '-')
  {
    if s == [] then [] else [SanitizeChar(s[0])] + Sanitize(s[1..])
  }

  /** Only letters, digits and dashes remain. */
  lemma SanitizedIsSafe(s: string)
    ensures forall i :: 0 <= i < |Sanitize(s)| ==> IsAlnum(Sanitize(s)[i]) || Sanitize(s)[i] == '-'
  {
  }

  /** Sanitising twice is sanitising once. */
  lemma {:induction false} SanitizeIdempotent(s: string)
    ensures Sanitize(Sanitize(s)) == Sanitize(s)
  {
    if s != [] {
      SanitizeIdempotent(s[1..]);
      assert Sanitize(s)[1..] == Sanitize(s[1..]);
    }
  }

  /** Sanitising text made of letters and digits leaves it unchanged. */
  lemma {:induction false} SanitizeKeepsAlnum(s: string)
    requires forall i :: 0 <= i < |s| ==> IsAlnum(s[i])
    ensures Sanitize(s) == s
  {
    if s != [] {
      SanitizeKeepsAlnum(s[1..]);
    }
  }

  /** `regenlens-report-<region>.json`. */
  function ReportFilename(region: string): (name: string)
    ensures |name| == |"regenlens-report-"| + |region| + |".json"|
    ensures name[..17] == "regenlens-report-" && name[17..17 + |region|] == Sanitize(region)
    ensures name[17 + |region|..] == ".json"
  {
    "regenlens-report-" + Sanitize(region) + ".json"
  }

  // ---------------------------------------------------------------------
  // The report download
  // ---------------------------------------------------------------------

  const GeneratedBy := "ReGenLens AI Platform"

  /** `reportData`; `analysisDate` is today's date as the browser prints it. */
  datatype Report = Report(
    region: Value,
    analysisDate: string,
    coordinates: Value,
    ndviTrend: Value,
    degradationScore: Value,
    recommendations: Value,
    generatedBy: string)

  function BuildReport(analysisData: map<string, Value>, today: string): Report {
    Report(Field(analysisData, "region"), today, Field(analysisData, "coordinates"),
           Field(analysisData, "ndviTrend"), Field(analysisData, "degradationScore"),
           Field(analysisData, "aiSummary"), GeneratedBy)
  }

  /** A file the user was given: its name and the report it holds. */
  datatype Download = Download(filename: string, report: Report)

  /** The parts of the browser the download touches: object URLs that are
      alive, and the files saved by clicking a download link. */
  class Browser {
    var nextUrl: nat
    var liveUrls: set<nat>
    var downloads: seq<Download>

    /** Every live URL was handed out before. */
    predicate Valid()
      reads this
    {
      forall u :: u in liveUrls ==> u < nextUrl
    }

    constructor()
      ensures Valid() && liveUrls == {} && downloads == []
    {
      nextUrl := 0;
      liveUrls := {};
      downloads := [];
    }

    /** `URL.createObjectURL`: a fresh URL that stays alive until revoked. */
    method CreateObjectUrl() returns (url: nat)
      requires Valid()
      modifies this
      ensures Valid()
      ensures url == old(nextUrl) && url !in old(liveUrls)
      ensures liveUrls == old(liveUrls) + {url} && downloads == old(downloads)
    {
      url := nextUrl;
      liveUrls := liveUrls + {url};
      nextUrl := nextUrl + 1;
    }

    /** `link.click()` on a download link: the file is saved. */
    method ClickDownload(d: Download)
      requires Valid()
      modifies this
      ensures Valid()
      ensures downloads == old(downloads) + [d] && liveUrls == old(liveUrls) && nextUrl == old(nextUrl)
    {
      downloads := downloads + [d];
    }

    /** `URL.revokeObjectURL`. */
    method RevokeObjectUrl(url: nat)
      requires Valid()
      modifies this
      ensures Valid()
      ensures liveUrls == old(liveUrls) - {url} && downloads == old(downloads) && nextUrl == old(nextUrl)
    {
      liveUrls := liveUrls - {url};
    }
  }

  /** `handleDownloadReport`. Without analysis data nothing happens. A region
      that is not a string makes `replace` throw after the URL was created,
      so that URL is never revoked. Otherwise one file is saved and the URL
      is released again. */
  method HandleDownloadReport(browser: Browser, analysisData: Option<map<string, Value>>, today: string)
    returns (thrown: bool)
    requires browser.Valid()
    modifies browser
    ensures browser.Valid()
    ensures analysisData.None? ==> !thrown && unchanged(browser)
    ensures analysisData.Some? && !Field(analysisData.value, "region").Str? ==>
              && thrown
              && old(browser.nextUrl) !in old(browser.liveUrls)
              && browser.liveUrls == old(browser.liveUrls) + {old(browser.nextUrl)}
              && browser.downloads == old(browser.downloads)
    ensures analysisData.Some? && Field(analysisData.value, "region").Str? ==>
              && !thrown
              && browser.liveUrls == old(browser.liveUrls)
              && browser.downloads == old(browser.downloads) + [Download(
                   ReportFilename(Field(analysisData.value, "region").s),
                   BuildReport(analysisData.value, today))]
  {
    if analysisData.None? {
      return false;
    }
    var data := analysisData.value;
    var reportData := BuildReport(data, today);
    var url := browser.CreateObjectUrl();
    var region := Field(data, "region");
    if !region.Str? {
      return true;
    }
    var filename := ReportFilename(region.s);
    browser.ClickDownload(Download(filename, reportData));
    browser.RevokeObjectUrl(url);
    return false;
  }

  /** The saved report names the analysed region and carries its summary
      as the recommendations, signed by the platform. */
  lemma ReportCarriesAnalysis(analysisData: map<string, Value>, today: string)
    requires "region" in analysisData && "aiSummary" in analysisData
    ensures BuildReport(analysisData, today).region == analysisData["region"]
    ensures BuildReport(analysisData, today).recommendations == analysisData["aiSummary"]
    ensures BuildReport(analysisData, today).generatedBy == GeneratedBy
  {
  }

  // ---------------------------------------------------------------------
  // What the panel shows
  // ---------------------------------------------------------------------

  datatype PanelView =
    | EmptyState
    | Panel(clearShown: bool, loadingShown: bool, errorShown: bool, analysisShown: bool, severityShown: bool)

  /** The panel's render decision: the empty state when neither a region is
      selected nor analysis data is present; otherwise each section appears
      with what it displays. */
  function Render(hasSelectedRegion: bool, loading: bool, hasError: bool,
                  analysisData: Option<map<string, Value>>): (v: PanelView)
    ensures v.EmptyState? <==> !hasSelectedRegion && analysisData.None?
    ensures v.Panel? ==> (v.analysisShown <==> analysisData.Some?)
    ensures v.Panel? ==> (v.severityShown ==> v.analysisShown)
  {
    if !hasSelectedRegion && analysisData.None? then EmptyState
    else
      Panel(hasSelectedRegion, loading, hasError, analysisData.Some?,
            analysisData.Some? && Field(analysisData.value, "degradationScore") != Undefined)
  }

  /** With nothing selected and nothing analysed the spinner and the error
      are not shown, even while loading or after an error. */
  lemma EmptyStateHidesProgress(loading: bool, hasError: bool)
    ensures Render(false, loading, hasError, None) == EmptyState
  {
  }
}
