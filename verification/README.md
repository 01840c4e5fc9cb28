# ReGenLens core, modelled in Dafny

ReGenLens analyses land degradation. Its backend makes up a four-year NDVI
(vegetation index) trend for a point and a region name. It turns the trend
into a degradation score and a climate context, and wraps it in AI-written
or template recommendations. The React frontend then shows the result:
- the analysis panel with its risk level and report download;
- the NDVI chart;
- the sidebar of saved analyses;
- the 2-D and 3-D maps that pick a region;
- the onboarding tour;
- the route guard and the application shell;
- the authentication store;
- the sign-up form.

This project models that core, one module per source file.
- `GisMock`, `Claude`, `AnalyzeRoute` and `MockApi` cover the backend utilities, the analysis routes and the frontend's canned API.
- `InsightsPanel`, `NdviChart`, `Sidebar`, `MapView`, `MapView3D` and `OnboardingModal` cover the dashboard components.
- `ProtectedRoute`, `App`, `AuthStore` and `SignUpPage` cover routing, the store and sign-up.
- `Regions` holds the sample-region table that the regions route and the 2-D map share.
- `Js` models the dynamically typed values the source inspects (truthiness, property reads, object spread).
- `WebStorage` models the browser's `localStorage`.
- `Wrappers`, `Numeric` and `Text` are small helpers.

The model takes each file's own form:
- pure logic is functions and lemmas;
- the trend loop is a method with loop invariants;
- the state that React components and the store change in place (the tour step, the popup, the saved list, the form, the store's fields, the storage) is a class whose methods state their whole new state.

The model makes these choices about numbers and the environment:
- Numbers are `real`.
- `Math.round(x)` is `floor(x + 0.5)`, and a value rounded to 3 decimals (`Math.round(x*1000)/1000`, or `toFixed(3)`) is `Numeric.Round3`.
- `Math.random()` draws are an injected sequence of reals in [0, 1):
  - `rand[0]` is the yearly decline rate;
  - `rand[2y]` is the extra decline of year y, and `rand[2y+1]` is its variation;
  - `rand[8..10]` are the cloud cover, the image age and the confidence;
  - `rand[11]` picks the recommendation template.
- Clocks are inputs (`now`, `nowMs`, `nowIso`, `today`).
- The Anthropic reply, the storage outcome, `signUp`'s error and the map's features are inputs.
- Callbacks to parent components (`onRegionSelect`, `onClose`, `clearError`, `signUp`, `navigate`) are recorded as counts or logs.

## Model

| member | source | states |
|---|---|---|
| `GisMock.LatitudeBase` | backend/utils/gisMock.js:17-32 | Base NDVI by latitude: 0.4 above 60°, 0.6 above 40°, 0.7 in 23.5–40°; in the tropics 0.5 inside the Africa/Middle East box and 0.8 outside it. |
| `GisMock.KeywordBaseIsFirstMatch` | backend/utils/gisMock.js:34-44 | The keyword override is the first matching rule of the ordered table sahel/desert/rajasthan → 0.3, machakos/kenya → 0.6, brazil/amazon → 0.8, mongolia/grassland → 0.5. |
| `GisMock.BaseNdvi` | backend/utils/gisMock.js:16-44 | The base is always one of 0.3, 0.4, 0.5, 0.6, 0.7, 0.8. |
| `GisMock.BaseNdviPrecedence` | backend/utils/gisMock.js:19-44 | A keyword wins over latitude, and among keywords the first group of the table wins; with no keyword the latitude base stands. Keywords are matched in the name as JavaScript lower-cases it, including the Kelvin sign as 'k'. |
| `GisMock.KelvinSignNamesKenya` | backend/utils/gisMock.js:35-39 | "\u212AENYA" (Kelvin sign, then ENYA) names Kenya: at latitude 30, whose band is not 0.6, its base NDVI is 0.6 and its context semi-arid. |
| `GisMock.DeclineRate` | backend/utils/gisMock.js:51 | The yearly decline rate lies in [0.02, 0.08). |
| `GisMock.YearDecline` | backend/utils/gisMock.js:57 | One year's decline lies between the rate and 1.5 times the rate. |
| `GisMock.Variation` | backend/utils/gisMock.js:52-61 | The yearly variation lies in [-0.025, 0.025). |
| `GisMock.YearValueRange` | backend/utils/gisMock.js:61-65 | A published value lies in [0.1, 1.0]. It is 0.1 or 1.0 when the clamp bites, and otherwise within rounding of running value plus variation. |
| `GisMock.TrendSpec` | backend/utils/gisMock.js:47-66 | The specification of the generated trend has exactly four values. |
| `GisMock.TrendInRange` | backend/utils/gisMock.js:54-66 | Every generated value lies in [0.1, 1.0]. |
| `GisMock.RunningStep` | backend/utils/gisMock.js:56-58 | From year 1 on, the loop's running value loses rate × (1 + 0.5·draw) per year, as the specification says. |
| `GisMock.PublishedStep` | backend/utils/gisMock.js:60-65 | Year y publishes the clamped, 3-decimal value of the running value plus its variation. |
| `GisMock.SynthesizeTrend` | backend/utils/gisMock.js:46-69 | The loop, proved with invariants (length, draw index, running value, prefix of the specification), builds exactly the specified trend. |
| `GisMock.GenerateMockNdvi` | backend/utils/gisMock.js:12-70 | The result is the specified trend from the base of the point and region: four values, each in [0.1, 1.0]. |
| `GisMock.RunningYearStep` | backend/utils/gisMock.js:51-58 | Each year after the first, the running value drops by at least the decline rate. |
| `GisMock.RunningDecreases` | backend/utils/gisMock.js:54-58 | The running value strictly decreases over the years, by less than 0.12 per year. |
| `GisMock.FirstYearNearBase` | backend/utils/gisMock.js:54-65 | For a 3-decimal base in [0.125, 0.975], the first value is within 0.025 of the base. |
| `GisMock.DegradationScore` | backend/utils/gisMock.js:77-93 | A missing trend or one with fewer than two values scores 0.3. Every score lies in [0, 1], and a trend that does not decline scores 0. |
| `GisMock.ScoreMonotone` | backend/utils/gisMock.js:82-92 | With the same first value, a lower last value never scores lower. |
| `GisMock.ScoreAtMostNineTenths` | backend/utils/gisMock.js:77-92 | A trend of values in [0.1, 1.0], as the generator produces, scores at most 0.9. |
| `GisMock.CloudCover` | backend/utils/gisMock.js:115 | Cloud cover is a whole percentage from 0 to 30. |
| `GisMock.ImageAge` | backend/utils/gisMock.js:116 | The image age is under 30 days. |
| `GisMock.Confidence` | backend/utils/gisMock.js:119 | Confidence is a whole percentage from 80 to 100. |
| `GisMock.AnalyzeSatelliteData` | backend/utils/gisMock.js:101-124 | The analysis carries the generated trend, its score (at most 0.9), cloud cover, image date and confidence from their own draws, and the fixed quality and source. |
| `GisMock.LatitudeContext` | backend/utils/gisMock.js:136-147 | Tropical with 1200 mm below 23.5°, temperate with 600 mm above 40°, and temperate with 800 mm otherwise; all with the default threats. |
| `GisMock.GetEnvironmentalContext` | backend/utils/gisMock.js:132-169 | The first matching keyword rule (sahel/desert → arid, kenya/machakos → semi-arid) overrides the latitude context; soil and land use are fixed. |
| `GisMock.LatitudeClassifiersAgree` | backend/utils/gisMock.js:141-147 | The context is tropical exactly where the generator uses a tropical base, and has 600 mm exactly where it uses a high-latitude base. |
| `GisMock.DesertRegionsAreAridAndSparse` | backend/utils/gisMock.js:151-154 | A Sahel or desert region gets base 0.3 and the arid context, wherever it lies. |
| `GisMock.MachakosIsSemiArid` | backend/utils/gisMock.js:155-158 | Machakos County, Kenya gets the semi-arid context. |
| `Text.LowerChar` | backend/utils/gisMock.js:35 | ASCII capitals move to their small letters and the Kelvin sign becomes 'k'. Every other character is kept. The result is an ASCII small letter iff the character is one, is an ASCII capital, or is the Kelvin sign. |
| `Text.Utf16Length` | frontend/src/pages/SignUpPage.jsx:31 | A string's JavaScript length is between its character count and twice that. It equals the count iff no character is beyond U+FFFF, and twice the count iff every character is. |
| `Claude.DescribeTrend` | backend/utils/claude.js:83-94 | The wording is "insufficient data" exactly for trends shorter than two. |
| `Claude.DescribeTrendByRatio` | backend/utils/claude.js:86-93 | For a positive first value, each wording holds exactly in its ratio band of last to first: above 1.1, (0.9, 1.1], (0.75, 0.9], at most 0.75. |
| `Claude.GetSeverityLevel` | backend/utils/claude.js:99-104 | The severity's rank is the number of the cuts 0.1, 0.25 and 0.5 that the score reaches. |
| `Claude.SeverityMonotone` | backend/utils/claude.js:99-104 | A higher score never has a lower severity. |
| `Claude.SeverityBoundaries` | backend/utils/claude.js:100-103 | Each cut belongs to the higher band. |
| `Claude.ImprovingIsLowRisk` | backend/utils/claude.js:90 | A trend worded as improving has a score of low risk. |
| `Claude.StableIsAtMostModerate` | backend/utils/claude.js:91 | A trend worded as stable scores at most moderate risk. |
| `Claude.ModerateDeclineIsModerateOrHigh` | backend/utils/claude.js:92 | A trend worded as a moderate decline scores moderate or high risk. |
| `Claude.SevereDegradationIsHighRisk` | backend/utils/claude.js:93 | A trend worded as severe degradation scores at least high risk. |
| `Claude.TemplateIndex` | backend/utils/claude.js:132 | The template index is always 0 or 1. |
| `Claude.TemplateIndexHalves` | backend/utils/claude.js:132 | The first template goes with draws below 0.5, the second with the rest. |
| `Claude.MockRecommendations` | backend/utils/claude.js:109-136 | The fallback is a template filled with this region, trend and score, and it is the template that the draw picks. |
| `Claude.GenerateRecommendations` | backend/utils/claude.js:21-52 | The API is called iff a client exists. The AI text is returned iff there is a client and a reply with content, and it is the first content block; in every other case the result is the fallback. |
| `Claude.RecommendationsNeverFail` | backend/utils/claude.js:47-51 | An API error still yields a template, never a failure. |
| `AnalyzeRoute.ErrorRegion` | backend/routes/analyze.js:76 | The 500 reply's region is the body's region when the body is present and its region truthy, whatever its type; otherwise "unknown". It is always truthy. |
| `AnalyzeRoute.PostAnalyze` | backend/routes/analyze.js:12-79 | 400 iff a body is present and region or coordinates are falsy or lat/lng are not numbers. 500 for a missing body or a non-string region. Otherwise the result carries the request's region and coordinates, the generated trend, its score, the recommendations and the context. Its metadata holds the drawn cloud cover, image date and confidence, "high" data quality and the simulated Sentinel-2 source. `id` is set iff storage succeeded. |
| `AnalyzeRoute.MockHistory` | backend/routes/analyze.js:99-114 | Two entries, each for the requested region and dated in the past. |
| `AnalyzeRoute.GetHistory` | backend/routes/analyze.js:85-121 | 400 iff the region is empty; otherwise the history of the region with its count. |
| `AnalyzeRoute.HistoryIsNewestFirst` | backend/routes/analyze.js:99-114 | The history is newest first, and both past scores are of moderate risk. |
| `AnalyzeRoute.ListRegions` | backend/routes/analyze.js:135-183 | Five regions, numbered 1 to 5 in order, with the total. |
| `MockApi.MockAnalyzeResponse` | frontend/src/api/mockApi.js:8-25 | The canned response has a region and coordinates to override. Its trend, score, summary and metadata are the canned values, and its analysis date is the load time. |
| `MockApi.MockAnalyzeRegion` | frontend/src/api/mockApi.js:49-58 | The same keys as the canned response: region and coordinates are replaced, and every other field keeps its canned value. |
| `MockApi.CannedScoreAgrees` | frontend/src/api/mockApi.js:11-12 | Every mocked analysis carries the canned trend and, as its score, what the backend computes from that trend (0.25). |
| `MockApi.MockedMetadata` | frontend/src/api/mockApi.js:14-23 | Every mocked analysis carries the canned metadata. |
| `MockApi.CannedMetadataEntries` | frontend/src/api/mockApi.js:14-23 | The canned metadata is semi-arid, 500 mm, the three threats, 15 % cloud cover and 92 % confidence. |
| `MockApi.MockedClimate` | frontend/src/api/mockApi.js:20-22 | The climate fields of every mocked analysis are those of the semi-arid classification. |
| `MockApi.CannedContextAgrees` | frontend/src/api/mockApi.js:20-22 | The climate fields of every mocked analysis are the backend's context for Machakos. |
| `MockApi.CannedMetadataReachable` | frontend/src/api/mockApi.js:16-19 | The cloud cover and confidence of every mocked analysis are values the backend can draw. |
| `MockApi.MockRegionsArePrefix` | frontend/src/api/mockApi.js:27-44 | The canned regions are the first two of the backend's region list. |
| `InsightsPanel.GetDegradationLevel` | frontend/src/components/InsightsPanel.jsx:32-37 | The level's rank is the count of the cuts 0.1, 0.25 and 0.5 that the score reaches. |
| `InsightsPanel.LevelMatchesSeverity` | frontend/src/components/InsightsPanel.jsx:32-37 | The panel's level is the backend's severity, word for word with " Risk" appended. |
| `InsightsPanel.BarColorMatchesLevel` | frontend/src/components/InsightsPanel.jsx:205-209 | The bar colour always belongs to the level shown. |
| `InsightsPanel.BarWidth` | frontend/src/components/InsightsPanel.jsx:210 | The bar is at most 100% wide, and is the score in percent up to a score of 1. |
| `InsightsPanel.BarWidthMonotone` | frontend/src/components/InsightsPanel.jsx:210 | A higher score never draws a shorter bar. |
| `InsightsPanel.Sanitize` | frontend/src/components/InsightsPanel.jsx:27 | Same length; letters and digits are kept and every other character becomes '-'. |
| `InsightsPanel.SanitizedIsSafe` | frontend/src/components/InsightsPanel.jsx:27 | A sanitised name holds only letters, digits and '-'. |
| `InsightsPanel.SanitizeIdempotent` | frontend/src/components/InsightsPanel.jsx:27 | Sanitising twice is sanitising once. |
| `InsightsPanel.SanitizeKeepsAlnum` | frontend/src/components/InsightsPanel.jsx:27 | A name of letters and digits is left as it is. |
| `InsightsPanel.ReportFilename` | frontend/src/components/InsightsPanel.jsx:27 | The file name starts with the prefix and ends with ".json", with the sanitised region between them. |
| `InsightsPanel.Browser.constructor` | frontend/src/components/InsightsPanel.jsx:24 | A browser starts with no live object URLs and no downloads. |
| `InsightsPanel.Browser.CreateObjectUrl` | frontend/src/components/InsightsPanel.jsx:24 | A fresh URL that was not live becomes live. |
| `InsightsPanel.Browser.ClickDownload` | frontend/src/components/InsightsPanel.jsx:28 | The click appends one download and changes nothing else. |
| `InsightsPanel.Browser.RevokeObjectUrl` | frontend/src/components/InsightsPanel.jsx:29 | The URL is no longer live; nothing else changes. |
| `InsightsPanel.HandleDownloadReport` | frontend/src/components/InsightsPanel.jsx:8-30 | Without data nothing happens. A region that is not a string throws after the URL is created, so the URL stays live. Otherwise exactly one download of the report under the sanitised name is added, and the set of live URLs is as before. |
| `InsightsPanel.ReportCarriesAnalysis` | frontend/src/components/InsightsPanel.jsx:12-20 | The report carries the analysis's region and its AI summary as recommendations, signed by the platform. |
| `InsightsPanel.Render` | frontend/src/components/InsightsPanel.jsx:39-190 | The empty state shows iff there is neither a selected region nor data. Results show iff there is data, and the risk level only with results. |
| `InsightsPanel.EmptyStateHidesProgress` | frontend/src/components/InsightsPanel.jsx:39-46 | With nothing selected and no data, loading and errors are not shown. |
| `NdviChart.HealthOf` | frontend/src/components/NDVIChart.jsx:21 | The health's rank is the number of the thresholds 0.5 and 0.7 that the value exceeds. |
| `NdviChart.HealthBoundaries` | frontend/src/components/NDVIChart.jsx:21 | The thresholds themselves fall into the lower band. |
| `NdviChart.HealthMonotone` | frontend/src/components/NDVIChart.jsx:21 | A larger value never has worse health. |
| `NdviChart.ChartData` | frontend/src/components/NDVIChart.jsx:18-22 | One point per value. |
| `NdviChart.ChartDataFollowsData` | frontend/src/components/NDVIChart.jsx:18-22 | Point i is year 2022+i, its value is within half a thousandth of the data, and its label is of the raw value. |
| `NdviChart.TrendOf` | frontend/src/components/NDVIChart.jsx:25-27 | "Improving" iff the last value is strictly above the first. |
| `NdviChart.FlatIsDeclining` | frontend/src/components/NDVIChart.jsx:27 | A flat series, including a single value, reads as declining. |
| `NdviChart.ImprovingChartScoresZero` | frontend/src/components/NDVIChart.jsx:25-27 | A chart that says improving belongs to a trend the backend scores 0. |
| `NdviChart.ImprovingWordingAgrees` | frontend/src/components/NDVIChart.jsx:25-27 | What the backend words as improving, the chart also shows as improving. |
| `NdviChart.Render` | frontend/src/components/NDVIChart.jsx:5-93 | Missing or empty data shows the placeholder; otherwise one point per value. |
| `NdviChart.BadgeMatchesLastPoint` | frontend/src/components/NDVIChart.jsx:84-90 | The current-health badge equals the label of the last point. |
| `NdviChart.TooltipMismatchAt7004` | frontend/src/components/NDVIChart.jsx:40-43 | As written, 0.7004 is labelled healthy but its tooltip text is yellow. |
| `NdviChart.TooltipMatchesStatus` | frontend/src/components/NDVIChart.jsx:40-45 | With the colour taken from the label, the tooltip colour always matches its status text and the badge's thresholds. |
| `NdviChart.TooltipAgreesOnThreeDecimals` | frontend/src/components/NDVIChart.jsx:20-43 | On values already at 3 decimals, the written colour and the label's colour agree. |
| `Sidebar.GetDegradationLabel` | frontend/src/components/Sidebar.jsx:71-75 | Low iff below 0.2, Medium iff in [0.2, 0.4), High iff at least 0.4. |
| `Sidebar.ColorMatchesLabel` | frontend/src/components/Sidebar.jsx:65-75 | The separately written colour always belongs to the label. |
| `Sidebar.LabelMonotone` | frontend/src/components/Sidebar.jsx:71-75 | A higher score never gets a milder label. |
| `Sidebar.SidebarBandsDifferFromPanel` | frontend/src/components/Sidebar.jsx:71-75 | The sidebar's bands differ from the panel's: 0.3 is Medium here and High there. |
| `Sidebar.NewAnalysisKeepsData` | frontend/src/components/Sidebar.jsx:39-46 | Every field of the analysis survives the spread. The generated id and timestamp apply only where the analysis has none. |
| `Sidebar.MockSavedAnalyses` | frontend/src/components/Sidebar.jsx:11-35 | Three sample analyses are loaded. |
| `Sidebar.AnalysesRun` | frontend/src/components/Sidebar.jsx:225 | The counter is the saved count, plus one iff there is a current analysis. |
| `Sidebar.SidebarState.constructor` | frontend/src/components/Sidebar.jsx:7 | The list starts empty. |
| `Sidebar.SidebarState.LoadSavedAnalyses` | frontend/src/components/Sidebar.jsx:11-35 | The mount effect replaces the list with the samples. |
| `Sidebar.SidebarState.HandleSaveAnalysis` | frontend/src/components/Sidebar.jsx:37-49 | Without data nothing changes. With data exactly one new entry goes in front, the old entries follow in their order, and the counter rises by one. |
| `MapView.SquaredDistance` | frontend/src/components/MapView.jsx:102-105 | The squared degree distance is never negative. |
| `MapView.FindNear` | frontend/src/components/MapView.jsx:101-107 | None iff no region is within 5°. Otherwise the index of a near region, with no earlier region near. |
| `MapView.ClickedRegion` | frontend/src/components/MapView.jsx:98-118 | The first near sample; or else a region at the clicked point, of unknown country and moderate level. |
| `MapView.MapClick` | frontend/src/components/MapView.jsx:93-121 | Nothing while loading; otherwise the clicked region is selected. |
| `MapView.MarkerClick` | frontend/src/components/MapView.jsx:213 | Nothing while loading; otherwise the marker's region. |
| `MapView.ClickOnRegion` | frontend/src/components/MapView.jsx:101-107 | Clicking on a region's own point finds it, unless an earlier region is near. |
| `MapView.SamplesSeparated` | frontend/src/components/MapView.jsx:15-56 | The sample regions are more than 5° apart. |
| `MapView.ClickOnSampleSelectsIt` | frontend/src/components/MapView.jsx:93-121 | Clicking on any sample region's coordinates selects that region. |
| `MapView3D.GetMarkerColor` | frontend/src/components/MapView3D.jsx:118-126 | The colour of a known level, and the moderate colour for any other. |
| `MapView3D.MarkerColorIsKnown` | frontend/src/components/MapView3D.jsx:118-126 | Every marker colour is one of the four level colours. |
| `MapView3D.LegendMatchesMarkers` | frontend/src/components/MapView3D.jsx:258-263 | Each legend row shows the colour its level's markers get. |
| `MapView3D.SampleLevelsAreKnown` | frontend/src/components/MapView3D.jsx:14-55 | No sample region falls back to the default colour. |
| `MapView3D.MapState.constructor` | frontend/src/components/MapView3D.jsx:71 | No popup and no selections. |
| `MapView3D.MapState.HandleMarkerClick` | frontend/src/components/MapView3D.jsx:111-116 | Ignored while loading; otherwise the region is selected and its popup opens. |
| `MapView3D.MapState.ClosePopup` | frontend/src/components/MapView3D.jsx:395 | The popup closes and nothing else changes. |
| `MapView3D.MapState.HandleMapClick` | frontend/src/components/MapView3D.jsx:311-325 | A custom region is selected iff not loading and the click hit no features; the popup is untouched. |
| `MapView3D.CustomRegionIsModerate` | frontend/src/components/MapView3D.jsx:315-322 | A custom region sits at the clicked point and is drawn in the moderate colour. |
| `OnboardingModal.Tour.constructor` | frontend/src/components/OnboardingModal.jsx:5 | The tour starts at step 1. |
| `OnboardingModal.Tour.HandleNext` | frontend/src/components/OnboardingModal.jsx:29-35 | Below the last step, forward one step; on the last, close once and keep the step. The step stays within 1..3. The click closes the tour iff the button it was made on read "Start Exploring". |
| `OnboardingModal.Tour.HandlePrevious` | frontend/src/components/OnboardingModal.jsx:37-41 | Back one step; nothing on the first step; never closes. |
| `OnboardingModal.Tour.HandleSkip` | frontend/src/components/OnboardingModal.jsx:43-45 | Closes once and keeps the step. |
| `OnboardingModal.Tour.CurrentStep` | frontend/src/components/OnboardingModal.jsx:109-145 | The shown step is the table entry of the current step, and its action reads "Start Exploring" iff it is the last step. |
| `OnboardingModal.Tour.ProgressPercent` | frontend/src/components/OnboardingModal.jsx:79 | Progress lies between a third and 100%, and is 100% iff on the last step. |
| `OnboardingModal.Tour.Render` | frontend/src/components/OnboardingModal.jsx:47-145 | Nothing iff closed. An open modal shows the current step and its progress, with "Start Exploring" iff on the last step. Previous is offered iff past step 1, and dot i is filled iff i ≤ step. |
| `OnboardingModal.ClosingStepIsLabelled` | frontend/src/components/OnboardingModal.jsx:8-27 | The button reads "Start Exploring" exactly on the step where Next closes the tour. |
| `OnboardingModal.FilledDotsCountSteps` | frontend/src/components/OnboardingModal.jsx:93 | The number of filled dots is the current step. |
| `ProtectedRoute.Guard` | frontend/src/components/ProtectedRoute.jsx:6-45 | Spinner iff loading. Otherwise to /login (with the location) iff auth is required and there is no user; to /dashboard iff it is not required and there is a user; else the children. Exactly one applies. |
| `ProtectedRoute.ChildrenOnlyForAudience` | frontend/src/components/ProtectedRoute.jsx:34-44 | Content shows only to the route's audience, and the default guard requires auth. |
| `ProtectedRoute.RedirectsSettle` | frontend/src/components/ProtectedRoute.jsx:34-42 | Each redirect leads to a guard that shows its content for the same user. |
| `App.TrimTrailingSlashes` | frontend/src/App.jsx:68-119 | A prefix of the path that does not end in '/'; only slashes are dropped. |
| `App.RoutePath` | frontend/src/App.jsx:68-119 | The route a pathname selects: never empty, no ASCII capitals, and no trailing slash except on the root. |
| `App.RoutePathKeepsCanonical` | frontend/src/App.jsx:68-119 | A path already in route form, such as each route's own path, selects itself. |
| `App.RoutePathIdempotent` | frontend/src/App.jsx:68-119 | Normalising a pathname twice is normalising it once. |
| `App.GuardedRoute` | frontend/src/App.jsx:84-109 | /login and /signup are guarded as public, and /dashboard as authenticated. |
| `App.Resolve` | frontend/src/App.jsx:41-119 | Routes are told apart ignoring ASCII case and trailing slashes. The loading screen shows iff loading, and the guard's spinner never shows. The dashboard shows only to a user, on its route. Login and sign-up show only to a visitor without a user, and landing and welcome-back only to such a visitor on "/". Demo and about show iff their route is asked for. Unknown paths redirect to "/". Every redirect goes to "/", /login or /dashboard. |
| `App.SameRouteSameScreen` | frontend/src/App.jsx:68-119 | Two pathnames that select the same route get the same screen, up to the pathname recorded by a redirect to login. |
| `App.CaseAndTrailingSlashIgnored` | frontend/src/App.jsx:100-115 | "/Dashboard/" shows a user the dashboard, "/Demo" shows the demo and "/about//" the about page. |
| `App.RoutePathExamples` | frontend/src/App.jsx:100-115 | "/Dashboard/", "/Demo" and "/about//" select /dashboard, /demo and /about. |
| `App.ResolveTargets` | frontend/src/App.jsx:70-109 | What "/", /dashboard and /login show, or where they redirect, for a user and for a visitor. |
| `App.FollowFromTarget` | frontend/src/App.jsx:70-109 | From any redirect target, one more redirect reaches a page: the dashboard for a user, otherwise login or, from "/", the landing or welcome-back page. |
| `App.NoRedirectLoop` | frontend/src/App.jsx:70-118 | Two redirects at most reach a page. A user lands on the dashboard from every route but /demo and /about, and a visitor sent away from the dashboard lands on the login page. |
| `App.Shell.constructor` | frontend/src/App.jsx:22 | Onboarding starts closed. |
| `App.Shell.OnUserChanged` | frontend/src/App.jsx:30-34 | Opens onboarding iff there is a user and the flag is unset; never closes it. |
| `App.Shell.OnboardingComplete` | frontend/src/App.jsx:36-39 | Closes onboarding and stores the flag "true". |
| `App.CompletedStaysClosed` | frontend/src/App.jsx:30-39 | After completion, no sequence of user changes reopens onboarding, not even in a fresh shell over the same storage. |
| `AuthStore.BoolText` | frontend/src/store/authStore.js:16 | The stored text is "true" iff demo mode is on. |
| `AuthStore.Store.constructor` | frontend/src/store/authStore.js:3-6 | Visited iff storage holds exactly "true"; not in demo mode; no user. |
| `AuthStore.Store.SetUser` | frontend/src/store/authStore.js:9-11 | Only the user changes. |
| `AuthStore.Store.SetDemoMode` | frontend/src/store/authStore.js:14-17 | Sets the flag and writes its text under the demo key; nothing else changes. |
| `AuthStore.Store.MarkAsVisited` | frontend/src/store/authStore.js:20-23 | Visited, with "true" stored; a second call changes nothing. |
| `AuthStore.Store.ClearUser` | frontend/src/store/authStore.js:26-28 | The user becomes null and nothing else changes. |
| `AuthStore.SessionThenReload` | frontend/src/store/authStore.js:4-23 | After a reload the visit is remembered, but demo mode and the user are not, although the demo flag was written. |
| `SignUpPage.ValidateMeaning` | frontend/src/pages/SignUpPage.jsx:24-34 | A form passes iff its passwords match and are at least 6 UTF-16 code units long, and a mismatch is reported before a short password. Six characters always pass the length check, and fewer than three never do. |
| `SignUpPage.ThreeEmojiPass` | frontend/src/pages/SignUpPage.jsx:31 | Three emoji (six code units) in both password fields pass. |
| `SignUpPage.UserData` | frontend/src/pages/SignUpPage.jsx:36-40 | Exactly first_name, last_name and organization, from the matching form fields. |
| `SignUpPage.Form.constructor` | frontend/src/pages/SignUpPage.jsx:9-17 | Six empty fields, no error, no calls. |
| `SignUpPage.Form.HandleSubmit` | frontend/src/pages/SignUpPage.jsx:19-48 | Clears the store error once, then sets the validation message or "". `signUp` is called with email, password and user data iff the form is valid, and /dashboard is reached iff it is valid and `signUp` reports no error. The form is unchanged. |
| `SignUpPage.Form.HandleChange` | frontend/src/pages/SignUpPage.jsx:50-57 | Only the named field changes, and the form error is cleared. |

## Left out

- Logging, the simulated processing delays (backend/utils/gisMock.js:105, frontend/src/api/mockApi.js:51) and their random draw are not modelled.
- The elevation draw at backend/utils/gisMock.js:166 is not modelled either: it is not returned to any caller that the model covers.
- Floating point is not modelled: numbers are reals, so NaN, infinities and binary rounding do not arise.
- `toFixed(3)` is modelled as rounding half up to 3 decimals.
- The prompt text (backend/utils/claude.js:57-78) and the template texts are not modelled. A template is represented by its index and its inputs.
- The Anthropic SDK call is reduced to its reply or error.
- `GisMock.DegradationScore`: requires a nonzero first value when the trend has two or more values, because the source divides by it unguarded (backend/utils/gisMock.js:86). The model does not cover that division.
- `Claude.DescribeTrend`: requires a nonzero first value for the same unguarded division (backend/utils/claude.js:88).
- Express plumbing, JSON serialisation and the Supabase call are not modelled. Storage is an input outcome (stored with an id, or failed).
- `Date` rendering (ISO strings, `toLocaleDateString`) is not modelled: times are numbers or given strings.
- The `coordinatesText` of a clicked region stands for `toFixed(2)` formatting.
- `Text.ToLower`: lower-cases only the ASCII capitals and the Kelvin sign, and keeps every other character, though JavaScript lower-cases many of them (and 'İ' into "i" and a combining dot). None of those other lower cases is an ASCII letter that could end a keyword, so keyword matching is unaffected.
- `App.RoutePath`: does not percent-decode the pathname as the router does, so "/d%61shboard" is an unknown path here. The router's ranking of routes is not modelled; the routes here do not overlap.
- `InsightsPanel.Sanitize`: works on Dafny characters. It does not model JavaScript's UTF-16 code units, so a character outside the Basic Multilingual Plane becomes one '-' here and two in the source.
- `MapView3D.GetMarkerColor`: treats only the four level names as known. Keys inherited from `Object.prototype` (such as "toString") are not modelled.
- The authentication provider's members that App.jsx, ProtectedRoute.jsx and SignUpPage.jsx read from the store (`initialize`, `loading`, `signUp`, `error`, `clearError`, `signInWithGoogle`) are not defined by frontend/src/store/authStore.js. The model does not invent their behaviour:
  - `loading` and `signUp`'s error are inputs;
  - calls to `clearError` and `signUp` are recorded;
  - `initialize` is not modelled.
- Google sign-up, sign-out and the shown store error are not modelled.
- Rendering, animation, maps and charts are not modelled:
  - map view state, search and style toggles;
  - hover state;
  - the chart's change percentage, which divides by the first value;
  - the Sidebar's tabs and date formatting.
- `checkBackendHealth` (frontend/src/api/mockApi.js:63-70) is a network probe and is not part of this model.
- The pages other than the sign-up page, the navigation bar and frontend/src/main.jsx are not part of this model.
- `Sidebar.SidebarState.HandleSaveAnalysis`: uses `Option` for the analysis, so a present but falsy value (0, "") is not distinguished from a missing one.

## Findings

| source | as written | input that shows it | evidently intended | confidence | as-written member | corrected member |
|---|---|---|---|---|---|---|
| frontend/src/components/NDVIChart.jsx:40-43 | The tooltip colour tests the 3-decimal `ndvi` of the point. The status text beside it, and the badge, use the label computed from the raw value (line 21). | A value of 0.7004 is labelled "Healthy" but rounds to 0.7, so the status "Healthy" is shown in the moderate yellow. | The colour follows the label it is shown with. | not executed | `NdviChart.TooltipMismatchAt7004` | `NdviChart.TooltipMatchesStatus` |
