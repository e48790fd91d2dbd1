# Fraud-detection dashboard: client-side bookkeeping, modelled in Dafny

This project models the browser side of a fraud-detection dashboard. That is the
state and the data handling of its React views and services. Layout and styling are
not part of the model. The modelled parts are:

- the live transaction monitor: a WebSocket feed that keeps bounded, newest-first
  lists of transactions and alerts, and statistics over them;
- the `useApi` hook: a retry loop with linear back-off, a loading flag, and a data
  and error state;
- the API service:
  - the error interceptor's user message;
  - query parameters with JavaScript default arguments;
  - the status-update request;
- the risk bands: three copies of the same 31/61/81 thresholds in three views;
- the status badge table;
- the detection-method chart, the account-status pie and the dashboard's
  aggregations;
- the paginated anomaly list page;
- the network view:
  - statistics and legend;
  - node and edge normalisation;
  - the search and category filters;
  - the drawn graph;
  - zoom;
  - the selected node's connection panel.

One module stands for each source file. Helper modules:

- `Wrappers`: `Option`.
- `Seqs`: take, filter, sum, sub-sequence.
- `Text`: ASCII case mapping, JavaScript trimming, decimal rendering.
- `Js`: a JSON value with JavaScript truthiness, `||`, `String(...)` and object spread.
- `RiskBands`: the one definition of the risk band. Each source copy is its own
  function with an agreement lemma.

How the source is modelled:

- Components whose handlers update state in place are classes: `Monitor`, `ApiHook`,
  `Page`, `Dashboard` and `GraphView`. Their methods state the whole new state.
- The `useApi` loop is a `while` loop. It records each effect in a ghost trace, and
  its results are proved against the recursive specification `Cycle`.
- The detection-method count is a loop that fills a map. It is proved against
  `FirstOccurrences` and `CountMap`.
- Everything else is a pure function with lemmas.

External inputs become parameters:

- Server responses and WebSocket messages are decoded values, given as parameters.
- `apiCall` is an oracle from the attempt number to an outcome.
- Timers appear only as the recorded waits.

## Model

| member | source | states |
|---|---|---|
| RiskBands.Band | frontend/src/utils/utils.js:16-21 | each of the four levels holds exactly on its score interval: below 31, [31,61), [61,81), 81 and above |
| RiskBands.LevelOfName | frontend/src/utils/utils.js:17-20 | the level names are distinct: a name decodes to a level exactly when that level prints as the name |
| RiskBands.BandMonotone | frontend/src/utils/utils.js:16-21 | a higher score never gets a lower level |
| Utils.GetRiskLevel | frontend/src/utils/utils.js:16-21 | the label names the score's band and the colour is that band's text colour |
| Utils.GetRiskLevelMonotone | frontend/src/utils/utils.js:16-21 | the label's level rank does not decrease as the score grows |
| RiskIndicator.Indicator | frontend/src/components/RiskIndicator.jsx:1-28 | the bar gradient, the label and its colour all show the band of the score (0 when absent), and the bar width is the score |
| RiskIndicator.GetRiskColor | frontend/src/components/RiskIndicator.jsx:2-7 | the bar gradient stands for the band of the score |
| RiskIndicator.GetRiskLevel | frontend/src/components/RiskIndicator.jsx:9-14 | the label names the band of the score, in that band's text colour |
| RiskIndicator.ShowsBand | frontend/src/components/RiskIndicator.jsx:2-14 | `getRiskColor` and `getRiskLevel` classify every score into the same band |
| RiskIndicator.DefaultIsLow | frontend/src/components/RiskIndicator.jsx:1 | without a score the indicator is an empty Low bar |
| RiskIndicator.AgreesWithUtils | frontend/src/components/RiskIndicator.jsx:9-14 | the component's copy of `getRiskLevel` equals the shared utility's on every score |
| RiskIndicator.ColorMatchesLevelMonotone | frontend/src/components/RiskIndicator.jsx:2-16 | the bar colour and the label agree on the level, and the colour's level is monotone in the score |
| AnomalyList.GetRiskLevelAgrees | frontend/src/components/AnomalyList.jsx:9-17 | the list's copy names the band, agrees with the utility's label and colour, and is monotone |
| AnomalyList.GetRiskLevel | frontend/src/components/AnomalyList.jsx:9-17 | the card's level names the band of the score, in that band's text colour |
| AnomalyList.ScoreBarGradient | frontend/src/components/AnomalyList.jsx:116-123 | the score bar's gradient stands for the band of the score |
| AnomalyList.BarMatchesLevel | frontend/src/components/AnomalyList.jsx:116-123 | the score bar's gradient shows the same level as the textual label |
| AnomalyList.SelectionHighlightsOne | frontend/src/components/AnomalyList.jsx:43 | with distinct ids, exactly the selected row is highlighted; nothing is highlighted without a selection |
| AnomalyList.SetStatusById | frontend/src/components/AnomalyList.jsx:22 | same length; rows with the id get the new status; every other row and every other field is unchanged |
| AnomalyList.SetStatusByIdIdempotentCommutes | frontend/src/components/AnomalyList.jsx:22 | repeating an update changes nothing, and updates of two different ids commute |
| AnomalyList.AfterStatusChange | frontend/src/components/AnomalyList.jsx:19-26 | the list changes only when the server accepts and a setter was passed; then it is the id-wise update; the length never changes |
| AnomalyListPage.TotalPages | frontend/src/pages/AnomalyListPage.jsx:29 | the count is 1 exactly when there is no data or `pages` is absent, 0 or 1; otherwise it is `pages`; never 0 |
| AnomalyListPage.PrevPage | frontend/src/pages/AnomalyListPage.jsx:53 | the previous page is one less, but never below 1 |
| AnomalyListPage.NextPage | frontend/src/pages/AnomalyListPage.jsx:64 | the next page is one more, but never above the page count |
| AnomalyListPage.ButtonsMatchClamps | frontend/src/pages/AnomalyListPage.jsx:50-66 | inside the range, a button is disabled exactly when its click would not move the page, and an enabled one moves it by one |
| AnomalyListPage.NavigateStaysInRange | frontend/src/pages/AnomalyListPage.jsx:53-64 | any sequence of clicks from a page in 1..total stays in 1..total |
| AnomalyListPage.NextFromBeyondLastPage | frontend/src/pages/AnomalyListPage.jsx:64-65 | a page beyond a shrunken page count leaves "next" enabled, and clicking it jumps back to the last page |
| AnomalyListPage.Page.constructor | frontend/src/pages/AnomalyListPage.jsx:11-24 | the initial state: filter "all", page 1, no anomalies, no selection, no data |
| AnomalyListPage.Page.CurrentQuery | frontend/src/pages/AnomalyListPage.jsx:14-16 | the request asks for the current page and filter, 10 per page |
| AnomalyListPage.Page.View | frontend/src/pages/AnomalyListPage.jsx:26-29 | loading wins over the error, and the error wins over the listing; the listing shows the page, the page count and the list |
| AnomalyListPage.Page.Previous | frontend/src/pages/AnomalyListPage.jsx:53 | the page becomes `PrevPage` of the old page; nothing else changes |
| AnomalyListPage.Page.Next | frontend/src/pages/AnomalyListPage.jsx:64 | the page becomes `NextPage` with the current page count; nothing else changes |
| AnomalyListPage.Page.SetStatusFilter | frontend/src/pages/AnomalyListPage.jsx:37 | only the filter changes; the page is not reset |
| AnomalyListPage.Page.OnData | frontend/src/pages/AnomalyListPage.jsx:18-22 | a response replaces the list with its anomalies; page, filter and selection are kept |
| AnomalyListPage.Page.Select | frontend/src/pages/AnomalyListPage.jsx:24 | only the selection changes |
| AnomalyListPage.Page.OnStatusChange | frontend/src/components/AnomalyList.jsx:19-26 | the page's list is updated by `AfterStatusChange`, because the page passes a setter; nothing else changes |
| StatusBadge.Badge | frontend/src/components/StatusBadge.jsx:4-36 | the badge is "Unknown" exactly when the lower-cased status is not one of the four known statuses, and only then outlined |
| StatusBadge.OwnConfig | frontend/src/components/StatusBadge.jsx:4-34 | the table has own entries exactly for the four statuses and `default`; each status entry's label names that status, and only `default` is outlined |
| StatusBadge.LookupAsWritten | frontend/src/components/StatusBadge.jsx:36 | the bracket lookup finds an inherited property exactly for "constructor" and "__proto__", and an own entry exactly where the table has one |
| StatusBadge.BadgeAsWritten | frontend/src/components/StatusBadge.jsx:36 | the written badge lacks label and variant together, exactly for the two inherited names; otherwise it is `Badge` |
| StatusBadge.KnownStatusTitles | frontend/src/components/StatusBadge.jsx:4-28 | each known status gets its own label and variant, and the label identifies the status |
| StatusBadge.BadgeCaseInsensitive | frontend/src/components/StatusBadge.jsx:36 | the badge depends only on the lower-cased status |
| StatusBadge.ConstructorStatusRendersBlank | frontend/src/components/StatusBadge.jsx:36 | as written, status "Constructor" finds an inherited object property and renders no label; the own-entry lookup gives "Unknown" |
| StatusBadge.AsWrittenAgreesElsewhere | frontend/src/components/StatusBadge.jsx:36 | for every status except the two inherited names, the written lookup renders exactly `Badge` |
| DetectionMethodChart.Total | frontend/src/components/DetectionMethodChart.jsx:2 | the divisor is the count sum, or 1 when that sum is 0; it is never 0 |
| DetectionMethodChart.Round | frontend/src/components/DetectionMethodChart.jsx:14 | rounding stays within half a unit, with halves rounded up |
| DetectionMethodChart.Share | frontend/src/components/DetectionMethodChart.jsx:23 | the share times the divisor is the count times 100 |
| DetectionMethodChart.Row | frontend/src/components/DetectionMethodChart.jsx:6-23 | a row keeps the entry's name, count and colour; its width is the share of the divisor and its percent that width rounded |
| DetectionMethodChart.Rows | frontend/src/components/DetectionMethodChart.jsx:6-25 | one row per entry, keeping name, count and colour; width = count/total·100; the shown percent is that width rounded |
| DetectionMethodChart.ShareBounds | frontend/src/components/DetectionMethodChart.jsx:23 | a share of a non-negative total lies in [0, 100] |
| DetectionMethodChart.RowsInRange | frontend/src/components/DetectionMethodChart.jsx:14-23 | with non-negative counts, every width and percent is in [0, 100] |
| DetectionMethodChart.SharesAdd | frontend/src/components/DetectionMethodChart.jsx:23 | the widths add up to the count sum scaled by 100/total |
| DetectionMethodChart.WidthsAddToHundred | frontend/src/components/DetectionMethodChart.jsx:2-23 | with a non-zero count sum, the bar widths add up to exactly 100 |
| DetectionMethodChart.AllZeroShowsZero | frontend/src/components/DetectionMethodChart.jsx:2 | when every count is 0, the `\|\| 1` fallback makes every bar and percent 0 instead of dividing by zero |
| AccountStatusChart.PlottedExactly | frontend/src/components/AccountStatusChart.jsx:7 | the plotted categories are exactly the positive ones, in input order |
| AccountStatusChart.Plotted | frontend/src/components/AccountStatusChart.jsx:7 | no more slices than given, each with a positive value |
| AccountStatusChart.Cells | frontend/src/components/AccountStatusChart.jsx:56-58 | one cell per plotted category, coloured by its position among the plotted ones modulo the three colours |
| AccountStatusChart.ColorsCycle | frontend/src/components/AccountStatusChart.jsx:57 | cells three apart share a colour |
| AccountStatusChart.ColorsByInputPosition | frontend/src/components/AccountStatusChart.jsx:3-58 | when every category is positive, the colour follows the input position |
| AccountStatusChart.ZeroCategoryShiftsColors | frontend/src/components/AccountStatusChart.jsx:7-57 | a zero first category shifts the next ones onto green and amber, not amber and red |
| AccountStatusChart.Percentage | frontend/src/components/AccountStatusChart.jsx:20 | the tooltip share is value·100/total over all categories, zero ones included; it is undefined when the total is 0 |
| AccountStatusChart.Tooltip | frontend/src/components/AccountStatusChart.jsx:9-27 | a tooltip exists exactly when it is active with a non-empty payload; it shows the first payload entry's name and count, and its percentage is that value over the unfiltered sum (`Percentage`) |
| AccountStatusChart.HoveredPercentageInRange | frontend/src/components/AccountStatusChart.jsx:9-20 | hovering a plotted category shows a percentage in (0, 100] |
| AnomalyDashboard.AnalyticsData | frontend/src/components/AnomalyDashboard.jsx:35-49 | the metrics response is used as is; without it, every one of the thirteen metric keys is 0 |
| AnomalyDashboard.MetricsFallback | frontend/src/components/AnomalyDashboard.jsx:35-49 | any metric reads 0 without a response and the server's value with one |
| AnomalyDashboard.MetricValue | frontend/src/components/AnomalyDashboard.jsx:488 | a metric the data has reads its value; a metric that reads non-zero is in the data |
| AnomalyDashboard.ListOrEmpty | frontend/src/components/AnomalyDashboard.jsx:52-58 | a missing response or field gives the empty list, otherwise the field |
| AnomalyDashboard.ListedAnomalies | frontend/src/components/AnomalyDashboard.jsx:52 | the cards get the fetched anomalies, or none without a response; no filter is applied |
| AnomalyDashboard.View | frontend/src/components/AnomalyDashboard.jsx:78-98 | the spinner shows exactly when some fetch is loading; the error page shows exactly when none is loading and some failed |
| AnomalyDashboard.MethodKey | frontend/src/components/AnomalyDashboard.jsx:66 | the key is never empty; it is "unknown" exactly when the method is absent, empty or "unknown" |
| AnomalyDashboard.Methods | frontend/src/components/AnomalyDashboard.jsx:65-66 | one key per anomaly, in order |
| AnomalyDashboard.FirstOccurrences | frontend/src/components/AnomalyDashboard.jsx:64-71 | no more keys than methods |
| AnomalyDashboard.CountMap | frontend/src/components/AnomalyDashboard.jsx:64-68 | every key's count is between 1 and the number of methods |
| AnomalyDashboard.FirstOccurrencesKeys | frontend/src/components/AnomalyDashboard.jsx:64-71 | the row keys are exactly the methods seen, each once |
| AnomalyDashboard.CountMapKeys | frontend/src/components/AnomalyDashboard.jsx:64-68 | the count map has a key exactly for each method seen |
| AnomalyDashboard.CountMapCounts | frontend/src/components/AnomalyDashboard.jsx:67 | each method's count is its number of occurrences |
| AnomalyDashboard.CountAsWritten | frontend/src/components/AnomalyDashboard.jsx:64-68 | the count as the code computes it: a `__proto__` key never gets a property, and only an inherited name gets a concatenated string |
| AnomalyDashboard.CountAsWrittenOrdinary | frontend/src/components/AnomalyDashboard.jsx:64-68 | off the names inherited from `Object.prototype`, the written count is the number of occurrences and equals `CountMap` |
| AnomalyDashboard.ToStringMethodCountIsText | frontend/src/components/AnomalyDashboard.jsx:67 | a "toString" method counts as the string "function toString() { [native code] }1", then "…11"; a "__proto__" method gets no property |
| AnomalyDashboard.Capitalize | frontend/src/components/AnomalyDashboard.jsx:72 | the first character is upper-cased and the rest is kept |
| AnomalyDashboard.CountMethods | frontend/src/components/AnomalyDashboard.jsx:64-68 | the counting loop yields the keys in first-seen order and the count map |
| AnomalyDashboard.DetectionMethods | frontend/src/components/AnomalyDashboard.jsx:61-76 | the rows are `DetectionMethodRows` of the anomalies |
| AnomalyDashboard.DetectionMethodsCountEachOnce | frontend/src/components/AnomalyDashboard.jsx:61-76 | the row counts add up to the number of anomalies, and there are no rows exactly when there are no anomalies |
| AnomalyDashboard.EveryMethodHasRow | frontend/src/components/AnomalyDashboard.jsx:61-76 | every anomaly's method has a row with a positive count |
| AnomalyDashboard.CountsCoverAll | frontend/src/components/AnomalyDashboard.jsx:65-68 | the occurrences of the distinct keys add up to the length of the list |
| AnomalyDashboard.EntriesSum | frontend/src/components/AnomalyDashboard.jsx:71-75 | the chart entries carry the occurrence counts of their keys |
| AnomalyDashboard.Entries | frontend/src/components/AnomalyDashboard.jsx:71-75 | one entry per key: row i is labelled with key i capitalised, counts its occurrences, and takes palette colour (start + i) mod 5 |
| AnomalyDashboard.DetectionMethodRows | frontend/src/components/AnomalyDashboard.jsx:61-76 | no rows exactly when there are no anomalies, and never more rows than anomalies |
| AnomalyDashboard.AccountSlices | frontend/src/components/AnomalyDashboard.jsx:254-269 | no chart exactly when there are no accounts; otherwise "Normal Accounts", "Suspicious Accounts" and "High Risk / Anomalies" in that order, valued by the sizes of the normal, suspicious-only and high-risk buckets, and adding up to the number of accounts |
| AnomalyDashboard.BucketsDisjoint | frontend/src/components/AnomalyDashboard.jsx:259-267 | every account falls in exactly one of normal, suspicious-only and high-risk |
| AnomalyDashboard.BucketSizes | frontend/src/components/AnomalyDashboard.jsx:259-267 | the three bucket sizes add up to the number of accounts |
| AnomalyDashboard.Dashboard.constructor | frontend/src/components/AnomalyDashboard.jsx:17-18 | no selection; filter "all" |
| AnomalyDashboard.Dashboard.SetStatusFilter | frontend/src/components/AnomalyDashboard.jsx:316-321 | only the filter changes; the list handed to the anomaly cards does not depend on it |
| AnomalyDashboard.Dashboard.Select | frontend/src/components/AnomalyDashboard.jsx:334-337 | only the selection changes |
| AnomalyDashboard.FilterAndStatusChangeKeepList | frontend/src/components/AnomalyDashboard.jsx:334-338 | without a setter, a status change leaves the dashboard's list as it was |
| TransactionMonitor.Prepend | frontend/src/components/TransactionMonitor.jsx:34-37 | the new item comes first, followed by the first `keep` old items in order |
| TransactionMonitor.PrependIsBoundedPush | frontend/src/components/TransactionMonitor.jsx:34-37 | prepending is pushing onto the front and truncating to `keep`+1 |
| TransactionMonitor.FeedKeepsNewest | frontend/src/components/TransactionMonitor.jsx:34 | after any run of messages, the list is the newest `keep`+1 items, newest first |
| TransactionMonitor.VolumeConcat | frontend/src/components/TransactionMonitor.jsx:69 | volume is additive over concatenation |
| TransactionMonitor.Volume | frontend/src/components/TransactionMonitor.jsx:69 | non-negative amounts give a non-negative volume |
| TransactionMonitor.Stats | frontend/src/components/TransactionMonitor.jsx:66-73 | the active count is the list length, the anomaly count is the number of flagged items (at most that length), and the volume sums amounts with missing ones as 0 |
| TransactionMonitor.StatsAfterPrepend | frontend/src/components/TransactionMonitor.jsx:34-69 | one more transaction raises the count by one, the anomalies by its flag, and the volume by its amount |
| TransactionMonitor.Monitor.constructor | frontend/src/components/TransactionMonitor.jsx:12-14 | not monitoring, no socket, empty lists |
| TransactionMonitor.Monitor.Toggle | frontend/src/components/TransactionMonitor.jsx:16-20 | the flag flips; turning on opens a connection and turning off closes it; the lists are kept |
| TransactionMonitor.Monitor.OnOpen | frontend/src/components/TransactionMonitor.jsx:22-26 | a connecting socket opens and sends exactly one subscribe frame |
| TransactionMonitor.Monitor.OnMessage | frontend/src/components/TransactionMonitor.jsx:28-45 | on an open socket: a snapshot replaces the list, cut to 40; else a single transaction is prepended, keeping 40 older ones; an alert is prepended, keeping 9; a malformed message changes nothing |
| TransactionMonitor.Monitor.OnError | frontend/src/components/TransactionMonitor.jsx:47-50 | monitoring stops and the socket is gone; the lists are kept |
| TransactionMonitor.Monitor.OnClose | frontend/src/components/TransactionMonitor.jsx:52-55 | monitoring stops and the socket is gone; the lists are kept |
| TransactionMonitor.Monitor.CurrentStats | frontend/src/components/TransactionMonitor.jsx:66-73 | the list's length, its number of anomalous transactions and its summed volume, i.e. `Stats` of the current list |
| UseApi.FirstResolved | frontend/src/hooks/useApi.js:10-16 | the first attempt from `k` that resolves, with every earlier attempt rejected; or none, when all remaining attempts reject |
| UseApi.AttemptShape | frontend/src/hooks/useApi.js:11-25 | an attempt turns loading on, calls, and turns loading off last; it sets the error iff it is the last allowed call and fails, and clears it iff the call resolves |
| UseApi.CycleShape | frontend/src/hooks/useApi.js:9-26 | a cycle is empty iff the counter has reached `maxRetries`; otherwise it starts with that attempt's call and ends with loading off |
| UseApi.ProjectConcat | frontend/src/hooks/useApi.js:8-27 | a projection of the effect trace distributes over concatenation |
| UseApi.Range | frontend/src/hooks/useApi.js:18 | the consecutive attempt numbers lo..hi-1 |
| UseApi.Backoff | frontend/src/hooks/useApi.js:22 | the i-th wait is 1000·(lo+i+1) ms |
| UseApi.CycleCalls | frontend/src/hooks/useApi.js:10-18 | the calls made are consecutive attempt numbers: one per failure, plus one for the success; none after a success |
| UseApi.CallsBounded | frontend/src/hooks/useApi.js:10 | at most `maxRetries` calls, and exactly that many when all of them fail |
| UseApi.CycleWaits | frontend/src/hooks/useApi.js:22 | each failure is followed by a wait of 1000, 2000, 3000… ms, including after the last one |
| UseApi.CycleErrors | frontend/src/hooks/useApi.js:19-21 | the error is set once exactly when every attempt fails, and never otherwise |
| UseApi.CycleLoading | frontend/src/hooks/useApi.js:12-24 | the loading flag is set and cleared in pairs around each call |
| UseApi.ApiHook.constructor | frontend/src/hooks/useApi.js:4-6 | no data, loading, no error |
| UseApi.ApiHook.Try | frontend/src/hooks/useApi.js:11-25 | one attempt: a resolution stores the data and clears the error; a rejection leaves the data, and sets the error only on the last attempt; loading ends false |
| UseApi.ApiHook.FetchData | frontend/src/hooks/useApi.js:8-27 | the effects are exactly `Cycle`; the first resolved result is stored with the error cleared; if every attempt fails, the old data stays and the failure error is set; loading ends false |
| UseApi.FirstResolvedAt | frontend/src/hooks/useApi.js:10-16 | the loop returns at the first attempt that resolves after earlier failures |
| UseApi.NoneResolved | frontend/src/hooks/useApi.js:10-22 | when every attempt fails, nothing resolves |
| Api.UserMessage | frontend/src/services/api.js:34-44 | the message is never empty; it is `detail`, then `message`, then the server-error text for a response, the connection text without a response, and the generic text otherwise |
| Api.RequestError.constructor | frontend/src/services/api.js:34-43 | the error carries the given `response` and `request` fields and no message yet |
| Api.RequestError.Cause | frontend/src/services/api.js:34-44 | the error's fields determine a failed transport outcome: a server reply exactly when there is a response, no reply exactly when only the request is there |
| Api.RequestError.Intercept | frontend/src/services/api.js:31-47 | the interceptor attaches `UserMessage` of the error's cause |
| Api.Settle | frontend/src/services/api.js:27-58 | a service call rejects exactly when the transport fails, and resolves to the response data otherwise |
| Api.NoErrorSwallowed | frontend/src/services/api.js:46-58 | every failure reaches the caller as a rejection carrying a non-empty message |
| Api.Arg | frontend/src/services/api.js:61-85 | an omitted argument takes its default; any given value, even `null`, is kept |
| Api.TransactionParams | frontend/src/services/api.js:61-65 | page and limit are always sent, with defaults 1 and 50; status is sent exactly when it is truthy |
| Api.AnomalyParams | frontend/src/services/api.js:73-77 | page, limit and status are always sent; status defaults to "all" |
| Api.NetworkParams | frontend/src/services/api.js:85-90 | `days` is sent exactly when it is neither omitted nor null, and 0 is sent |
| Api.UpdateStatusRequest | frontend/src/services/api.js:141-143 | a PUT under `/anomalies/` whose body carries only the new status |
| Api.ParseNatToString | frontend/src/services/api.js:143 | decimal rendering of a natural number parses back to it |
| Api.ParseIntToString | frontend/src/services/api.js:143 | decimal rendering of any integer, with its sign, parses back to it |
| Api.StatusPathRoundTrip | frontend/src/services/api.js:143 | the anomaly id can be read back from the status path |
| Api.IdOfStatusPath | frontend/src/services/api.js:143 | a path yields an id only when it starts with `/anomalies/` and is longer than prefix and suffix together |
| NetworkVisualization.Stats | frontend/src/components/NetworkVisualization.jsx:49-66 | all zero without data; otherwise the array lengths and the flagged counts, each at most its total |
| NetworkVisualization.LegendNormalCorrected | frontend/src/components/NetworkVisualization.jsx:704 | the written "Normal" count is the true count minus the nodes both suspicious and high-risk; the true count is at most the total |
| NetworkVisualization.LegendNormalNegative | frontend/src/components/NetworkVisualization.jsx:704 | one suspicious node with risk 90 makes the written count -1, while the true count is 0 |
| NetworkVisualization.LegendNormalAsWritten | frontend/src/components/NetworkVisualization.jsx:704 | the written count never exceeds the total and is negative exactly when the suspicious and high-risk counts together exceed it |
| NetworkVisualization.InclusionExclusion | frontend/src/components/NetworkVisualization.jsx:58-60 | normal + suspicious + high-risk counts = total + nodes that are both |
| NetworkVisualization.UsableNodes | frontend/src/components/NetworkVisualization.jsx:74-76 | position by position the fields of the usable items (objects with a truthy id), so in order; every usable item's fields are kept, and nothing else |
| NetworkVisualization.UsableEdges | frontend/src/components/NetworkVisualization.jsx:78-82 | position by position the fields of the usable items (objects with both endpoints present), so in order; every usable item's fields are kept, and nothing else |
| NetworkVisualization.GraphData | frontend/src/components/NetworkVisualization.jsx:69-85 | empty without data; otherwise the nodes and edges are, in order, the fields of exactly the usable items of each array (a non-array counts as empty) |
| NetworkVisualization.NormalizeNode | frontend/src/components/NetworkVisualization.jsx:95-103 | every property present on the raw node wins over the computed default |
| NetworkVisualization.NormalizeEdge | frontend/src/components/NetworkVisualization.jsx:107-116 | every property present on the raw edge wins over the computed default |
| NetworkVisualization.MapNodes | frontend/src/components/NetworkVisualization.jsx:93-103 | every node is normalised, in order |
| NetworkVisualization.MapEdges | frontend/src/components/NetworkVisualization.jsx:105-116 | every edge is normalised, in order |
| NetworkVisualization.ValidNodes | frontend/src/components/NetworkVisualization.jsx:93-103 | no more nodes than the graph has, each with a truthy id |
| NetworkVisualization.ValidNodesExactly | frontend/src/components/NetworkVisualization.jsx:93-103 | a node is valid exactly when it is the normalisation of a graph node with a truthy id |
| NetworkVisualization.ValidEdges | frontend/src/components/NetworkVisualization.jsx:105-117 | no more edges than the graph has, each with truthy endpoints |
| NetworkVisualization.ValidEdgesExactly | frontend/src/components/NetworkVisualization.jsx:105-117 | an edge is valid exactly when it is the normalisation of a graph edge with both endpoints present and its normalised endpoints are truthy |
| NetworkVisualization.FieldMatches | frontend/src/components/NetworkVisualization.jsx:125-127 | the field test throws exactly when the field is truthy and not a string |
| NetworkVisualization.StringFieldsNeverThrow | frontend/src/components/NetworkVisualization.jsx:123-128 | a node whose label, id and type are strings or falsy never makes the search throw |
| NetworkVisualization.NodeMatches | frontend/src/components/NetworkVisualization.jsx:123-128 | the test throws only on a truthy non-string field; with string fields a node matches exactly when its lower-cased label, id or type contains the term |
| NetworkVisualization.SearchNodes | frontend/src/components/NetworkVisualization.jsx:121-129 | the search throws exactly when some node's test throws; otherwise it keeps only matching nodes |
| NetworkVisualization.SearchKeepsMatches | frontend/src/components/NetworkVisualization.jsx:123-128 | a search that does not throw keeps every matching node |
| NetworkVisualization.SearchIsSubsequence | frontend/src/components/NetworkVisualization.jsx:123-128 | a search that does not throw keeps the nodes in their order |
| NetworkVisualization.FilteredData | frontend/src/components/NetworkVisualization.jsx:88-161 | only a non-blank search can throw; every shown node has a non-blank string id and every shown edge has string endpoints |
| NetworkVisualization.BlankSearchKeepsAll | frontend/src/components/NetworkVisualization.jsx:121 | a blank search term never throws and acts as no search |
| NetworkVisualization.SearchKeepsEdges | frontend/src/components/NetworkVisualization.jsx:119-143 | the search never changes the edges shown |
| NetworkVisualization.SearchShowsExactlyMatches | frontend/src/components/NetworkVisualization.jsx:119-147 | under a filter without a category, a node is shown exactly when it is valid, matches and has a usable id |
| NetworkVisualization.CategoriesNarrow | frontend/src/components/NetworkVisualization.jsx:131-158 | each category keeps only nodes with its property (suspicious exactly `true`, risk above 80, balance above 100000); "suspicious" and "anomalies" keep only edges with anomaly exactly `true`; every other filter, "high-value" included, shows exactly the valid edges that pass the final check; the edges are a sub-list of the valid ones |
| NetworkVisualization.CategoryNodes | frontend/src/components/NetworkVisualization.jsx:131-143 | no more nodes than given, each passing its category's test |
| NetworkVisualization.CategoryEdges | frontend/src/components/NetworkVisualization.jsx:131-143 | no more edges than given, each passing its category's test |
| NetworkVisualization.CategoryNodesInOrder | frontend/src/components/NetworkVisualization.jsx:131-143 | the category filter keeps nodes in order |
| NetworkVisualization.SearchedInOrder | frontend/src/components/NetworkVisualization.jsx:119-129 | the nodes after the search step are the valid nodes, or a sub-list of them in order |
| NetworkVisualization.ShownNodesInOrder | frontend/src/components/NetworkVisualization.jsx:119-147 | the shown nodes are a sub-list of the valid nodes, in order |
| NetworkVisualization.ShownNodesExactly | frontend/src/components/NetworkVisualization.jsx:119-147 | a node is shown exactly when it is valid, has a non-blank string id, passes its category's test, and matches a search term that is not blank |
| NetworkVisualization.ShownEdgesExactly | frontend/src/components/NetworkVisualization.jsx:131-158 | an edge is shown exactly when it is valid, has non-blank string endpoints and passes its category's test, whatever the search |
| NetworkVisualization.NumericIdDropped | frontend/src/components/NetworkVisualization.jsx:96-146 | a numeric id survives normalisation unchanged, then fails the string check, so that node is never shown |
| NetworkVisualization.NodeColor | frontend/src/components/NetworkVisualization.jsx:183-189 | red exactly for suspicious nodes; amber exactly for other nodes with risk above 80; green exactly for other nodes with risk above 50 |
| NetworkVisualization.EdgeColor | frontend/src/components/NetworkVisualization.jsx:211-217 | green exactly for anomalous edges and other edges with a score in (0.4, 0.7]; amber exactly for other edges with a score above 0.7; indigo exactly for other edges with a score of at most 0.4 |
| NetworkVisualization.DrawNodes | frontend/src/components/NetworkVisualization.jsx:176-189 | one drawn node per node, with its trimmed id and its `NodeColor` |
| NetworkVisualization.DrawEdges | frontend/src/components/NetworkVisualization.jsx:205-217 | one drawn edge per edge, with its trimmed endpoints, its anomaly flag and its `EdgeColor` |
| NetworkVisualization.Draw | frontend/src/components/NetworkVisualization.jsx:174-222 | one drawn node per shown node, with its trimmed id and its colour; one drawn edge per shown edge, with its trimmed endpoints, its anomaly flag and `EdgeColor` of that edge |
| NetworkVisualization.SafeGraphData | frontend/src/components/NetworkVisualization.jsx:166-227 | with a pinning test that cannot throw (on `String(node.label \|\| "")`), every shown node and edge is drawn |
| NetworkVisualization.SafeGraphDataAsWritten | frontend/src/components/NetworkVisualization.jsx:166-227 | as written, the drawn graph is the guarded one or empty, and it differs from the guarded one exactly when the pinning test throws on some shown node |
| NetworkVisualization.NullLabelEmptiesGraph | frontend/src/components/NetworkVisualization.jsx:166-227 | as written, a node with a null label found by id "a" passes the filters, and then the drawn graph is empty; the guarded version draws it |
| NetworkVisualization.AsWrittenAgreesWithoutSearch | frontend/src/components/NetworkVisualization.jsx:190-191 | without a search term the written and guarded versions agree |
| NetworkVisualization.Incident | frontend/src/components/NetworkVisualization.jsx:885-887 | the selected node's edges: a sub-list of the edges holding exactly those that touch it |
| NetworkVisualization.AnomalousLinks | frontend/src/components/NetworkVisualization.jsx:895-898 | a sub-list of the edges holding exactly the anomalous ones that touch the node |
| NetworkVisualization.Neighbours | frontend/src/components/NetworkVisualization.jsx:906-910 | exactly the other ends of the edges that touch the node |
| NetworkVisualization.Recent | frontend/src/components/NetworkVisualization.jsx:924-926 | the first five incident edges in order, or all of them when there are fewer |
| NetworkVisualization.ConnectionCounts | frontend/src/components/NetworkVisualization.jsx:884-911 | anomalous links and distinct neighbours never outnumber the connections; there are no neighbours exactly when there are no connections |
| NetworkVisualization.ZoomedIn | frontend/src/components/NetworkVisualization.jsx:243 | zooming in adds 0.2, capped at 3 |
| NetworkVisualization.ZoomedOut | frontend/src/components/NetworkVisualization.jsx:251 | zooming out subtracts 0.2, floored at 0.3 |
| NetworkVisualization.ZoomRoundTrip | frontend/src/components/NetworkVisualization.jsx:241-255 | away from the bounds, zooming in and out undo each other |
| NetworkVisualization.GraphView.constructor | frontend/src/components/NetworkVisualization.jsx:33-38 | zoom 1, filter "all", empty search, no selection |
| NetworkVisualization.GraphView.Shown | frontend/src/components/NetworkVisualization.jsx:88-161 | with no response the view shows an empty graph; only a search term that is not blank can make it throw |
| NetworkVisualization.GraphView.ZoomIn | frontend/src/components/NetworkVisualization.jsx:241-247 | with a mounted graph, the zoom and the widget's zoom become `ZoomedIn`; without one, nothing changes |
| NetworkVisualization.GraphView.ZoomOut | frontend/src/components/NetworkVisualization.jsx:249-255 | with a mounted graph, the zoom and the widget's zoom become `ZoomedOut`; without one, nothing changes |
| NetworkVisualization.GraphView.Reset | frontend/src/components/NetworkVisualization.jsx:257-265 | with a mounted graph, zoom, filter, search and selection go back to their initial values; without one, nothing changes |
| NetworkVisualization.GraphView.NodeClick | frontend/src/components/NetworkVisualization.jsx:233-239 | the node is selected; the widget zooms to max(zoom·1.2, 2) while the zoom state stays unchanged |
| NetworkVisualization.GraphView.SetFilter | frontend/src/components/NetworkVisualization.jsx:470 | only the filter changes |
| NetworkVisualization.GraphView.SetSearchTerm | frontend/src/components/NetworkVisualization.jsx:465 | only the search term changes |

## Left out

- Case mapping is ASCII only: `toLowerCase` and `toUpperCase` map ASCII letters and leave every other character as it is. `trim` strips the full set of JavaScript white space and line terminators.
- Js.NumberToString: renders the floor of a number, so any fractional value prints differently from JavaScript (`-1.5` renders "-2" and `1.5` renders "1").
- Js.GreaterThan: does not parse strings, so a numeric string (`"90"`) never compares greater, unlike JavaScript's `>`.
- Numbers are exact reals. Floating-point rounding, `toFixed`, `toLocaleString`, currency and date formatting are not modelled.
- The network view's average risk score, node size, link distance, animation, density and export are not modelled. They are rendering or floating-point details.
- Anomaly ids are integers. The status path is built from their decimal form.
- The WebSocket, axios, timers and the console are outside the model:
  - messages arrive as decoded values;
  - a message is only delivered while the socket is open;
  - each `await` of a timer is a recorded wait.
- axios drops `null` and `undefined` query parameters when it serialises the URL. The parameter maps are modelled before that step.
- The request interceptor only logs and is not modelled. Neither are `getDashboardMetrics`, `getAnalytics`, `getAnomalyTrends`, `getDetectionMethods`, `getRealTimeData` and `runDetection`: they are fixed GET calls with no logic beyond `Settle`.
- The ordering race between an old `fetchData` cycle and a newer one is not modelled. Such an overlap comes from a dependency change or `refetch` during a cycle. Each cycle is modelled on its own.
- `Object.entries` lists integer-like keys first. The method chart's rows follow first-seen order, which matches it for non-numeric method names. The chart's rows (`DetectionMethodRows`) count a method named after an `Object.prototype` property like any other. The code as written does not (see Findings and `CountAsWritten`).
- TransactionMonitor.Monitor.OnMessage: a truthy `transactions` field that is not an array makes the model drop the whole message, unlike the source. A string has `slice`, so the source replaces the list with the string's first 40 characters. Any other such value throws at TransactionMonitor.jsx:40. The prepends of lines 33-38 were already queued by then, so they still happen. The message is modelled as decoded values, and a list that holds a string has no place in them.
- AnomalyListPage.Page.OnStatusChange and AnomalyList.AfterStatusChange apply the update to the list current when the request settles. The source maps the `anomalies` prop captured when the card rendered (AnomalyList.jsx:22), after awaiting the PUT. A response that replaced the list in the meantime is then overwritten with the stale list. That happens with `OnData` after Next, Previous or a filter change (AnomalyListPage.jsx:18-22). The model runs each handler to completion, so it has no interleaving.
- Placeholders, spinners, icons, class names, tabs and layout are not modelled.
- `Math.random()` ids are not modelled. The fallback `node_${Math.random()}` is never reached, because nodes without a truthy id are already filtered out.
- react-force-graph replaces edge endpoints with node objects after the first layout. That mutation is not modelled.
- A node click zooms the widget but does not update the `zoom` state, as in the source. A later zoom-in therefore starts from the stale state value. This is modelled as written.
- The incremental transaction path keeps 41 entries (the new one plus 40 older), while a snapshot keeps 40. The code is followed here.
- Turning monitoring off and on again does not clear the transaction and alert lists. The code is followed here.
- The dashboard's status filter buttons change state but the list passed to `AnomalyList` is not filtered. `AnomalyList` also gets no `setAnomalies`, so a status change there does not update the dashboard's list. Both are modelled as written.

## Findings

| source | as written | input that shows it | evidently intended | confidence | as-written member | corrected member |
|---|---|---|---|---|---|---|
| frontend/src/components/StatusBadge.jsx:36 | `statusConfig[status.toLowerCase()]` also finds properties inherited from `Object.prototype`, and they are truthy | status `"Constructor"`: the lookup returns the `Object` constructor, whose `label` and `variant` are undefined, so the badge is blank | only the table's own entries are used; any other status gets the "Unknown" badge | high (not executed) | StatusBadge.ConstructorStatusRendersBlank | StatusBadge.Badge |
| frontend/src/components/AnomalyDashboard.jsx:67 | `methodCounts[method] \|\| 0` on a plain object also reads the methods inherited from `Object.prototype`, which are truthy functions | an anomaly with `detection_method: "toString"`: the count becomes the string "function toString() { [native code] }1"; a method "__proto__" gets no row at all | count every method from 0, for instance on an object without a prototype or a `Map` | high (not executed) | AnomalyDashboard.ToStringMethodCountIsText | AnomalyDashboard.CountMapCounts |
| frontend/src/components/NetworkVisualization.jsx:704 | "Normal" count = total − suspicious − high-risk | one node that is suspicious with risk score 90: the legend shows "Normal (-1)" | count the nodes that are neither suspicious nor high-risk | high (not executed) | NetworkVisualization.LegendNormalNegative | NetworkVisualization.LegendNormalCorrected |
| frontend/src/components/NetworkVisualization.jsx:190-191 | the pinning test calls `node.label.toLowerCase()` when a search term is set, and the spread `...node` keeps a `null` label | a node `{id: "a", label: null}` searched for `"a"`: it matches by id, then the label call throws and the `catch` draws an empty graph | pin with a test that cannot throw, such as one on `String(node.label \|\| "")`, and draw the node; `(node.label \|\| "")` alone, as in the search filter, still throws on a truthy non-string label such as 5 under a term of spaces | high (not executed) | NetworkVisualization.NullLabelEmptiesGraph | NetworkVisualization.SafeGraphData |
