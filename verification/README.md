# Issue details quadrant chart — a Dafny model

This project models the data-preparation logic of the `SpfxIssueDetails`
SharePoint web part. The web part fetches the items of a SharePoint list and
shows them in a table. Items whose Resolvability and Opportunity measures are
both numbers also go on a Chart.js scatter plot, which is split into four
coloured quadrants at 25 on each 0–50 axis.

The model is purely functional and has five modules:

- `JsValues` (`js_values.dfy`) covers the JavaScript values the component
  handles. A number is NaN or a finite `real`, with exact arithmetic and no
  IEEE double rounding. A raw list value is undefined,
  null, a string or a number. The module also defines JavaScript truthiness
  and the decimal text a template literal produces for an integer.
- `Quadrants` (`quadrants.dfy`) is the quadrant classifier `_getQuadrantColor`
  and its fixed palette. Colours are structured `rgba` values, not CSS strings.
- `ChartOptions` (`chart_options.dfy`) holds the tick-label and gridline
  callbacks of both axes, plus the mapping from the size slider to pixels
  (`_getChartSize`, `_getInnerChartSize`).
- `ChartData` (`chart_data.dfy`) is `_parseNumber` and `_prepareChartData`.
  The chart data is a filter followed by a map over the fetched items.
- `IssueDetails` (`issue_details.dfy`) is `_fetchListItems` as a state
  machine over an abstract fetch outcome (`Ok`, `HttpError`, `Exception`).
  It also models `render`'s choice of loading view, error view, or table
  plus chart.

Foreign calls become function parameters, and every lemma holds for every
choice of them:

- JavaScript's `parseFloat` is a parameter of type `string -> JsNumber`.
- `encodeURIComponent` is a parameter of type `string -> string`.

The site URL (`context.pageContext.web.absoluteUrl`) is a field of `Props`.

## Model

| member | source | states |
|---|---|---|
| JsValues.NatToDecimal | src/webparts/spfxIssueDetails/components/SpfxIssueDetails.tsx:152 | the text a template literal gives a status code is a non-empty run of decimal digits with no leading zero |
| JsValues.DecimalRoundTrip | src/webparts/spfxIssueDetails/components/SpfxIssueDetails.tsx:152 | the decimal text of a number reads back as that number |
| JsValues.IntToDecimalInjective | src/webparts/spfxIssueDetails/components/SpfxIssueDetails.tsx:200 | different item ids render as different text |
| Quadrants.QuadrantColor | src/webparts/spfxIssueDetails/components/SpfxIssueDetails.tsx:163-181 | the if-chain picks the palette entry of the quadrant given by the side of 25 that each coordinate is on; fill and border share RGB, with alpha 0.6 and 1 |
| Quadrants.PaletteInjective | src/webparts/spfxIssueDetails/components/SpfxIssueDetails.tsx:172-180 | the four colour pairs are pairwise distinct |
| Quadrants.ColorIdentifiesQuadrant | src/webparts/spfxIssueDetails/components/SpfxIssueDetails.tsx:172-180 | two points get the same colour if and only if they are on the same side of 25 on both axes (the classification is total and exclusive) |
| Quadrants.MidpointBelongsToUpperHalf | src/webparts/spfxIssueDetails/components/SpfxIssueDetails.tsx:172-176 | a coordinate of exactly 25 is coloured like larger values and unlike smaller ones, on either axis |
| ChartOptions.TickLabel | src/webparts/spfxIssueDetails/components/SpfxIssueDetails.tsx:235-241 | a tick label, when shown, is the tick value itself |
| ChartOptions.TickLabelledExactlyAtAnchors | src/webparts/spfxIssueDetails/components/SpfxIssueDetails.tsx:235-274 | a label is shown exactly at the minimum, midpoint and maximum of the 0–50 range, with the same rule on the x and y axes |
| ChartOptions.StepTicksAllLabelled | src/webparts/spfxIssueDetails/components/SpfxIssueDetails.tsx:227-241 | every tick produced by the step of 25 on the fixed range gets a label |
| ChartOptions.GridLine | src/webparts/spfxIssueDetails/components/SpfxIssueDetails.tsx:243-256 | a gridline's width is 1 or 2 |
| ChartOptions.GridEmphasisAtQuadrantBoundary | src/webparts/spfxIssueDetails/components/SpfxIssueDetails.tsx:243-289 | the gridline is width 2 at alpha 0.3 exactly at the classifier's split value 25, and width 1 at alpha 0.1 everywhere else, on both axes |
| ChartOptions.ChartSize | src/webparts/spfxIssueDetails/components/SpfxIssueDetails.tsx:312-320 | slider 1 gives 380 px, slider 10 gives 1000 px, and settings from 1 to 10 stay within 380–1000 |
| ChartOptions.InnerChartSize | src/webparts/spfxIssueDetails/components/SpfxIssueDetails.tsx:322-326 | the inner size is the container size minus the 40 px padding |
| ChartOptions.ChartSizeStrictlyIncreasing | src/webparts/spfxIssueDetails/components/SpfxIssueDetails.tsx:312-320 | in exact real arithmetic, the container size is strictly increasing in the slider, by 620/9 px per step (the double-precision steps differ in the last digits) |
| ChartOptions.ChartSizeRecoversSlider | src/webparts/spfxIssueDetails/components/SpfxIssueDetails.tsx:312-320 | in exact real arithmetic, the slider setting can be read back from the container size, so the mapping is injective |
| ChartData.ParseNumber | src/webparts/spfxIssueDetails/components/SpfxIssueDetails.tsx:209-215 | null, undefined and "" give no number; otherwise there is a number exactly when coercion (`parseFloat` for strings, `Number` for numbers) is not NaN, and the result is that coerced value |
| ChartData.PointLabel | src/webparts/spfxIssueDetails/components/SpfxIssueDetails.tsx:200 | the label is the title when it is truthy, otherwise "Item " followed by the id's decimal text |
| ChartData.UntitledLabelsDistinct | src/webparts/spfxIssueDetails/components/SpfxIssueDetails.tsx:200 | untitled items with different ids get different labels |
| ChartData.PointFieldsFromItem | src/webparts/spfxIssueDetails/components/SpfxIssueDetails.tsx:193-203 | a point's x and y are the item's coerced measures, its colours are the quadrant colours of (x, y), and its label comes from the title or the id |
| ChartData.KeepPlottable | src/webparts/spfxIssueDetails/components/SpfxIssueDetails.tsx:187-192 | the filter keeps no more items than it is given, and every item it keeps has two numeric measures |
| ChartData.PrepareChartData | src/webparts/spfxIssueDetails/components/SpfxIssueDetails.tsx:183-207 | the point set is no longer than the item list |
| ChartData.PlottedIndices | src/webparts/spfxIssueDetails/components/SpfxIssueDetails.tsx:187-192 | the positions of the plottable items, strictly increasing; a position is listed exactly when its item has both measures |
| ChartData.KeptItemsAtPlottedIndices | src/webparts/spfxIssueDetails/components/SpfxIssueDetails.tsx:187-192 | the k-th kept item is the item at the k-th plottable position |
| ChartData.ChartDataIsOrderedSubsequence | src/webparts/spfxIssueDetails/components/SpfxIssueDetails.tsx:183-207 | the point set is the order-preserving subsequence of exactly the plottable items, each mapped to its point |
| ChartData.ChartDataSoundAndComplete | src/webparts/spfxIssueDetails/components/SpfxIssueDetails.tsx:187-204 | every plottable item's point is in the set, and every point comes from a plottable item |
| ChartData.ChartNonEmptyIffSomePlottable | src/webparts/spfxIssueDetails/components/SpfxIssueDetails.tsx:187-192 | the point set is non-empty if and only if some item has both measures |
| ChartData.OnePointPerQuadrant | src/webparts/spfxIssueDetails/components/SpfxIssueDetails.tsx:172-204 | items at (10,10), (10,40), (40,10) and (40,40) give four points with four different colours |
| IssueDetails.ListItemsUrl | src/webparts/spfxIssueDetails/components/SpfxIssueDetails.tsx:135-143 | the request URL extends the select URL, and the `$filter=Id eq <id>` clause is appended if and only if the id from the page URL is truthy |
| IssueDetails.BeginFetch | src/webparts/spfxIssueDetails/components/SpfxIssueDetails.tsx:120-132 | an empty list name settles at once with no items, not loading and "List name not specified", and issues no request; otherwise the state goes loading with no error, keeps its items and requests the list URL |
| IssueDetails.CompleteFetch | src/webparts/spfxIssueDetails/components/SpfxIssueDetails.tsx:150-160 | after the response, loading is off; success gives `data.value` (or no items when it is absent) and no error; a non-ok status or an exception gives no items and the corresponding message |
| IssueDetails.HttpErrorMessageRoundTrip | src/webparts/spfxIssueDetails/components/SpfxIssueDetails.tsx:150-153 | the status code and the status text can both be read back from the error message |
| IssueDetails.CellOf | src/webparts/spfxIssueDetails/components/SpfxIssueDetails.tsx:426-429 | a measure cell shows the raw value exactly when it is truthy, otherwise "-" |
| IssueDetails.RowOf | src/webparts/spfxIssueDetails/components/SpfxIssueDetails.tsx:417-431 | a table row carries its item's id, the title when it is truthy and "(No Title)" otherwise, and the two measure cells given by `CellOf` |
| IssueDetails.Render | src/webparts/spfxIssueDetails/components/SpfxIssueDetails.tsx:328-437 | loading shows the loading view; otherwise a truthy error shows the error view; otherwise the table has one row per item (or the "no items" row), and the chart with the full point set, a container width of `ChartSize(chartSize)` and an inner width 40 px less is shown exactly when the point set is non-empty |
| IssueDetails.MissingListShowsError | src/webparts/spfxIssueDetails/components/SpfxIssueDetails.tsx:123-130 | a fetch without a list name issues no request and ends in the "List name not specified" error view |
| IssueDetails.RequestInFlightShowsLoading | src/webparts/spfxIssueDetails/components/SpfxIssueDetails.tsx:132 | while the request is in flight the loading view is shown |
| IssueDetails.HttpFailureShowsStatus | src/webparts/spfxIssueDetails/components/SpfxIssueDetails.tsx:150-159 | a non-ok response ends in the error view, and its message gives back the status and the status text |
| IssueDetails.SuccessShowsAllItems | src/webparts/spfxIssueDetails/components/SpfxIssueDetails.tsx:403-437 | after a successful fetch (with `data.value` present or absent) the table lists every item, plottable or not, or shows the "no items" row exactly when there are none; the chart appears exactly when some item is plottable |
| IssueDetails.InitialStateShowsLoading | src/webparts/spfxIssueDetails/components/SpfxIssueDetails.tsx:96-103 | the constructor state (no items, loading, no error) renders the loading view |
| IssueDetails.EmptyExceptionMessageShowsEmptyTable | src/webparts/spfxIssueDetails/components/SpfxIssueDetails.tsx:340-346 | an exception whose message is empty leaves a falsy error, so the view shows the empty table, not the error view |

## Left out

- HTTP transport (`spHttpClient.get`, `response.json`) is left out: it is a foreign call. Its result is the abstract `Outcome` datatype.
- `encodeURIComponent` and `parseFloat` are not modelled: they are foreign functions and appear only as parameters. For example, `"12abc"` giving 12 is not modelled.
- JavaScript infinities are left out: a number is NaN or finite. `parseFloat("Infinity")` and its quadrant are not modelled.
- Exceptions thrown by anything other than the response check are left out. An example is a failing `response.json`. They appear only as `Exception(message)`, and a thrown value without a `message` is not modelled.
- The React lifecycle is left out: mount, re-fetch when the list name changes, and the logging of the id. The overwrite of state by a late response is visible only in that `CompleteFetch` ignores the state it replaces. Concurrent fetches are not modelled.
- The Chart.js registration and the watermark plugin (overlay text drawn on the canvas) are left out: they are drawing code.
- The constant chart options (titles, aspect ratio, legend), the tooltip text, the JSX styling and the CSS text of colours are left out: they are presentation. Colours are kept as `rgba` components.
- The web part classes (property pane, list and field lookups, theme and environment detection, reading the `ID` URL parameter) are left out: they are host plumbing. The props interface is reduced to the four fields in `Props`.
- `IssueDetails.Props.chartSize` is an integer because the property-pane slider gives integers from 1 to 10. The component does not clamp it, and neither does the model.
- HTTP status codes are natural numbers.
- ChartOptions.ChartSize: sizes are exact reals. The component computes them in IEEE double precision, so slider 2 gives 448.8888888888889 px there. Reading back the slider (`ChartSizeRecoversSlider`) and the constant 620/9 px step (`ChartSizeStrictlyIncreasing`) hold exactly only in the real-valued model.
- JsValues.IntToDecimal: the decimal text matches what a template literal prints only below 10^21, where JavaScript switches to exponent notation (`1e+21`). Ids above 2^53 are not distinct JavaScript numbers, so `IntToDecimalInjective` is a statement about the integer model.
