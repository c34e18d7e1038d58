# Cookbook sales dashboard, modelled in Dafny

The repository is one browser view, `dashboard.js`, holding the React component
`CookbookSalesDashboard`. On mount it fetches one JSON sales report. While the request
is pending it shows a loading notice, and on failure it shows an error notice. Once the
report is in, it shows a grand-total heading, three charts and three summary cards.
Below the chart markup sits a small core of sequential logic, and this project models
that core:

- `formatNumber` (module `NumberFormat`). It writes a whole count in decimal and inserts
  a comma between digits wherever the number of digits to the right is a positive
  multiple of three. The source does this with a global regular-expression replacement
  over `toString()`. Both halves are modelled literally for counts a JavaScript number
  holds exactly: the decimal digits of a natural number, and the zero-width pattern
  tested at every position. The result is then proved equal to an independent
  right-to-left grouping by threes.
- The three chart lists derived from the report (module `SalesReport`): seven channel
  bars, three platform slices and a two-row physical/digital comparison. The report is a
  datatype whose counts are all `nat`.
- The tooltip label and the pie chart's value text (module `Tooltip`). Both are built on
  `formatNumber`.
- The component's three state cells `loading`, `error` and `data` (module `Dashboard`).
  The class `CookbookSalesDashboard` holds them as fields, and its methods apply the
  success and failure continuations of the fetch's promise chain. The pure function
  `Select` picks the render branch (loading, error, no data, dashboard), and `Render`
  builds what is shown.

The network request is not modelled. Its outcome is a `FetchOutcome` value: either a
rejection with a message, or a response with an HTTP status and the result of parsing
its body. Writing `lastUpdated` into a page element outside the component is modelled
only by its outcome, the parameter `labelWrite`: it either succeeds or throws with a
message.

Behaviours of the code worth knowing (the model follows the code):

- The write of `lastUpdated` into the page happens inside the success continuation. An
  exception there (the element is missing) is caught by the same `.catch` as a failed
  fetch. The error cell is then set after the data cell, and the error view is shown
  instead of the dashboard, although the report was stored
  (`FailedLabelWriteHidesReport`).
- A status outside 200–299 yields the message `Network response was not ok: <status>`,
  which names the status (`NotOkStatusShowsStatus`).
- The render tests the error cell for truthiness. An error whose message is the empty
  string therefore does not count, and a failed fetch with an empty message ends on the
  "No data available." notice (`HasError`, `FailedFetchShowsError`).

## Model

| member | source | states |
|---|---|---|
| NumberFormat.DecimalDigits | dashboard.js:46 | `toString` of a natural number is a non-empty string of decimal digits whose first digit is 0 only for the number 0 |
| NumberFormat.DecimalDigitsIsCanonical | dashboard.js:46 | the digits `toString` prints have no leading zero (unless the number is 0) and read back as the number |
| NumberFormat.DecimalDigitsOfValue | dashboard.js:46 | conversely, every canonical digit string is what `toString` prints for its value, so the conversion is a bijection |
| NumberFormat.NotWordBoundary | dashboard.js:46 | `\B` in front of a digit holds exactly after a word character, so never at the start of the text |
| NumberFormat.DigitTriplesAhead | dashboard.js:46 | the lookahead `(?=(\d{3})+(?!\d))` needs a digit at the position; inside a digit string it holds exactly when a positive multiple of three digits remain |
| NumberFormat.MatchesAt | dashboard.js:46 | the pattern only ever matches strictly inside the text, between a word character and a digit |
| NumberFormat.InsertSeparators | dashboard.js:46 | the global replacement, trying every position including the end, only ever adds commas: removing commas from its output gives the same text as removing them from its input, for any string |
| NumberFormat.FormatNumber | dashboard.js:45-47 | `formatNumber(n)` is the decimal digits of n grouped by threes from the right, joined with commas |
| NumberFormat.MatchesAtInDigits | dashboard.js:46 | on a digit string, the pattern (not at a word boundary, followed by whole triples of digits up to the end) matches exactly at inner positions a positive multiple of three from the end |
| NumberFormat.InsertSeparatorsIsChunked | dashboard.js:46 | on a digit string, the global replacement equals cutting groups of three off from the right and joining them with commas |
| NumberFormat.FormatNumberRoundTrip | dashboard.js:45-47 | removing every comma from `formatNumber(n)` gives exactly the decimal digits of n, and reading the text back gives n |
| NumberFormat.FormatNumberGroups | dashboard.js:45-47 | split at its commas, `formatNumber(n)` is a first group of 1–3 digits followed by groups of exactly 3 digits, one group per started triple |
| NumberFormat.FormatNumberEnds | dashboard.js:45-47 | `formatNumber(n)` is non-empty and neither starts nor ends with a comma |
| NumberFormat.FormatNumberCommaIffThousand | dashboard.js:45-47 | `formatNumber(n)` contains a comma if and only if n ≥ 1000; below 1000 it is plain `toString` |
| NumberFormat.FormatNumberMillions | dashboard.js:45-47 | `formatNumber(1234567)` is "1,234,567" |
| NumberFormat.FormatNumberSmallExamples | dashboard.js:45-47 | `formatNumber(0)` is "0" and `formatNumber(999)` is "999" |
| SalesReport.ChannelBreakdown | dashboard.js:57-65 | the channel list has one entry per channel, seven in all |
| SalesReport.PlatformTotals | dashboard.js:68-72 | the platform list has one entry per platform, three in all |
| SalesReport.PhysicalVsDigital | dashboard.js:75-86 | the comparison has exactly two rows |
| SalesReport.ChannelBreakdownShape | dashboard.js:57-65 | for every report, zeros included, so labels and colours never depend on the report: seven entries in the order Amazon US, CA, UK, Shopify Physical, Digital, ClickFunnels Physical, Digital, with their brand colours, each carrying its own report field |
| SalesReport.PlatformTotalsShape | dashboard.js:68-72 | for every report, so labels and colours never depend on the report: three slices Amazon, Shopify, ClickFunnels with their colours, carrying `amazon.total`, `shopify.total`, `clickfunnels.total` |
| SalesReport.ComparisonIsPivotOfChannels | dashboard.js:75-86 | rows "Physical" then "Digital"; each row's Shopify and ClickFunnels cells are the channel bars labelled "<platform> <row>" and nothing else |
| SalesReport.ChannelsAddUpToPlatformTotals | dashboard.js:57-72 | in a report whose totals are the sums of their parts, each platform slice equals the sum of that platform's channel bars |
| SalesReport.ChartsAddUpToTotalSales | dashboard.js:57-72 | in a consistent report, the channel bars and the platform slices each add up to `totalSales` |
| SalesReport.ComparisonColumnsAddUp | dashboard.js:68-86 | in a consistent report, each column of the comparison adds up to that platform's slice |
| Tooltip.Label | dashboard.js:94-103 | the tooltip shows something if and only if it is active and its payload is present and non-empty |
| Tooltip.LabelReadsBack | dashboard.js:94-103 | a shown label is the first item's name, ": ", exactly `formatNumber` of its count (which reads back as the count) and " cookbooks"; later payload items play no part |
| Tooltip.PieValueText | dashboard.js:163 | the pie tooltip text is exactly `formatNumber` of the count, which reads back as the count, followed by " cookbooks" |
| Dashboard.HasError | dashboard.js:51 | the error cell counts as an error exactly when it is truthy: `null` and the empty string do not, any non-empty message does |
| Dashboard.Select | dashboard.js:50-52 | the dashboard branch is chosen exactly when not loading, with no (truthy) error and with data, and shows that data; an error branch shows the stored message |
| Dashboard.SelectionPriority | dashboard.js:50-52 | loading wins whatever the error and data cells hold; a truthy error wins whatever the data cell holds; missing data comes next |
| Dashboard.Render | dashboard.js:50-215 | the full page is rendered exactly when the dashboard branch is selected |
| Dashboard.Headline | dashboard.js:110-112 | the heading is "Total Sales: ", then exactly `formatNumber(totalSales)` (which reads back as the total), then " Cookbooks" |
| Dashboard.PlatformFigures | dashboard.js:196-210 | the three card figures are `formatNumber` of the three pie-slice totals, in the pie chart's order, each reading back as its total |
| Dashboard.RenderedPage | dashboard.js:107-215 | a rendered page shows "Total Sales: " + `formatNumber(totalSales)` + " Cookbooks", the three chart lists of the report, and three card figures that are exactly `formatNumber` of the platform totals and read back as them |
| Dashboard.StoppedLoadingLeavesNotice | dashboard.js:50-52 | once loading is false, the screen is never the loading notice |
| Dashboard.IsOk | dashboard.js:25 | `response.ok` holds exactly for the 2xx statuses |
| Dashboard.NotOkMessage | dashboard.js:26 | the thrown message is "Network response was not ok: " followed by the status in canonical decimal, which reads back as the status |
| Dashboard.Fetched | dashboard.js:22-29 | a rejection passes on its own message; a status outside 200–299 turns into the failure "Network response was not ok: <status>"; with a 2xx status the parse result goes on unchanged, so a report reaches the success continuation if and only if the status is 2xx and the body parsed, and it is the parsed report |
| Dashboard.AfterSuccess | dashboard.js:32-33 | storing the report and clearing loading keeps the error cell, and the dashboard then shows that report unless a truthy error was already recorded |
| Dashboard.AfterFailure | dashboard.js:39-40 | storing the message and clearing loading keeps the data cell, and a non-empty message then selects its error view whatever data is stored |
| Dashboard.Settled | dashboard.js:20-42 | whatever the outcome, the promise chain leaves loading false |
| Dashboard.FailedFetchShowsError | dashboard.js:37-40 | after a failed fetch the error cell holds the message, data stays empty, loading is false, the dashboard is never shown, and a non-empty message is what the error view shows |
| Dashboard.RejectedFetchShowsMessage | dashboard.js:22-40 | a fetch rejected with a non-empty message ends on "Error loading data: " followed by that message |
| Dashboard.NotOkStatusShowsStatus | dashboard.js:25-26 | a non-2xx response ends on "Error loading data: Network response was not ok: <status>" |
| Dashboard.ServerErrorExample | dashboard.js:25-26 | an HTTP 500 ends on "Error loading data: Network response was not ok: 500" |
| Dashboard.DashboardShownIffLoaded | dashboard.js:20-52 | after the fetch settles, the dashboard is shown if and only if a report arrived and parsed and the `lastUpdated` write raised no truthy error; it then shows that report |
| Dashboard.FailedLabelWriteHidesReport | dashboard.js:30-40 | when the `lastUpdated` write throws, the report is stored but the thrown message's error view is shown |
| Dashboard.SuccessfulFetchShowsTotal | dashboard.js:30-112 | after a good fetch the page heading shows `formatNumber(totalSales)`, and the figure read back out of the heading is `totalSales` |
| Dashboard.CookbookSalesDashboard.constructor | dashboard.js:15-17 | a new component starts loading, with no data and no error |
| Dashboard.CookbookSalesDashboard.OnSuccess | dashboard.js:32-33 | the success continuation stores the report and clears loading, leaving the error cell as it was |
| Dashboard.CookbookSalesDashboard.OnFailure | dashboard.js:39-40 | the failure continuation stores the message and clears loading, leaving the data cell as it was |
| Dashboard.CookbookSalesDashboard.Settle | dashboard.js:20-42 | running the continuations on an outcome leaves exactly the state `Settled` describes, with loading false |
| Dashboard.Mount | dashboard.js:15-52 | a mount first shows the loading notice and, once the fetch settles, the screen its outcome calls for, which is never the loading notice again |

## Left out

- The network request, the HTTP response object and JSON parsing (dashboard.js:22-29) are I/O. Their outcome enters as a `FetchOutcome` value. A body that parses to something other than a report (for instance `null`, or a document missing fields) is not modelled: the report datatype always has every field.
- The write of `lastUpdated` into the page (dashboard.js:35) is modelled only by its outcome, the `labelWrite` parameter. The page element itself is not modelled.
- The root element lookup, `ReactDOM.render`, and the error banner appended to the page body (dashboard.js:221-235) are side effects on the host page.
- The chart and layout markup built with Recharts (dashboard.js:4-10, 107-215) is left out: sizes, margins, axes, legends, class names and the summary card titles. The model keeps only the data handed to the charts and the formatted figures.
- The three percentage figures (dashboard.js:89-91) and the pie slice percentage label (dashboard.js:157) are left out. They use floating-point division and `toFixed(1)`, and a zero `totalSales` divides by zero unguarded.
- `formatNumber` on negative, fractional or exponent-notation numbers is left out. The dashboard applies it only to whole counts, so the model takes natural numbers.
- NumberFormat.DecimalDigits: counts above `Number.MAX_SAFE_INTEGER` (2^53 − 1) are taken as exact naturals. In JavaScript such a count is rounded when the JSON is parsed, and `toString` prints the shortest digits that round back to it, padded with zeros, so from there on the model's digits can differ from the page's.
- Console logging and the outer try/catch (dashboard.js:2, 10, 14, 21, 24, 31, 38, 54, 105, 218, 229-230) are diagnostics only.
- React's scheduling is left out: state updates are applied in the order the continuations issue them, and the effect runs once per mount.
- Dashboard.CookbookSalesDashboard.Settle: does not model a component unmounted before the fetch settles; the continuations always run against the live cells.
