# Saudi StockBot chat client, modelled in Dafny

This project models the core of the Saudi StockBot web client: the chat page, the chart
component and the API configuration module.

- **Chat page.** It keeps a message log and a busy flag. It holds an optional chart context
  attached to the next question, and a side panel showing the latest chart.
- **Sending a question.**
  - The page posts the conversation, minus its "Analyzing your request..." placeholders, to
    the chat endpoint, together with the attached context.
  - It resolves a ticker from the question, by looking for company names and Tadawul codes.
  - When the answer arrives, it replaces the placeholders with that answer.
  - The chart panel opens when the reply carries one.
- **Stock clicks.** Clicking a top mover loads its price history from the dashboard chart
  endpoint. The company card's button does the same by Tadawul id.
- **Chart component.**
  - It picks the payload out of a reply and tells a company snapshot from a price series.
  - It normalises every series point, adding the display date, the full date, the change and
    the change percentage.
  - It computes the summary figures: the overall change, high, low and volume.
  - It decides what is rendered, which may be a render that throws a TypeError.
  - It builds the context that "Ask about this chart" sends back to the page.
- **API configuration.** It holds the endpoint table and the base URL. `buildApiUrl` appends
  an `application/x-www-form-urlencoded` query string, as `URLSearchParams` writes it
  (section 5.2 of the WHATWG URL Standard, over UTF-8).

Modules:
- `Wrappers` holds `Option`.
- `JsValue` models JavaScript values:
  - numbers with NaN and the infinities;
  - objects as property lists in enumeration order;
  - truthiness, `||`, property reads and spread-then-assign;
  - the IEEE cases of `-`, `*`, `/`, `Math.max` and `Math.min`.
- `UrlEncoding` holds UTF-8 and the urlencoded serializer and parser, with a proved round trip.
- `ApiConfig` models `API_CONFIG` and `buildApiUrl`. `buildApiUrl` is a loop over the
  parameters, proved against `Serialize`.
- `DynamicChart` models the chart component, as pure functions of the reply.
- `ChatPage` models the page. Its state is the class `ChatSession`, with one field per piece
  of React state the core uses.

An awaited request becomes two methods:
- the `Begin…` method does the work before the `await`, and returns the request;
- the `Complete…` method does the rest. Its parameter is the outcome of the request (a
  delivered reply, or a failure).

Message ids come from a counter `nextId` instead of `Date.now()`. `Valid()` states that ids
increase along the log. Every handler keeps it.

Some properties of the code the model makes explicit:
- **Object enumeration order.** `Object.entries` enumerates integer-like keys first, in
  ascending order. So the symbol table is searched for "1120", "2010", "2222", "2280" and
  "7010" before any company name. Any message containing "1120" resolves to Al Rajhi Bank,
  even "sabic 1120" (`ChatPage.CodeBeforeName`).
- **Stock clicks are not guarded by the busy flag, and end by clearing it.** A stock click
  during a chat send therefore leaves the page idle, with the send's placeholder still in the
  log. A second question is then accepted, and the log holds two placeholders at once
  (`ChatPage.SendThenStockClick`, `ChatPage.StockClickDuringSend`). No stock click can
  happen while the chat handlers run alone, so `Settled()` holds there: no placeholder is in
  the log while the page is idle. The chat handlers keep `Settled()`; the stock-click
  completions do not promise it.
- **A zero opening price is not guarded.** The change percentage of a point is then an
  infinity with the sign of the change, or NaN (`DynamicChart.PercentFigures`). A summary
  percentage of NaN falls back to 0.
- **A single point has no earlier close.** With one point, the overall change is NaN and only
  its percentage falls back to 0 (`DynamicChart.SummaryOfOnePoint`).
- **The context is detached only after a delivered reply.** A failed post keeps it attached
  for the next question (`ChatPage.ChatSession.CompleteSend`).

## Model

| member | source | states |
|---|---|---|
| JsValue.LookupMissing | frontend/components/dynamic-chart.tsx:76 | reading a property an object does not have yields `undefined` |
| JsValue.Put | frontend/components/dynamic-chart.tsx:87-96 | after `{...o, k: v}` the key `k` reads `v` and every other key reads what it read in `o` |
| JsValue.PutKeys | frontend/components/dynamic-chart.tsx:87-96 | assigning an existing key keeps the key order; a new key is appended last |
| JsValue.Or | frontend/components/dynamic-chart.tsx:76 | `a \|\| b` is `a` when `a` is truthy and `b` otherwise |
| JsValue.Sub | frontend/components/dynamic-chart.tsx:94 | the difference of finite numbers is exact; NaN in either operand gives NaN |
| JsValue.Mul | frontend/components/dynamic-chart.tsx:95 | the product of finite numbers is exact; NaN in either operand gives NaN |
| JsValue.Div | frontend/components/dynamic-chart.tsx:95 | exact quotient for a non-zero finite divisor; a positive or negative finite number over zero is +Infinity or -Infinity; 0/0 and any NaN operand give NaN |
| JsValue.Max | frontend/components/dynamic-chart.tsx:500 | `Math.max(a, b)` is NaN if either is NaN, else one of the two and no smaller than either |
| JsValue.Min | frontend/components/dynamic-chart.tsx:505 | `Math.min(a, b)` is NaN if either is NaN, else one of the two and no larger than either |
| UrlEncoding.CharUtf8 | frontend/lib/api-config.ts:20 | a scalar value takes one to four UTF-8 bytes, one byte exactly when it is ASCII, and that byte is its code |
| UrlEncoding.Utf8RoundTrip | frontend/lib/api-config.ts:18-22 | UTF-8 decoding gives back every encoded string |
| UrlEncoding.EncodeBytes | frontend/lib/api-config.ts:20 | an encoded name or value holds only unreserved bytes, `+` and `%` |
| UrlEncoding.EncodedAvoids | frontend/lib/api-config.ts:20 | an encoded name or value never contains a byte outside that set, so never `&` or `=` |
| UrlEncoding.PercentRoundTrip | frontend/lib/api-config.ts:20 | turning `+` into space then percent-decoding inverts the byte encoding |
| UrlEncoding.ComponentRoundTrip | frontend/lib/api-config.ts:20 | decoding an encoded name or value gives it back |
| UrlEncoding.SerializedAscii | frontend/lib/api-config.ts:22 | the serialized query string is ASCII |
| UrlEncoding.Serialize | frontend/lib/api-config.ts:22 | the query string is ASCII, so its UTF-8 bytes are exactly the serialized bytes; it is empty exactly when there are no entries |
| UrlEncoding.SplitOn | frontend/lib/api-config.ts:22 | splitting on a separator gives one piece more than there are separators (the pieces' contents are fixed by `ParseSerializedBytes`) |
| UrlEncoding.Parse | frontend/lib/api-config.ts:18-22 | an empty query has no entries; a query never gives more entries than it has `&`-separated pieces (what the entries are is fixed by `ParseSerialize`) |
| UrlEncoding.ParseSerializedBytes | frontend/lib/api-config.ts:19-22 | splitting the serialized bytes on `&` and parsing each `name=value` gives back the entries |
| UrlEncoding.ParseSerialize | frontend/lib/api-config.ts:18-22 | parsing `searchParams.toString()` gives back exactly the appended entries, in order |
| ApiConfig.Path | frontend/lib/api-config.ts:3-7 | every endpoint path lies under `/api/v1/` |
| ApiConfig.BaseUrl | frontend/lib/api-config.ts:2 | the build-time base URL when it is set and non-empty, else `http://localhost:8080`; never empty |
| ApiConfig.EndpointsRegistered | backend/internal/handler/routes.go:8-13 | every endpoint the client calls is a backend route for the HTTP method the client uses, and the three paths are distinct |
| ApiConfig.ValueString | frontend/lib/api-config.ts:20 | a text value is sent as it is; an integer's text is non-empty and starts with `-` exactly when the integer is negative |
| ApiConfig.DigitsRoundTrip | frontend/lib/api-config.ts:20 | the decimal text `String(n)` reads back as `n` |
| ApiConfig.IntValueInjective | frontend/lib/api-config.ts:20 | distinct integer parameters give distinct query values |
| ApiConfig.Entries | frontend/lib/api-config.ts:19-21 | one `[key, String(value)]` pair per parameter, in `Object.entries` order |
| ApiConfig.BuildApiUrl | frontend/lib/api-config.ts:11-26 | without parameters the URL is base followed by path; with parameters, a `?` and the serialized entries follow |
| ApiConfig.QueryHoldsEachEntryOnce | frontend/lib/api-config.ts:17-23 | the query of a URL built with parameters decodes to exactly one entry per parameter, in order |
| DynamicChart.Payload | frontend/components/dynamic-chart.tsx:76 | the payload is `stocks` when truthy, else `data` when truthy, else the reply's data object; always truthy |
| DynamicChart.CompanyInfo | frontend/components/dynamic-chart.tsx:99-105 | present exactly when the payload is a non-array object with a `companyID` property, and then it is that object |
| DynamicChart.NormalizeSeries | frontend/components/dynamic-chart.tsx:87-96 | the map throws exactly when some element is null or undefined; otherwise one normalised point per element, in order |
| DynamicChart.ProcessedData | frontend/components/dynamic-chart.tsx:75-97 | the series throws exactly for an array payload with a null or undefined element; an array payload that is not a snapshot gives its elements normalised; a non-empty series comes from such a payload, one point per element |
| DynamicChart.Classification | frontend/components/dynamic-chart.tsx:75-105 | a snapshot or a non-array payload gives an empty series; a snapshot is never an array; a non-empty series comes from an array that is not a snapshot; the series throws exactly for an array with a null or undefined element |
| DynamicChart.NormalizePoint | frontend/components/dynamic-chart.tsx:87-96 | `fullDate` is the point's `date`, `displayDate` its label, `change` is close minus open and `changePercent` is that change over open times 100 |
| DynamicChart.NormalizePointKeeps | frontend/components/dynamic-chart.tsx:88 | every property other than the four derived ones keeps its value |
| DynamicChart.PriceFieldsKept | frontend/components/dynamic-chart.tsx:88 | normalisation leaves `open`, `high`, `low`, `close` and `volume` as the reply sent them, whatever kind of value the element is |
| DynamicChart.NormalizePointKeys | frontend/components/dynamic-chart.tsx:87-96 | the point's own keys keep their positions; the derived fields come after them |
| DynamicChart.PercentFigures | frontend/components/dynamic-chart.tsx:95 | the percentage is exact for a non-zero base; over a zero base it is +Infinity for a rise, -Infinity for a fall and NaN for no change |
| DynamicChart.MaxAllIsMax | frontend/components/dynamic-chart.tsx:500 | `Math.max(...xs)` is NaN exactly when some element is NaN; otherwise it bounds every element from above and is one of them |
| DynamicChart.MinAllIsMin | frontend/components/dynamic-chart.tsx:505 | `Math.min(...xs)` is NaN exactly when some element is NaN; otherwise it bounds every element from below and is one of them |
| DynamicChart.Field | frontend/components/dynamic-chart.tsx:500-505 | `processedData.map((d) => d.k)` has one number per point, the i-th read from point i |
| DynamicChart.Summarize | frontend/components/dynamic-chart.tsx:255-258 | the overall percentage is never NaN, since `\|\| 0` replaces it; with one point the overall change is NaN |
| DynamicChart.SummaryLatest | frontend/components/dynamic-chart.tsx:461-510 | the latest close in the header, the latest open and the volume in millions are those of the series' last element as the reply sent it |
| DynamicChart.SummaryOfSeries | frontend/components/dynamic-chart.tsx:255-258 | with finite closes the overall change is the last close minus the one before; its percentage is exact when the earlier close is not zero, 0 when both are zero and infinite otherwise; the card shows a rise exactly when the last close is not lower |
| DynamicChart.SummaryOfOnePoint | frontend/components/dynamic-chart.tsx:255-258 | with a single point the overall change is NaN, its percentage is 0 and no rise is shown |
| DynamicChart.SummaryHigh | frontend/components/dynamic-chart.tsx:500 | the High figure is the largest `high` of the series and one of them, or NaN exactly when some `high` is not a number |
| DynamicChart.SummaryLow | frontend/components/dynamic-chart.tsx:505 | the Low figure is the smallest `low` of the series and one of them, or NaN exactly when some `low` is not a number |
| DynamicChart.ChartTitle | frontend/components/dynamic-chart.tsx:436-446 | "Stock Analysis" for an unsupported tag; otherwise the title starts with the company name, else the symbol, else "Stock" |
| DynamicChart.RenderCases | frontend/components/dynamic-chart.tsx:150-242 | a null or undefined series element makes the render throw; otherwise nothing is rendered exactly when there is no chart tag; the company card is shown exactly for a company search with a snapshot whose price, change and percentage are numbers, and shows that snapshot |
| DynamicChart.RenderNoData | frontend/components/dynamic-chart.tsx:244-253 | "No chart data" is shown exactly for a tagged reply whose payload is neither a snapshot under a company-search tag nor a non-empty array |
| DynamicChart.Render | frontend/components/dynamic-chart.tsx:449-512 | the series card is shown only for a tagged reply with a non-empty array payload; its points are that payload normalised, its title and chart kind those of the tag, and its figures the summary of those points |
| DynamicChart.RenderSeries | frontend/components/dynamic-chart.tsx:244-512 | conversely, a tagged reply whose payload is a non-empty array without null or undefined elements shows that series card when the last point's close and open can be formatted, and otherwise the render throws |
| DynamicChart.SeriesCardFigures | frontend/components/dynamic-chart.tsx:461-510 | the rendered card's latest close, latest open and volume figure are those of the payload's last element as the reply sent it |
| DynamicChart.PointContext | frontend/components/dynamic-chart.tsx:131-138 | a point's context has exactly the keys date, open, high, low, close, volume, in that order |
| DynamicChart.AskAboutChart | frontend/components/dynamic-chart.tsx:107-148 | nothing happens without a callback; otherwise the context is an object with exactly the keys `chart` and `stocks`; when the reply is neither a company search with a snapshot nor a detailed chart with points (a detailed tag with an empty series included), it is the reply's own tag and payload |
| DynamicChart.SnapshotContextFields | frontend/components/dynamic-chart.tsx:111-127 | a snapshot context is tagged as a company search, and its stocks object has exactly the eleven listed fields, each copied unchanged from the snapshot |
| DynamicChart.PointContextOfNormalized | frontend/components/dynamic-chart.tsx:131-138 | the context of a normalised point is the original point cut down to the six fields, with the original `date` and no derived field |
| DynamicChart.SeriesContextFields | frontend/components/dynamic-chart.tsx:128-139 | a detailed chart with points sends one context point per payload element, each the element cut down to its six fields |
| DynamicChart.SeriesContextRoundTrip | frontend/components/dynamic-chart.tsx:128-139 | a series context read back as a reply normalises without throwing, and asking about it again gives the same context |
| DynamicChart.SnapshotContextRoundTrip | frontend/components/dynamic-chart.tsx:111-127 | a snapshot context read back as a reply is still a snapshot with an empty series, and asking about it again gives the same context |
| ChatPage.FallbackHasNoChart | frontend/app/chat/page.tsx:327-333 | the fallback reply answers with the fixed apology, flags no chart and opens no panel |
| ChatPage.TrimStart | frontend/app/chat/page.tsx:370 | the trimmed text is no longer than the input and is empty or starts with a character that is not white space |
| ChatPage.TrimEnd | frontend/app/chat/page.tsx:370 | the trimmed text is no longer than the input and is empty or ends with a character that is not white space |
| ChatPage.TrimStartShape | frontend/app/chat/page.tsx:370 | trimming the start leaves a suffix of the input and removes only white space |
| ChatPage.TrimEndShape | frontend/app/chat/page.tsx:370 | trimming the end leaves a prefix of the input and removes only white space |
| ChatPage.BlankIffAllWhitespace | frontend/app/chat/page.tsx:370 | input is refused as blank exactly when every character of it is white space or a line terminator |
| ChatPage.WithoutLoadingMembers | frontend/app/chat/page.tsx:399 | filtering leaves no placeholder and keeps exactly the messages that are not placeholders |
| ChatPage.HistoryOfSend | frontend/app/chat/page.tsx:307-316 | the history posted after a send is the earlier history followed by the user's text; the new placeholder is not sent |
| ChatPage.SendLeavesOneReply | frontend/app/chat/page.tsx:398-409 | when the log had no placeholder before a send, its completion leaves the log with the user's message and the reply appended |
| ChatPage.CompanyName | frontend/app/chat/page.tsx:362 | a ticker without a company name falls back to the ticker itself |
| ChatPage.EveryTickerNamed | frontend/app/chat/page.tsx:338-357 | every ticker in the symbol table has a non-empty company name, so that fallback never applies |
| ChatPage.LowerChar | frontend/app/chat/page.tsx:359 | an ASCII capital becomes the character 32 code points later, its small letter; the Kelvin sign becomes `k`; every other character stays |
| ChatPage.Lower | frontend/app/chat/page.tsx:359 | the lower-cased message is never shorter than the message |
| ChatPage.LowerAppend | frontend/app/chat/page.tsx:359 | lower-casing distributes over concatenation |
| ChatPage.LowerPointwise | frontend/app/chat/page.tsx:359 | without a dotted capital I, lower-casing keeps the length and maps each character on its own |
| ChatPage.DottedCapitalIResolves | frontend/app/chat/page.tsx:359-364 | "RAJH" followed by a dotted capital I lower-cases to text containing `rajhi` and resolves to Al Rajhi Bank |
| ChatPage.IncludesIff | frontend/app/chat/page.tsx:361 | `includes` is true exactly when the key occurs at some position of the message |
| ChatPage.FirstMatchIsFirst | frontend/app/chat/page.tsx:360-364 | the match found is the first key in enumeration order that occurs; there is none exactly when no key occurs |
| ChatPage.ResolveSymbol | frontend/app/chat/page.tsx:337-367 | an empty ticker comes with an empty company name; a non-empty ticker is one of the named companies' tickers and comes with that company's name |
| ChatPage.ResolveSymbolFirstHit | frontend/app/chat/page.tsx:337-367 | the resolved ticker is that of the first occurring key, with its company name; two empty strings exactly when no key occurs |
| ChatPage.ResolvesToFirstHit | frontend/app/chat/page.tsx:360-364 | conversely, a message whose first occurring key is entry `i` resolves to that entry's ticker and name |
| ChatPage.CodeBeforeName | frontend/app/chat/page.tsx:338-349 | a message containing "1120" resolves to Al Rajhi Bank whatever company it names |
| ChatPage.ExtractSymbolFromMessage | frontend/app/chat/page.tsx:337-367 | the loop over the symbol table returns the resolution above |
| ChatPage.Movers | frontend/app/chat/page.tsx:441-446 | a stock is among the gainers (losers) exactly when it is in the dashboard data and its gain is positive (negative) |
| ChatPage.MoversAppend | frontend/app/chat/page.tsx:442 | filtering a concatenation is the concatenation of the filtered parts, so the movers keep dashboard order |
| ChatPage.Take | frontend/app/chat/page.tsx:442 | `slice(0, n)` keeps the first `min(n, length)` elements |
| ChatPage.Gainers | frontend/app/chat/page.tsx:441-443 | the first five stocks with a positive gain, in dashboard order (all of them when fewer), each a stock of the data; none when the data is not an array |
| ChatPage.Losers | frontend/app/chat/page.tsx:444-446 | the first five stocks with a negative gain, in dashboard order (all of them when fewer), each a stock of the data; none when the data is not an array |
| ChatPage.TopMovers | frontend/app/chat/page.tsx:441-447 | at most five stocks, none when the data is not an array, and each one a stock of the dashboard data that moved |
| ChatPage.TopMoversShape | frontend/app/chat/page.tsx:441-447 | the top movers are the first (up to) three gainers followed by the first (up to) two losers, at most five; none when the data is not an array |
| ChatPage.TopMoversSigns | frontend/app/chat/page.tsx:441-447 | the first part of the top movers gained, the rest lost; an unmoved stock is never shown |
| ChatPage.AttachmentInfo | frontend/app/chat/page.tsx:449-472 | there is no attachment bar exactly when no context is attached |
| ChatPage.AttachmentOfSnapshotContext | frontend/app/chat/page.tsx:452-457 | a company context shows the company's name (or "Company Data"), its acronym and its sector |
| ChatPage.AttachmentOfSeriesContext | frontend/app/chat/page.tsx:458-464 | a price-history context shows one data point per point of the series |
| ChatPage.ChartPoints | frontend/app/chat/page.tsx:191-199 | an array body gives its elements; an object body whose `data` is an array gives that array's elements; any other body fails the load |
| ChatPage.ReplyOf | frontend/app/chat/page.tsx:305-334 | a delivered reply is passed on as it is; a failed post yields the fixed apology with no chart tag, so no panel opens |
| ChatPage.ChartReplyShows | frontend/app/chat/page.tsx:201-213 | the reply made up for loaded points opens the panel on a detailed price chart of exactly those points |
| ChatPage.ReplyKeepsLog | frontend/app/chat/page.tsx:398-409 | replacing the placeholders by a reply with the next id keeps the ids increasing and leaves no placeholder |
| ChatPage.SendKeepsLog | frontend/app/chat/page.tsx:372-388 | appending the user's message and the placeholder with the next two ids keeps the ids increasing |
| ChatPage.SendThenStockClick | frontend/app/chat/page.tsx:186-236 | a failed stock click during a send leaves the page idle with the send's placeholder still in the log |
| ChatPage.StockClickDuringSend | frontend/app/chat/page.tsx:369-391 | a second question is then accepted and the log holds two placeholders |
| ChatPage.ChatSession.constructor | frontend/app/chat/page.tsx:96-134 | the page starts with only the welcome message, empty input, not busy, no context, no chart |
| ChatPage.ChatSession.SetInput | frontend/app/chat/page.tsx:609 | typing changes the input and nothing else |
| ChatPage.ChatSession.BeginSend | frontend/app/chat/page.tsx:369-396 | blank input or a busy page changes nothing; otherwise the user's message and one placeholder are appended, the input is cleared, the page is busy, and the request holds the history without placeholders and the attached context |
| ChatPage.ChatSession.CompleteSend | frontend/app/chat/page.tsx:305-431 | every placeholder is removed and one assistant message with the answer (or the fallback) is appended; a delivered reply detaches the context; a reply with a chart tag and stocks opens the panel on it under the ticker resolved at send time; the page is idle and settled |
| ChatPage.ChatSession.AttachContext | frontend/app/chat/page.tsx:288-299 | the context replaces any attached one, the panel closes and the attach prompt is appended |
| ChatPage.ChatSession.CancelAttachment | frontend/app/chat/page.tsx:301-303 | the context is detached and nothing else changes |
| ChatPage.ChatSession.ClearConversation | frontend/app/chat/page.tsx:434-439 | back to the welcome message with no chart and no context; the busy flag and the input are kept |
| ChatPage.ChatSession.CloseChart | frontend/app/chat/page.tsx:659 | the panel closes and nothing else changes |
| ChatPage.ChatSession.BeginStockClick | frontend/app/chat/page.tsx:186-189 | the page is busy and the chart endpoint is asked for the stock's company id, whether or not a request is in flight |
| ChatPage.ChatSession.CompleteStockClick | frontend/app/chat/page.tsx:191-235 | an array of points opens the panel on them under the stock's acronym and name and appends the answer with price and gain; anything else appends the error message; the page is idle either way |
| ChatPage.ChatSession.BeginDetailedChart | frontend/app/chat/page.tsx:238-241 | the page is busy and the chart endpoint is asked for the Tadawul id |
| ChatPage.ChatSession.CompleteDetailedChart | frontend/app/chat/page.tsx:243-285 | like a stock click with the fixed answer or error text, keeping the ticker and company name shown |

## Left out

- Fetching:
  - `apiClient.post` and `apiClient.get` (frontend/lib/api-config.ts:28-83) are not modelled:
    the `fetch`, the abort after `TIMEOUT`, the HTTP status check and the JSON parsing.
  - A request is a `GetRequest` or `ChatRequest` value.
  - Its result is an outcome parameter of the completion method: a parsed body or a failure.
  - `ApiConfig.BuildApiUrl` turns a `GetRequest` into its URL.
- React's scheduling is not modelled:
  - state updates are applied at once;
  - the effects (focus, scrolling, the `/` shortcut) and the mounted flag are left out.
- `loadDashboardData` is not modelled. The dashboard rows are a parameter of `TopMovers`, as
  `None` when the data is not an array.
- Message ids and times:
  - Ids are a counter instead of `Date.now()` values.
  - Timestamps and their locale formatting are left out.
- Number and date text:
  - `toFixed(2)` and `String(number)` in the stock-click answer are a `NumberFormat`
    parameter.
  - The date label of a point is a `dateLabel` parameter.
- JSX layout, Recharts drawing, tooltips and axis formatters are not modelled. What is
  modelled is which view is rendered, and whether the render throws.
- The sidebar's sector and watch-list data are left out, as are the market flag and the mobile
  menu: they are fixed display data.
- The other pages and components are not part of this model.
- The `catch` of `handleSendMessage` (frontend/app/chat/page.tsx:417-428) is left out. It runs
  only when reading `response.data` throws, and the model's replies always have a `data`
  object.
- The order of integer-like keys inside a point object is not modelled. `{...item}` would
  enumerate such keys first; chart points have none.
- JsValue.ToNumber: text, arrays and objects become NaN instead of being parsed, since the
  backend sends prices as JSON numbers.
- JsValue.Sub: negative zero and floating-point rounding are not modelled; numbers are exact
  reals.
- ChatPage.LowerChar: non-ASCII characters other than the Kelvin sign are kept, where
  `toLowerCase` maps many of them to other non-ASCII characters. Each of these stays one
  non-ASCII character either way, and the symbol table's keys are ASCII, so whether a key occurs
  is the same. The dotted capital I, which becomes two characters, is modelled (`ChatPage.Lower`).
- ApiConfig.ValueString: only text and integer parameter values are modelled. Integers of
  10^21 or more, which JavaScript prints in exponent form, are left out.
- UrlEncoding.Parse: on malformed UTF-8 it gives `None` instead of inserting U+FFFD. That case
  never arises for a query the client built.
- ChatPage.AttachmentInfo: the subtitle text (`acronym • sector`, `N data points`) is given as
  its parts, not as the interpolated string.
- ChatPage.ChatSession.BeginDetailedChart: the company card passes `tadawulID`, which the
  model takes to hold a string, so the parameter is always text.
