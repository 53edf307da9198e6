# transport-for-nick in Dafny

A model of the logic of the transport-for-nick dashboard, a browser page
that shows live London bus and Tube departures for the stops near the user.
The model covers:

- the page's `state` record and its refresh cycle `fetchTransportData`
  (location, then discovery of nearby stops, then the arrivals of each stop,
  then the `finally` that ends the refresh);
- `render`, which picks one of four views: a spinner, an error display, a
  "nothing found" message, or the stop cards under an optional error banner;
- the shaping of the stop cards in `createStopCardsHTML`. This covers the
  in-place sort by distance, the grouping of metro arrivals by platform, the
  five-arrival truncation, the "N min" / "Due" label and `slugify`;
- the post-processing that the transit client (`services/tflService.js`)
  applies to the service's responses. This covers the `Towards` and
  `CompassPoint` properties, the nearest ten stops, arrivals sorted by time
  and the error policy of each endpoint.

The modules follow the program:

- `Common` holds `Option`, `Result` and the thrown value `Exception`. An
  `Exception` is an `Error` object with a message, or anything else.
- `Sorting` holds the two sorts the program relies on. The first is a
  stable sort by an integer key (`Array.prototype.sort` with `a.k - b.k`).
  The second is a sort by a comparator, used for the platform headings.
- `TflService` holds the transit client with its network and JSON I/O
  removed. A parsed response goes in, and what the client returns or throws
  comes out.
- `Render` holds the views as an algebraic datatype, not as HTML.
- `App` holds `getLocation`'s decision order, the pure specification of one
  cycle (`Begin`, `Steps`, `Settle`, `Cycle`) and the class `State`. Its
  methods update the four fields of the record phase by phase, as
  `fetchTransportData` does.

The awaited calls are inputs:

- the outcome of `getLocation`;
- `discover`, giving the parsed discovery response (or the exception
  raised) for a location;
- `arrivalsFor`, giving the parsed arrivals response (or the exception
  raised) for a stop id.

`Promise.all` over the stops is an order-preserving map (`WithArrivals`).
The numeric-aware `localeCompare` used to order platform headings is a
comparator parameter `platformLe`. The headings are proved to be in its
order whenever it relates every pair of names.

`render` sorts the state's own stop array in place (index.js:39), so
`State.Render` modifies `stopsWithArrivals`. The class invariant `Valid()`
states that the stops are in distance order after every render. That is why
a failed cycle leaves the shown stops exactly as they were, not merely
permuted.

`slugify` applies two replacements. The second one (`/ & /g` to `-and-`)
never changes anything: the first has already turned every space into a
dash. `Render.SlugifyShape` proves this.

A few consequences of the code that the model keeps:

- The refresh timer runs the whole cycle (index.js:250), so there is no
  refresh that updates only the arrivals.
- The API credentials are constants, so there is no missing-credential
  path.
- A bus card and a platform group show the first five arrivals in the
  order they are given. That order is ascending time to station, because
  `fetchArrivalsForStop` has already sorted them.
- `getLocation` consults the test-location checkbox before the `lat` and
  `lon` query parameters.

## Model

| member | source | states |
|---|---|---|
| Sorting.SortBy | services/tflService.js:36 | the result is sorted by the key, has the input's length and is a permutation (same multiset) of the input |
| Sorting.SortByStable | services/tflService.js:50 | the sort is stable: for every key value, the elements with that key appear in the same order as in the input |
| Sorting.SortBySortedIdentity | index.js:39 | sorting a list that is already in key order leaves it exactly as it is |
| Sorting.SortByIdempotent | index.js:39 | sorting twice gives the same list as sorting once |
| Sorting.SortByMapPermutation | index.js:38-40 | mapping the sorted list is a permutation of mapping the input |
| Sorting.MapKeyFilter | index.js:38-40 | when a map preserves the key, the elements of one key in the mapped list are the mapped elements of that key |
| Sorting.SortedPrefixNearest | services/tflService.js:36 | a prefix of a sorted list is sorted, is contained in the list, and no element left out is nearer than one kept |
| Sorting.SortWith | index.js:56 | the comparator sort has the input's length and is a permutation of it |
| Sorting.SortWithMembers | index.js:56 | a name is among the sorted names exactly when it is among the input names |
| Sorting.SortWithOrdered | index.js:56 | under a comparator that relates every pair, each name is ordered before the next |
| Sorting.SortWithDistinct | index.js:56 | sorting distinct names gives distinct names |
| TflService.FindProperty | services/tflService.js:26-27 | the lookup is absent exactly when no entry has the key |
| TflService.FindPropertyIsFirst | services/tflService.js:26-27 | a found value belongs to the first entry with the key |
| TflService.Enrich | services/tflService.js:24-32 | `towards` and `direction` are the `Towards` and `CompassPoint` values (a missing list counts as empty); every other field of the stop is unchanged |
| TflService.NearestStops | services/tflService.js:35-36 | exactly min(10, n) stops, sorted by distance, a prefix of the enriched stops sorted stably; they are drawn from the enriched input and no stop left out is nearer than one kept |
| TflService.FetchNearbyStops | services/tflService.js:14-36 | a non-OK response throws an Error with the service's message, or with 'Failed to fetch nearby stops' when that is missing or empty; a missing or empty `stopPoints` gives no stops; otherwise the nearest stops, at most 10 and sorted |
| TflService.FetchArrivalsForStop | services/tflService.js:43-50 | a non-OK response gives no arrivals instead of throwing; an OK one gives a permutation of the payload, sorted by time to station, with equal times in payload order |
| Render.ToLower | index.js:17 | lower-casing keeps the length and maps every character |
| Render.SkipRun | index.js:17 | dropping a leading run of non-slug characters leaves a suffix that starts with a slug character (or is empty), and keeps the letters and digits |
| Render.CollapseRuns | index.js:17 | the run replacement gives only letters, digits and dashes, never two dashes in a row, the letters and digits of the input in order, and a leading dash exactly when the input starts outside `[a-z0-9]` |
| Render.CollapseRunsOfRun | index.js:17 | a non-empty text with no character in `[a-z0-9]` becomes exactly one dash |
| Render.CollapseRunsSplit | index.js:17 | the replacement of a concatenation is the concatenation of the replacements whenever a letter or digit sits at the boundary; with the previous row and single letters and digits kept, this fixes the result: each maximal run, a trailing one included, becomes exactly one dash |
| Render.ReplaceAmpersandsWithoutSpaces | index.js:17 | the `/ & /g` replacement leaves a text without spaces unchanged |
| Render.Slugify | index.js:17 | a slug holds only lower-case letters, digits and dashes, never two dashes in a row, keeps the letters and digits of the lower-cased text in order, and is empty exactly when the text is |
| Render.SlugifyShape | index.js:17 | the `/ & /g` replacement never applies, so a slug is the collapsed lower-cased text |
| Render.TimeLabelOf | index.js:106-114 | "Due" exactly when fewer than 60 seconds remain, otherwise N min with N = floor(t / 60) |
| Render.MetroRowOf | index.js:65-79 | a metro row's class is `line-` followed by the slug of the line id; it shows the line name, the destination or 'Unknown Destination' when that is empty (so never an empty destination), and the time label: "Due" under 60 seconds, otherwise N min with N = floor(t / 60) |
| Render.BusRowOf | index.js:106-117 | a bus row shows the line name, the destination name and the time label: "Due" under 60 seconds, otherwise N min with N = floor(t / 60) |
| Render.FirstFive | index.js:64 | the first min(5, n) arrivals, in their order |
| Render.PlatformOf | index.js:47 | an arrival's bucket key is never empty: its platform name when that is not empty, 'Unknown Platform' otherwise |
| Render.InPlatform | index.js:46-53 | a bucket holds only arrivals of the input whose platform (or 'Unknown Platform') is its key |
| Render.InPlatformCount | index.js:46-53 | every arrival lands in the bucket of its own platform as often as it occurs in the input, and in no other bucket |
| Render.PlatformKeys | index.js:46-53 | no bucket key appears twice |
| Render.ArrivalHasKey | index.js:46-53 | every arrival's platform is a bucket key |
| Render.KeyHasBucket | index.js:46-53 | every bucket key has at least one arrival |
| Render.BucketsSnoc | index.js:48-51 | one step of the `reduce` creates the arrival's bucket when it is missing and appends the arrival to it |
| Render.GroupByPlatform | index.js:46-53 | the accumulator loop yields exactly the keys in order of first occurrence, and for each key the arrivals of that platform in input order |
| Render.PlatformGroupsRows | index.js:56-64 | one group per key; each heading is a key, each group shows the first five arrivals of its platform, and no group is empty |
| Render.PlatformGroupTitles | index.js:56 | the headings are the bucket keys sorted by the comparator |
| Render.PlatformTitlesDistinct | index.js:56 | no heading appears twice |
| Render.PlatformTitlesCover | index.js:46-56 | every arrival's platform has a heading |
| Render.PlatformTitlesOrdered | index.js:56 | the headings follow the comparator when it relates every pair |
| Render.Present | index.js:121-123 | an optional text is shown exactly when it is present and non-empty, and then unchanged |
| Render.CardOf | index.js:40-136 | a metro card exactly for 'NaptanMetroStation' stops, with platform groups; otherwise a bus card with the first five arrivals and the stop letter, direction and towards text each present exactly when the stop's field is a non-empty text; the disruption mark exactly when `status` is false; the name and distance of the stop |
| Render.StopCardsArrangement | index.js:36-39 | one card per stop, nearest first; the cards are a permutation of the stops' cards, and stops at equal distance keep their order |
| Render.StopCardsOfSorted | index.js:38-39 | the cards of stops already in distance order come out in that order |
| Render.TextDistinct | index.js:204-219 | the four loading texts (with the initial one of index.js:12) are pairwise different, so naming a message by its case loses nothing |
| Render.RenderView | index.js:142-161 | exactly one view, by priority: spinner with the loading message when no stops and refreshing; error only when no stops and a non-empty error; "nothing found" when no stops otherwise; with stops, the cards under the error banner if any |
| Render.RenderViewAfterSort | index.js:39 | rendering the list that `render` leaves behind gives the same view |
| App.GetLocation | index.js:165-194 | the checkbox wins, then the `lat`/`lon` parameters, then the device; it fails exactly when neither override is present and geolocation is missing or the device fails, always with a non-empty Error message |
| App.ErrorText | index.js:239 | an Error shows its own message; any other thrown value shows the fixed, non-empty 'An unknown error occurred.' |
| App.Discovered | index.js:212 | an exception from the discovery request propagates; a response goes through `fetchNearbyStops`, so a non-OK response fails and success gives at most 10 stops in distance order |
| App.DiscoveryOutcome | index.js:207-212 | a location failure propagates without discovery; a location success gives exactly the discovery's outcome; success gives at most 10 sorted stops |
| App.ArrivalsOrEmpty | index.js:224-230 | a failed fetch or a non-OK response gives no arrivals; an OK response gives its arrivals sorted by time to station, as a permutation, with arrivals of equal time in their response order |
| App.WithArrivals | index.js:222-232 | one entry per stop, in the same order, each carrying its stop and that stop's arrivals, which are empty when its fetch failed |
| App.WithArrivalsSorted | index.js:222-235 | attaching arrivals keeps the distance order |
| App.CycleOutcome | index.js:196-244 | after a cycle there is no refresh in progress and the stops are in distance order. A failed step keeps the stops and sets the error to the exception's message (or the unknown-error text). No stops found keeps the stops and clears the error only if stops were shown. Stops found replace the list, with their arrivals, and clear the error |
| App.CycleKeepsShownStops | index.js:214-217 | a failed cycle, or one finding no stops, leaves shown stops exactly as they were |
| App.NotOkCycleKeepsStops | index.js:212-239 | when the nearby-stops service answers non-OK, the cycle keeps the shown stops, ends not refreshing, and sets the error to the service's message, or 'Failed to fetch nearby stops' when that is missing or empty |
| App.FailedCycleShowsStaleStops | index.js:237-242 | a failed cycle over shown stops renders those stops' cards under the error banner |
| App.CycleIdempotent | index.js:196-244 | a second cycle against unchanged services changes nothing |
| App.ProgressMessagesShape | index.js:204-220 | a cycle sets one to three loading messages, locating first, finding once located, fetching exactly when stops were found, and it ends on the last one |
| App.State.constructor | index.js:9-14 | the initial record: no stops, refreshing, waiting for permission, no error |
| App.State.Render | index.js:142-161 | the view of the current state; the stops are sorted by distance in place |
| App.State.BeginCycle | index.js:197-201 | marks the refresh, clears the error only when stops are shown, renders |
| App.State.ShowProgress | index.js:204-205 | sets the loading message and renders a spinner only while no stops are shown |
| App.State.SettleSteps | index.js:214-235 | handles the discovery outcome as `Settle` states, rendering the fetching spinner only while no stops are shown |
| App.State.DiscoverSteps | index.js:209-235 | the steps after the location is known, as `Settle` states after the finding message |
| App.State.RunSteps | index.js:203-239 | the `try` block and its `catch`, as `Steps` states, with one spinner per message while no stops are shown |
| App.State.EndCycle | index.js:240-243 | clears the refresh flag and renders, leaving the rest of the record unchanged |
| App.State.FetchTransportData | index.js:196-244 | the new record is `Cycle` of the old one. The views rendered are the first render, a spinner per loading message while no stops were shown, and the final render |

## Left out

- Network and JSON I/O are left out: `fetch`, `response.json()`, URL building and the `APP_ID` / `APP_KEY` constants. A response body that fails to parse is one of the exceptions `discover` or `arrivalsFor` may return.
- The device geolocation call, `URLSearchParams` and `parseFloat` are not modelled. The `lat`/`lon` parameters arrive already parsed, present only when both are non-empty.
- `setInterval`, the checkbox listener and `init` are not modelled. Overlapping cycles are a concurrency concern outside a sequential model.
- The per-stop fetches of `Promise.all` run one after another in the model. Each stop's outcome is a function of its stop id, so two stops with the same id get the same outcome.
- The DOM write (`innerHTML`), the HTML and CSS text of the templates, and `console` logging are not modelled. Views are datatypes, and the loading messages are an enumeration with their texts in `Render.Text`.
- Distances and times to station are integers. Floating point, `Math.round(stop.distance)` and non-numeric keys (NaN) are not modelled.
- `localeCompare(…, { numeric: true })` is the parameter `platformLe`. Collation itself is a foreign library call.
- Render.ToLower: lower-cases ASCII letters only; `toLowerCase` on other characters is not modelled.
- Render.GroupByPlatform: the accumulator is a map plus the order of its keys. The order of `Object.keys` for integer-like platform names and the keys inherited from `Object.prototype` are not modelled.
- App.GetLocation: a device error is modelled by its message only.
- Exceptions other than `Error` objects are modelled only as "not an Error". They show the unknown-error text.
