# Property Insights dashboard — a Dafny model of its state logic

The dashboard is a single React component (`src/App.jsx`). It loads the list of rental-property
records and the server's aggregate analytics, derives an analytics summary from them, and renders
four statistic cards, a rent-trend line chart, a property-type pie chart and a table of the
records. This project models the logic in that component:

- **Property-type distribution** (`calculatePropertyTypes`): a reduce that counts records per
  `propertyType` in a dictionary and lists its entries as `{name, value}` pairs in first-seen
  order. Module `Distribution` gives a reference definition (`Count`, `FirstSeen`, `Tally`,
  `PropertyTypes`) and the imperative method `CalculatePropertyTypes`. That method fills a map
  and a key order in one loop and then lists the entries. It is proved equal to the reference.
  Lemmas prove that the counts add up to the number of records, that each distinct type appears
  once with its count (at least one), and that entries are ordered by first appearance.
- **Analytics summary** (the object built in `fetchData`): module `Analytics`. It models
  JavaScript's `||` fallbacks, under which a missing value and a zero both fall back. It models
  `v?.toFixed(1) || '0'`, under which only a missing value gives "0": a present zero gives
  "0.0". The rent trend has five fixed months and a live June.
- **Row and slice rules**: module `Rendering`. It covers the score badge tier (85 / 75
  thresholds) and its colours, the Occupied/Available status (`occupancy === 100`) and the pie
  colour `COLORS[index % 4]`.
- **Load cycle**: module `Dashboard`, class `App` with the fields `properties`, `analytics` and
  `loading`. A cycle is `BeginFetch` (raise `loading`) followed by `FinishFetch` with the way
  the awaited requests ended. `View` says what is rendered: the spinner, nothing, or the
  dashboard.

The HTTP requests and body parsing are not modelled. A cycle's result is a
`FetchOutcome` parameter with three cases:

- a request or parse failure, which stores nothing;
- a failure while building the summary, after the records were already stored;
- success.

## Behaviour of the code worth noting

- The rent trend is five hard-coded rents (2400, 2450, 2500, 2600, 2700) and `averageRent || 2750`
  for June; only June depends on the server.
- A cycle is not atomic. `setProperties` runs before the summary is built. If building the
  summary throws (for example, the analytics body is `null`), the new records are shown beside
  the previous analytics (`FinishFetch`, `MountThenRefresh`).
- A failed cycle leaves the previous page on screen with no sign of failure. If the first cycle
  fails, the screen stays blank with no Refresh button (`Mount`).

## Model

| member | source | states |
|---|---|---|
| Distribution.Count | src/App.jsx:50-53 | the per-type count never exceeds the number of records and is positive exactly when some record has that type |
| Distribution.FirstSeen | src/App.jsx:50-54 | the dictionary's key order lists each type that occurs among the records exactly once, and no other |
| Distribution.Tally | src/App.jsx:54 | listing the entries pairs each key, in key order, with its count |
| Distribution.Lookup | src/App.jsx:51 | `acc[type] \|\| 0` is the stored count when the key is present and 0 when it is missing; the falsy fallback never changes a stored value |
| Distribution.CalculatePropertyTypes | src/App.jsx:49-55 | the in-place reduce over the records (increment `acc[type] \|\| 0`, append new keys) followed by `Object.entries(...).map` yields exactly the reference distribution |
| Distribution.TotalIsRecordCount | src/App.jsx:49-55 | the values of the distribution add up to the number of records |
| Distribution.EntriesAreTypeCounts | src/App.jsx:50-54 | names in the distribution are distinct; a type has an entry iff some record has it; each value is that type's record count and at least 1 |
| Distribution.OrderedByFirstAppearance | src/App.jsx:50-54 | entries are strictly ordered by the position of the first record of their type |
| Distribution.ApartmentHouseApartment | src/App.jsx:49-55 | Apartment, House, Apartment gives [(Apartment, 2), (House, 1)] |
| Records.OrElse | src/App.jsx:26 | `v \|\| d` on an optional number keeps a present non-zero value and gives the fallback for a missing value or zero |
| Analytics.FixedOrZero | src/App.jsx:27-28 | `v?.toFixed(1) \|\| '0'` is the literal "0" exactly when the value is missing, and the one-decimal text of the value otherwise |
| Analytics.RentTrends | src/App.jsx:30-37 | the series has six points labelled Jan to Jun; Jan to May carry the five fixed rents; June is either the server's average rent or 2750 |
| Analytics.Transform | src/App.jsx:25-39 | each total is 0 or the server's value; each average is "0" exactly when the server left it out; the distribution given is stored unchanged (`FinishFetch` passes the one computed from the records, line 38) |
| Analytics.JuneRent | src/App.jsx:36 | June is the server's average rent when present and non-zero, and 2750 when missing or zero |
| Analytics.TotalsFallBackToZero | src/App.jsx:26-29 | total revenue and total properties are the server's values when present, and 0 when missing |
| Analytics.EmptyAggregates | src/App.jsx:25-37 | an empty aggregates body gives totals 0, averages "0" and a June rent of 2750 |
| Analytics.DistributionFromRecords | src/App.jsx:38 | the distribution of a loaded summary adds up to the number of records, and a type has a slice iff some record has that type |
| Rendering.ScoreTier | src/App.jsx:179 | the badge is high iff score >= 85, medium iff 75 <= score < 85, low iff score < 75 (total and exclusive) |
| Rendering.TierMonotone | src/App.jsx:179 | a higher score never gets a lower badge |
| Rendering.BadgeColors | src/App.jsx:179 | each badge has one of the three light backgrounds and one of the three dark texts, and its background differs from its text |
| Rendering.BadgeColorsDistinguishTiers | src/App.jsx:179 | different tiers get different background and text colours |
| Rendering.OccupancyStatus | src/App.jsx:184-192 | the status is Occupied iff occupancy is exactly 100, Available otherwise |
| Rendering.OverFullShownAvailable | src/App.jsx:184 | the strict `=== 100` shows any over-full occupancy (above 100) as Available, while exactly 100 is Occupied |
| Rendering.SliceColor | src/App.jsx:146 | a slice's colour is always one of the four palette colours, and slice i < 4 gets palette colour i |
| Rendering.SliceColorsCycle | src/App.jsx:146 | slice colours repeat every four slices |
| Rendering.NearbySlicesDiffer | src/App.jsx:146 | slices fewer than four apart get different colours |
| Rendering.SmallDistributionColorsDistinct | src/App.jsx:144-147 | when the records have at most four types, two pie slices share a colour iff they belong to the same type |
| Dashboard.App.constructor | src/App.jsx:8-10 | the component starts with no records, no analytics, and loading |
| Dashboard.App.View | src/App.jsx:80-91 | the spinner iff loading; nothing iff not loading and there are no analytics; otherwise the page over the stored analytics and records |
| Dashboard.App.BeginFetch | src/App.jsx:13 | a cycle starts by raising the loading flag and changes nothing else |
| Dashboard.App.FinishFetch | src/App.jsx:14-46 | the flag is lowered on every path; records are replaced unless a request failed; analytics are replaced only on full success, with the summary of the new aggregates and records |
| Dashboard.App.FetchData | src/App.jsx:12-47 | after any cycle, success or failure, loading is false; a failed request keeps records and analytics; only a full success replaces the analytics |
| Dashboard.Mount | src/App.jsx:57-59 | on mount the spinner shows, then the page after a successful first cycle, and a blank screen after any failed one |
| Dashboard.MountThenRefresh | src/App.jsx:105 | a refresh from the page: success shows the new page; a failed request keeps the old page; a failed summary shows new records with the old analytics |

## Left out

- Network I/O: `fetch`, `Promise.all`, `.json()` and the API URL (src/App.jsx:5, 15-21). A cycle's result is a `FetchOutcome` parameter.
- Overlapping cycles: there is no cancellation, and the last cycle to resolve wins. Each half of a cycle is its own method (`BeginFetch`, `FinishFetch`), so any interleaving is a sequence of calls. No lemma is stated about interleavings.
- Number formatting: `toFixed(1)` and `toLocaleString()` (src/App.jsx:27-28, 119). `Shown.OneDecimal` carries the number rather than its text.
- Logging: `console.error` in the catch path (src/App.jsx:44).
- Rendering: all JSX, the recharts charts, the lucide icons, the `StatCard` markup, inline styles, the spinner keyframes, and the static trend labels such as "+12% from last month" (src/App.jsx:61-208). Only the branch choice in `View`, the badge, status and slice-colour rules are modelled.
- `useEffect` wiring (src/App.jsx:57-59): `Mount` only constructs the component and runs one cycle.
- Untyped JSON: the model's records and aggregates are typed. A properties body that is not an array, a record without a `propertyType`, a non-numeric or `NaN` field, and a missing or `null` `performanceScore` are not modelled. A summary that throws for any of these reasons falls under `SummaryFailed`.
- Distribution.CalculatePropertyTypes: emits keys in first-seen order for every type name. JavaScript enumerates integer-like keys (such as "42") first, in ascending numeric order, so the model differs for such names.
- Distribution.PropertyTypes: counts a type named after an `Object.prototype` member from zero like any other. In the source, for "constructor" or "toString", `acc[type] || 0` reads the inherited function and concatenates text onto it. For "__proto__", the assignment goes to the prototype setter, which ignores a number, so that type is silently missing from the pie.
