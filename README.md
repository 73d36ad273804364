# disaster-map: the data-normalisation and view-state core, in Dafny

The disaster map shows two datasets on one map. The first is wildfire hotspots from a
heat-detection provider. The second is 24-hour rainfall readings from a rain-station
provider. The rainfall layer can be filtered by province. All the data logic sits in
the `HomePage` component of `app/page.tsx`. This project models that logic and proves
its properties:

- **Hotspot adapter** (`hotspots.dfy`). Each GeoJSON-like feature becomes a `Hotspot`.
  The `[longitude, latitude]` axes are swapped, and every property is defaulted with `??`.
- **Rain adapter** (`rain.dfy`). Each rainfall item becomes a `RainPoint`. Localised
  names are read with `?.th`, and `"-"` or `""` is the placeholder.
- **Facet and filter** (`facets.dfy`). The `provinces` facet is the distinct, non-empty
  provinces of the rain points, in first-occurrence order. `filteredRain` is the whole
  list for the sentinel `"ทั้งหมด"` and the exact-match sub-list for any other province.
- **View-state controller** (`page.dfy`). The class `HomePage` holds the component's
  state (`dataType`, `hotspots`, `rains`, `selectedProvince`, the API key). It also
  holds the effect's last dependency list. Its methods are the effect, `fetchData` and
  the two event handlers. `Shown` is the list given to the map.
- **Scenarios** (`scenarios.dfy`). Concrete provider replies, and client methods that
  drive the class through a sequence of handler calls.
- `json.dfy` holds the JavaScript semantics the adapters rely on: nullish values
  (`null` and `undefined` are both `None`), `??`, `?.`, `a[i]` past the end of an
  array, the outcome of a fetch, and `Array.prototype.map` with a callback that may
  throw (`Traverse`).

The modelling choices:

- A property read that throws (`undefined.map`, `item.station.tele_station_lat`
  without a `station`) is `Thrown`.
- The shared `catch` turns every throw into emptying both lists.
- A fetch is an input value. It is either `Failed` (a network error, or a body that
  is not JSON) or `Received(body)`. A JSON body that is not an object has no list
  under the expected key, so the `.map` that follows throws.
- The effect is given one reply for each provider and reads only the active kind's
  reply.
- Numbers are `real` values that are only copied.
- Some values are copied without a default: the hotspot coordinates, and the rain
  `id`, coordinates, `rain_24h` and `rainfall_datetime`. These stay `Option`s, because
  an absent value flows through as `undefined`.

Points where the code's behaviour is easy to misread:

- On a failed fetch the code empties **both** lists (app/page.tsx:101-102), not only
  the list of the failed kind.
- The code does not guarantee non-null coordinates. A short or `null` coordinate is
  copied through.
- An absent `village` becomes `""`, the same as an empty one.
- The sentinel is a plain string. A province actually named `"ทั้งหมด"` could not be
  selected on its own.
- The facet is an array in insertion order, not an unordered set.

Recomputing the facet on the same list gives the same result because `Provinces` is a
function. The lemmas cover the facet's content and order.

## Model

| member | source | states |
|---|---|---|
| Json.Traverse | app/page.tsx:63 | `xs.map(f)` with a throwing callback succeeds exactly when the callback succeeds on every element, and then yields one result per element, in order |
| Hotspots.MapFeature | app/page.tsx:63-79 | a feature maps without throwing exactly when `geometry.coordinates` and `properties` are objects |
| Hotspots.AdaptHotspots | app/page.tsx:62-79 | the hotspot reply yields a list exactly when the fetch succeeded, `features` is present and every feature is readable; the list then has one hotspot per feature, in order (length preserved) |
| Hotspots.AxisSwap | app/page.tsx:65-66 | every produced hotspot has `latitude == coordinates[1]` and `longitude == coordinates[0]` of the feature at the same position |
| Hotspots.HotspotDefaults | app/page.tsx:64-78 | a nullish text property becomes `""` and a nullish `frp` becomes 0; a present value, an empty string included, is copied unchanged |
| Hotspots.AdaptHotspotsRoundTrip | app/page.tsx:63-79 | the mapping is onto: every hotspot list is the result of some reply, the one listing the fully populated features of its hotspots (it is not one-to-one: a nullish property and its default map alike) |
| Rain.MapItem | app/page.tsx:84-96 | an item maps without throwing exactly when `station`, `geocode` and `agency` are objects |
| Rain.AdaptRain | app/page.tsx:83-96 | the rain reply yields a list exactly when the fetch succeeded, `data` is present and every item is readable; the list then has one point per item, in order (length preserved) |
| Rain.RainDefaults | app/page.tsx:85-95 | a missing station name or `th` gives `"-"`, a missing basin, `basin_name` or `th` gives `"-"`, a missing province, amphoe, tumbon or agency name gives `""`; present names and `id`, coordinates, `rain_24h`, `rainfall_datetime` are copied |
| Rain.AdaptRainRoundTrip | app/page.tsx:84-96 | the mapping is onto: every rain-point list is the result of some reply, the one listing the fully populated items of its points (it is not one-to-one: a nullish name and its placeholder map alike) |
| Facets.ProvincesDistinct | app/page.tsx:47 | the facet contains no duplicates |
| Facets.ProvincesNonEmpty | app/page.tsx:47 | the facet never contains the empty province (`filter(Boolean)`) |
| Facets.ProvincesSound | app/page.tsx:47 | every facet element is the province of some rain point |
| Facets.ProvincesComplete | app/page.tsx:47 | every non-empty province of a rain point is in the facet |
| Facets.ProvincesOrdered | app/page.tsx:47 | facet elements appear in the order in which their provinces first occur in the rain list |
| Facets.ProvincesOfSingleProvince | app/page.tsx:47 | the facet of a non-empty list of points that all share one non-empty province is that province alone |
| Facets.Where | app/page.tsx:111 | the filter never grows the list and keeps exactly the points whose province equals the selection |
| Facets.WhereAppend | app/page.tsx:111 | the filter preserves relative order: filtering a concatenation concatenates the filtered parts |
| Facets.WhereCounts | app/page.tsx:111 | every matching point is kept as many times as it occurs and every other point is dropped |
| Facets.WhereEmpty | app/page.tsx:111 | the filtered list is empty exactly when no point has the selected province |
| Facets.WhereWhole | app/page.tsx:111 | the filtered list is the whole list exactly when every point has the selected province |
| Facets.FilterRainLaws | app/page.tsx:109-111 | with the sentinel the filter returns the list unchanged; otherwise it is the exact-match sub-list, empty exactly when nothing matches and whole exactly when everything matches |
| Facets.FacetSelectsPoints | app/page.tsx:109-111 | choosing a province offered by the facet shows at least one point and only that province; a non-empty province not offered shows nothing |
| Page.AfterFetch | app/page.tsx:51-103 | after a fetch, a failure of the active adapter empties both lists; a success replaces only the active kind's list with the adapter's result; the other kind's list is either kept or emptied, never changed otherwise |
| Page.HomePage.constructor | app/page.tsx:41-45 | the initial state is the hotspot kind, empty lists, the sentinel province, the API key from the environment, and no effect run yet |
| Page.HomePage.Render | app/page.tsx:45 | a re-render re-reads the API key (the environment value, or `""` when it is absent or empty) and changes nothing else; the class invariant is kept |
| Page.HomePage.FetchData | app/page.tsx:50-104 | the new `(hotspots, rains)` is `AfterFetch` of the old lists and the active kind's reply; the kind, province and key are untouched; every stored point stays the mapping of a provider record at the same position |
| Page.HomePage.RunEffect | app/page.tsx:49-107 | the effect fetches exactly when `dataType` or `apiKey` differs from its last run, and then updates the lists as `AfterFetch`; otherwise the lists are unchanged; afterwards no effect is pending |
| Page.HomePage.SetDataType | app/page.tsx:126-138 | a data-type button changes only `dataType`: the province and both lists are kept, and so is the class invariant |
| Page.HomePage.SelectProvince | app/page.tsx:154 | selecting a province changes only `selectedProvince`, so it triggers no fetch, modifies no list and keeps the class invariant |
| Page.HomePage.ProvinceOptions | app/page.tsx:156-159 | the select offers the sentinel first, then every non-empty province of the stored rain points and nothing else, each once, in first-occurrence order |
| Page.HomePage.Shown | app/page.tsx:167-169 | the map gets `hotspots` for the hotspot kind and otherwise `filteredRain`: exactly the stored rain points of the selected province, or all of them for the sentinel |
| Scenarios.BangkokHotspot | app/page.tsx:63-79 | a feature `[100.5, 13.7]` with only `pv_tn` gives latitude 13.7, longitude 100.5, that province, `frp` 0 and empty confidence and id |
| Scenarios.SparseRainPoint | app/page.tsx:84-96 | a reading with `{}` name objects and a `null` basin gives the `"-"` placeholders, empty names and the copied rainfall |
| Scenarios.MissingGeocodeFailsWholeReply | app/page.tsx:84-103 | one reading without `geocode` fails the whole reply, even next to a well-formed reading |

## Left out

- The HTTP requests: URLs, headers, `res.json()` and the unchecked `res.ok`. A reply is
  an input value instead.
- `console.error`: logging only.
- The asynchronous interleaving of the effect. Each fetch is one atomic step. The
  stale-response race is therefore not modelled: a late reply for a kind the user has
  already left is still applied.
- The JSX layout and the CSS classes. The province `select` is rendered only for the
  flood kind; the handler itself does not check this, and neither does the model.
- `components/LeafletMap.tsx` and `components/ThailandMap.tsx` are not part of this
  model. They are rendering, styling and chart configuration.
- A `null` element inside `features` or `data`: such an element would throw. The model
  types elements as records.
- A `features` or `data` value that is not an array, and property values of an
  unexpected JSON type (a number where a string is expected). The model types both.
- Page.HomePage.Shown: for the flood kind its contract gives membership only. The
  order and the multiplicity follow from Facets.FilterRainLaws, Facets.WhereAppend and
  Facets.WhereCounts.
