# Timeline viewer core, modelled in Dafny

The timeline viewer (`app.js`) fetches one day of a device's movement
history and shows it in a browser: the trips' total distance and count as
text, and the trips' GeoJSON as red lines on a MapLibre map. This project
models the data handling between the fetched JSON and the map and DOM calls,
and proves what it does:

- **Drawing a feature collection** (`renderGeoJSON`). Empty input is
  guarded: the collection is absent, or has no `features` array, or that
  array is empty. For every LineString with more than one position the
  viewer derives a `start` Point on its first vertex and an `end` Point on
  its last. The labels are `from_label` and `to_label`, or 'start' and 'end'
  when those are missing or empty. The merged list (original features, then
  the derived points) is written to the `trip-lines` source, but only if that
  source exists. The view is then fitted to the bounding box. When no
  bounding box can be computed, the view is centred at zoom 11 on the middle
  vertex (index floor(n/2)) of the first LineString instead.
- **The trip summary** (`renderSummary`). The count is the length of `trips`
  when it is an array, otherwise 0. The total is a left fold over
  `distance_km`, where a missing or non-numeric distance counts as 0.
- **The map registry guard** (`ensureMap`). The map is created once. Its
  `load` handler adds the `trip-lines` source and the `trip-lines-layer` and
  `trip-points-layer` layers, each only when that id is absent. The registry
  is modelled as ordered sequences of sources and layers, so a duplicate id
  is something the model can express. The proofs show that no run of the
  handler, however often it is repeated, creates one.
- **Loading a timeline** (`loadTimeline`, once the response is parsed). A
  missing `trips` becomes `[]`. A missing `geojson` becomes the empty
  FeatureCollection.

`app.js` leaves the payload's `stays`, `visits` and `diary` untouched. Its
distance is the sum of the `distance_km` values the server provides. It adds
its source and layers once and afterwards only replaces the source's data.

The fallback centring does not apply the loop's guard. It takes the first
feature whose geometry type is `LineString`, whether or not it has usable
coordinates, and there are three outcomes:

- The line has no `coordinates` at all. Then `coords.length` raises an error
  out of the `catch` block. The model records `ok == false` and leaves the
  view unchanged.
- The coordinates are an empty array, or a value that is not an array. Then
  the middle index reads no position and `setCenter` receives `undefined`.
  Whether MapLibre rejects that call is decided outside `app.js`, so the
  parameter `setCenterRejectsUndefined` chooses. If it rejects the call, the
  outcome is `ok == false` with the view unchanged. If it accepts it, the
  placement stays and `setZoom(11)` still applies.
- The coordinates have a middle vertex. Then the view is centred on it at
  zoom 11.

Files: `wrappers.dfy` (Option), `geojson.dfy` (the simplified RFC 7946 values
of sections 3.1.1, 3.1.2, 3.1.4, 3.2 and 3.3), `render.dfy` (endpoint
derivation, merge, fallback centre), `summary.dfy`, `map_engine.dfy` (the map
engine as a registry and a view, and the `load` handler), `viewer.dfy` (the
module-level `map` variable, `renderGeoJSON`, `loadTimeline`).

## Model

| member | source | states |
|---|---|---|
| Render.IsEmptyInput | app.js:86 | the guard passes only a collection whose `features` is an array with at least one feature |
| Render.Qualifies | app.js:97 | a feature passes the loop's guard only when it is a LineString whose coordinates are an array with a first and a distinct last entry |
| Render.LabelOr | app.js:104-109 | a present, non-empty label is used as it is; an absent or empty one gives the fallback; with a non-empty fallback the label is never empty |
| Render.Endpoints | app.js:95-112 | every derived feature is a Point whose `kind` is `start` or `end` |
| Render.CollectEndpoints | app.js:95-112 | the `for`/`push` loop returns exactly the derived points of the feature list, in feature order |
| Render.EndpointsLength | app.js:96-111 | a line adds exactly two points when its geometry type is LineString and it has an array of more than one position; every other feature adds none (the derived list has length 2 × the number of such lines) |
| Render.EndpointsAt | app.js:98-110 | the qualifying line at index i yields, at position 2 × (qualifying lines before it), a `start` Point at `coords[0]` labelled `from_label` or 'start', followed directly by an `end` Point at `coords[coords.length-1]` labelled `to_label` or 'end' |
| Render.EndpointsInLineOrder | app.js:96-112 | the two points of an earlier line come before the points of any later line |
| Render.EndpointsFromLines | app.js:96-111 | every derived point is the start or end Point of some qualifying line: nothing else is pushed |
| Render.EndpointsAppend | app.js:96-112 | the points derived from a concatenation are those of each part, in order: each feature contributes on its own |
| Render.Merged | app.js:114-117 | the merged features are the original features, unchanged and in order, followed by the derived points; the length is \|features\| + 2 × (qualifying lines) |
| Render.FirstLineIndex | app.js:129 | `find` gives the first feature whose geometry type is LineString, or none when no feature has that type |
| Render.FallbackCentre | app.js:129-135 | the view is kept exactly when there is no LineString. Otherwise the first LineString decides. When it has an array of n ≥ 1 positions, the centre is the vertex at index floor(n/2). When it has no coordinates, the outcome is "no coordinates". When they are empty or not an array, the outcome is "no middle vertex" |
| Summary.Km | app.js:143 | a numeric `distance_km` is taken as it is; a missing or non-numeric one counts as 0 |
| Summary.SumKm | app.js:143 | the fold over an empty list, or over trips none of which carries a distance, is 0 |
| Summary.RenderSummary | app.js:140-143 | the count is `trips.length` for an array and 0 otherwise; a non-array or an empty array gives a total of 0 |
| Summary.SumKmAppend | app.js:142-143 | the fold over a concatenation is the sum of the folds over its parts |
| Summary.SumKmIgnoresMissing | app.js:143 | a trip whose `distance_km` is missing or not numeric adds 0: the total equals the total over the trips that carry a distance |
| Summary.SumKmNonNegative | app.js:142-143 | when no distance is negative, the total is not negative and is at least every single distance |
| MapModel.AddIfAbsent | app.js:41-46 | `if (!getSource(id)) addSource(...)` (and the same for layers): the ids afterwards are the old ids plus this id unless it was there, and the old entries keep their places |
| MapModel.LoadedSources | app.js:41-46 | after the handler's source step, `trip-lines` is registered and the old sources keep their places |
| MapModel.LoadedLayers | app.js:47-75 | after the handler's layer steps, `trip-lines-layer` and `trip-points-layer` are registered and the old layers keep their places |
| MapModel.WithData | app.js:88-90 | `setData` replaces only the data of the source with that id; it registers no id and removes none, and it does nothing when the source is absent |
| MapModel.AddIdIfAbsentOnce | app.js:41-46 | adding an id only when it is absent keeps the ids distinct, leaves that id present exactly once, keeps the earlier entries in place and adds no other id |
| MapModel.LoadedSourcesOnce | app.js:41-46 | after the `load` handler, `trip-lines` is registered exactly once, the sources stay distinct, the existing sources keep their places, and no other source id appears |
| MapModel.LoadedLayersOnce | app.js:47-75 | after the `load` handler, `trip-lines-layer` and `trip-points-layer` are each registered exactly once, the layers stay distinct, the existing layers keep their places, and no other layer id appears |
| MapModel.LoadIdempotent | app.js:39-76 | a second run of the `load` handler changes neither the sources nor the layers |
| MapModel.RepeatedLoads | app.js:39-76 | any positive number of runs of the `load` handler leaves the same registry as one run |
| MapModel.MapEngine.constructor | app.js:31-36 | a new map has no sources and no layers, and is centred on [139.70, 35.68] at zoom 9 |
| MapModel.MapEngine.HasSource | app.js:41 | `getSource(id)` is defined exactly when some registered source has that id |
| MapModel.MapEngine.HasLayer | app.js:48 | `getLayer(id)` is defined exactly when some registered layer has that id |
| MapModel.MapEngine.AddSource | app.js:42-45 | `addSource` appends a source to the registry |
| MapModel.MapEngine.AddLayer | app.js:49-59 | `addLayer` appends a layer to the registry |
| MapModel.MapEngine.AddSourceIfAbsent | app.js:41-46 | the guarded `addSource` leaves the registry that `AddIfAbsent` gives |
| MapModel.MapEngine.AddLayerIfAbsent | app.js:48-75 | the guarded `addLayer` leaves the registry that `AddIfAbsent` gives |
| MapModel.MapEngine.OnLoad | app.js:39-76 | the `load` handler leaves the sources and layers that the add-if-absent functions give, and it keeps the registry free of duplicates |
| MapModel.MapEngine.SetData | app.js:120 | `getSource(id).setData(data)` on the registry |
| MapModel.MapEngine.SetCenter | app.js:133 | `setCenter(p)` centres the view on p and keeps its zoom |
| MapModel.MapEngine.SetZoom | app.js:134 | `setZoom(z)` keeps the placement and sets zoom z |
| MapModel.MapEngine.FitBounds | app.js:126 | `fitBounds` leaves the view fitted to the given features, at the zoom the fit picks |
| Viewer.DefaultTrips | app.js:159 | `json.trips \|\| []`: a present value is kept; a missing one becomes the empty list |
| Viewer.DefaultGeoJson | app.js:162 | `json.geojson \|\| {...}`: a present value is kept; a missing one becomes an empty FeatureCollection, which the empty guard stops |
| Viewer.DrawnData | app.js:86-92 | empty input writes the empty collection to `trip-lines`; any other input writes the merged features |
| Viewer.FitView | app.js:123-136 | empty input leaves the view. Otherwise a computed bounding box fits the view to the merged features. Without one, the view is kept when no LineString exists, and centred at zoom 11 on the middle vertex when there is one. The call fails, leaving the view, when the first LineString has no coordinates. When it has no middle vertex, the call fails if `setCenter(undefined)` is rejected; otherwise only the zoom becomes 11 |
| Viewer.CentreOnUndefined | app.js:132-134 | `setCenter(undefined)` followed by `setZoom(11)`: it fails with the view unchanged when the call is rejected, and otherwise sets zoom 11 and keeps the placement |
| Viewer.Draw | app.js:84-136 | the layers do not change; `trip-lines` (when registered) receives the drawn data; the view and the outcome are those of `FitView` |
| Viewer.Viewer.constructor | app.js:25 | the script starts with no map |
| Viewer.Viewer.EnsureMap | app.js:27-36 | the first call creates a fresh map with an empty registry and the initial view; later calls return that same map and create nothing |
| Viewer.Viewer.RenderGeoJSON | app.js:82-137 | ensures the map, then draws. On a map whose `load` handler has not run, no source exists, so the data is dropped while the view still changes |
| Viewer.Viewer.LoadTimeline | app.js:158-162 | the summary is computed from `trips` (with the default), then the map draws `geojson` (with the default); a map is created only when none existed |
| Viewer.MissingFieldsDefault | app.js:159-162 | a payload without `trips` shows 0 trips and 0 km; one without `geojson` empties the `trip-lines` source and leaves the view as it was |

## Left out

- The HTTP request, the URL it is built from, the `res.ok` check and JSON parsing (app.js:150-157): network I/O. `loadTimeline` is modelled from the parsed payload on.
- DOM lookups, `textContent` writes and the `toFixed(2)` formatting (app.js:21-22, 145-146): presentation. `renderSummary` is modelled by the summary it would show.
- The MapLibre engine itself is not modelled: `addControl`, paint, layout, filters as rendering, tiles, and animation. Sources and layers are kept only as registry entries (an id, the source's data, a layer's source and kind). The view is kept only as a centre and zoom, or as "fitted to these features".
- `addSource`/`addLayer` in MapLibre throw on a duplicate id. The model appends instead, so that it can show the guards never produce one.
- `turf.bbox` and the extent it computes (app.js:125): a foreign library. The parameter `bboxSucceeds` chooses the branch of the try/catch, and the view records which features it was fitted to.
- The exception raised in the fallback (app.js:131-133) is modelled as `ok == false`. Its propagation to the caller's `.catch` is not modelled.
- Viewer.FitView: whether MapLibre's `setCenter(undefined)` throws is not decided by `app.js`. It is the parameter `setCenterRejectsUndefined`, and the model covers both answers.
- Coordinates that are neither missing nor an array (`NotAnArray`) are assumed to yield no position at the middle index. A string, whose characters JavaScript can index, is not modelled separately.
- A response body that parses to `null` makes `json.trips` throw before anything is drawn (app.js:159). `Payload` has no value for it, because it always holds the two fields, each possibly missing.
- The style loaded from the URL at app.js:33 brings sources and layers of its own. `MapEngine` starts with an empty registry. `LoadedSourcesOnce` and `LoadedLayersOnce` are stated for any registry without duplicate ids, so they cover a style's entries too.
- The `load` event's timing: the handler is modelled as a method (`MapEngine.OnLoad`) that a caller can run at any point and any number of times.
- Number semantics: distances are `real`, not IEEE-754 doubles. `Number(...) || 0` is reduced to "a numeric distance, or 0" (`Option<real>`), so coercion of strings and booleans is not modelled.
- Features that are `null` inside `features` are not modelled: the loop skips them, but `find` would throw on them. Property values are strings; non-string labels and their truthiness are not modelled.
- The `DOMContentLoaded` bootstrap, the default device and date, and the async ordering of concurrent loads (app.js:16-18, 169-175): event-loop concerns.
