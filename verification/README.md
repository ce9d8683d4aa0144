# Safe Swim Map — a Dafny model of its filter, map-binding and conversion logic

The application shows California surface-water test sites on a map. Each
site is coloured by its safety status and can be filtered by region and
status with checkboxes. This project models the logic behind that:

- **Feature filter** (`FeatureFilter`). The map component keeps those features
  of the loaded GeoJSON collection whose region and status are admitted by
  the `filters` property. An *absent* list admits everything. A *present*
  list admits only its members, so a present empty list admits nothing. A
  missing region or status is compared as `""`.
- **Map binding** (`MapSurface`). This is an abstract state machine for the
  map handle. The map is created only with a container and no existing map.
  Teardown clears the handle. A bind adds the `swim-locations` source and the
  `swim-points` circle layer the first time, and after that only swaps the
  source's data. A bind runs at once when the style is loaded; otherwise it
  is queued on `style.load`. The module also tracks the click-listener count
  and the `status` → colour match expression.
- **Click popup** (`Popup`). It picks the first feature under the click and
  ignores anything that is not a point. The longitude-unwrapping loop is
  modelled as a `while` loop over reals. It also covers the "Unknown
  Location" / "N/A" defaults and the empty-date guard of `formatDate`.
- **Filter panel** (`FilterSelection`). `handleRegionChange` and
  `handleStatusChange` are pure functions from (lists, name, checked) to
  (new lists, emitted selection). The checked state of each checkbox is
  derived from the lists.
- **Record conversion** (`ConvertToGeoJson`, `StationPattern`). This is the
  `records.filter(...).map(...)` transform of the conversion script. It
  covers the coordinate filter, the `[longitude, latitude]` order, the
  threshold classification of the result into a status, and the
  case-insensitive station-name regular expressions that assign a region,
  with Los Angeles taking precedence.
- **Composition** (`App`). The root starts with `{}`, i.e. both lists absent.
  The panel's emissions become the map's filters, and the converted file is
  what the map draws.

JavaScript values become `Option`s. A string property is `Option<string>`
(None for `null`/`undefined`) and is truthy when present and non-empty. A
number is `Option<real>`, with None standing for `NaN` (which JSON
serialisation turns into `null`). `parseFloat` is a parameter of the
converter.

Behaviour the model keeps as written:

- **Both lists on every emission.** The panel always emits both lists. The
  group the user has not touched therefore arrives as a present empty list
  and the collection filtered for that emission is empty.
  `App.FirstToggleHidesEverything` states this.
  So an empty list does not mean "show all"; it filters out every feature.
- **Click listeners before style load.** The click cleanup removes its
  listener only if the `swim-points` layer exists at that moment. If the
  filtered collection changes before the style has loaded, listeners pile
  up, and one click then opens several popups
  (`MapSurface.ListenersAccumulateBeforeStyleLoad`). A listener whose
  cleanup runs before the style has loaded is never removed. That is every
  listener added before the load except the last, so two collections before
  the load leave two listeners even after later data changes
  (`MapSurface.LeakedListenersOutliveStyleLoad`), while a single collection
  before the load leaks nothing
  (`MapSurface.LastEarlyListenerIsRemovedAfterStyleLoad`). Once the count is 1 after
  loading, each data change keeps it at 1
  (`MapSurface.DataChangedKeepsOneListener`).
- **Unparseable dates.** `formatDate` shows "N/A" only for an empty or
  missing string. `new Date(text)` does not throw on unparseable text, so
  the `catch` branch is never taken. Such a date goes to the locale
  formatter like any other string. So an unparseable date is not shown as
  "N/A".

## Model

| member | source | states |
|---|---|---|
| FeatureFilter.ApplyFilters | src/components/SafeSwimMap.tsx:24-39 | a feature is kept iff (region list absent or contains `region \|\| ""`) and (status list absent or contains `status \|\| ""`); each kept feature keeps its multiplicity, all others are dropped; the collection's type and other top-level members are unchanged |
| FeatureFilter.ApplyFiltersKeepsOrder | src/components/SafeSwimMap.tsx:24-30 | the kept features are an order-preserving subsequence of the input features |
| FeatureFilter.EmptyListExcludesEverything | src/components/SafeSwimMap.tsx:25-28 | a present but empty region or status list leaves no feature |
| FeatureFilter.MissingRegionComparedAsEmpty | src/components/SafeSwimMap.tsx:25-26 | a feature without a region passes a present region list only if that list contains "" |
| MapSurface.CircleColor | src/components/SafeSwimMap.tsx:93-103 | safe is green, caution yellow, unsafe red, and the colour is gray exactly when the status is missing or outside the vocabulary |
| MapSurface.ColoursDistinguishStatuses | src/components/SafeSwimMap.tsx:93-103 | two different statuses of the vocabulary never share a colour |
| MapSurface.Create | src/components/SafeSwimMap.tsx:46-64 | creation is a no-op without a container, with an existing map, or when the constructor throws; otherwise the new map has the fixed style, centre and zoom, no source, no layer and nothing waiting |
| MapSurface.Teardown | src/components/SafeSwimMap.tsx:65-68 | teardown leaves the handle null whether or not a map existed, keeps the container flag, and leaves a valid state |
| MapSurface.AddSourceAndLayer | src/components/SafeSwimMap.tsx:78-109 | afterwards the source holds the given data; when the source existed, the layers are untouched; on a consistent map the result is consistent and `swim-locations` is its only source |
| MapSurface.Bind | src/components/SafeSwimMap.tsx:73-116 | no map or no data: nothing happens; style loaded: the bind runs at once; otherwise the data is queued once on "style.load"; the map invariant is kept |
| MapSurface.RunBinds | src/components/SafeSwimMap.tsx:111-115 | running the queued binds in order leaves the source holding the last queued data and keeps the map invariant |
| MapSurface.StyleLoad | src/components/SafeSwimMap.tsx:111-115 | on "style.load" the style counts as loaded, the queue is emptied, and the source holds the data of the last bind that was deferred |
| MapSurface.AttachClick | src/components/SafeSwimMap.tsx:119-167 | with a map and data, one more click listener is registered and a cleanup is left behind; otherwise nothing is registered |
| MapSurface.DetachClick | src/components/SafeSwimMap.tsx:169-173 | the cleanup removes one listener only if the point layer exists, and is spent afterwards |
| MapSurface.RebindIsIdempotent | src/components/SafeSwimMap.tsx:78-115 | binding the same collection twice on a loaded style equals binding it once: one source holding it and one layer |
| MapSurface.AtMostOneSourceAndLayer | src/components/SafeSwimMap.tsx:79-107 | a consistent map has at most one source and at most one layer |
| MapSurface.DataChanged | src/components/SafeSwimMap.tsx:73-174 | on new data the click cleanup runs, then the bind effect, then the click effect: the listener count drops by one only if a cleanup was pending and the layer exists, and rises by one when there is data; the bind runs at once on a loaded style and is queued otherwise; the map invariant is kept |
| MapSurface.ApplyKeepsValid | src/components/SafeSwimMap.tsx:44-174 | mounting, unmounting, new data and style load each preserve the map invariant |
| MapSurface.ReplayKeepsValid | src/components/SafeSwimMap.tsx:44-174 | after any sequence of lifecycle events from mounting, the map invariant holds |
| MapSurface.ReplayFromValid | src/components/SafeSwimMap.tsx:44-174 | any sequence of lifecycle events preserves the map invariant |
| MapSurface.DataChangedKeepsOneListener | src/components/SafeSwimMap.tsx:119-174 | once the style is loaded, a data change keeps the listener count at 1 while a cleanup is pending and 0 otherwise |
| MapSurface.ListenersAccumulateBeforeStyleLoad | src/components/SafeSwimMap.tsx:111-173 | two collections arriving before "style.load" leave two click listeners |
| MapSurface.LeakedListenersOutliveStyleLoad | src/components/SafeSwimMap.tsx:111-173 | a listener leaked before "style.load" is never removed: after the style loads and two more collections arrive, two listeners remain |
| MapSurface.LastEarlyListenerIsRemovedAfterStyleLoad | src/components/SafeSwimMap.tsx:111-173 | one collection before "style.load" and one after it leave exactly one listener: the cleanup that runs after the load finds the layer and removes the early listener |
| Popup.Turns | src/components/SafeSwimMap.tsx:134-136 | the number of whole turns the loop adds brings the longitude within 180 of the click, and is 0 when it already was |
| Popup.UnwrapLongitude | src/components/SafeSwimMap.tsx:134-136 | the loop terminates with the longitude within 180 of the click, shifted by a whole number of turns, and unchanged when it was already within 180 |
| Popup.UnwrapIsNearestCopy | src/components/SafeSwimMap.tsx:133-136 | no other copy of the longitude, shifted by whole turns, is nearer to the click |
| Popup.UnwrapAcrossAntimeridian | src/components/SafeSwimMap.tsx:134-136 | anchor 170 clicked at -170 becomes -190 |
| Popup.FormatDate | src/components/SafeSwimMap.tsx:139-151 | an empty or missing date shows "N/A"; any other string goes to the locale formatter |
| Popup.ShowPh | src/components/SafeSwimMap.tsx:159 | pH shows "N/A" exactly when it is missing, NaN or 0, and the number otherwise |
| Popup.ClickPopup | src/components/SafeSwimMap.tsx:127-163 | no popup iff there is no first feature or it is not a point; otherwise the popup keeps the latitude, sits within 180 of the clicked longitude, and shows the name or "Unknown Location", the status or "N/A", pH and both dates with their defaults |
| FilterSelection.Toggle | src/components/Filter.tsx:40-47 | "all" checked gives the whole group and unchecked gives []; checking an item appends it at the end, keeping all earlier entries; unchecking removes every occurrence and keeps the count of every other value |
| FilterSelection.UncheckKeepsOrder | src/components/Filter.tsx:46 | unchecking keeps the remaining entries in their order |
| FilterSelection.AsFilters | src/components/Filter.tsx:50 | the emitted selection has both lists present |
| FilterSelection.HandleRegionChange | src/components/Filter.tsx:36-51 | "all" gives ["LA","OC"] or []; items are appended or removed; the status list is unchanged; the emission pairs the new region list with the current status list |
| FilterSelection.HandleStatusChange | src/components/Filter.tsx:54-69 | "all" gives ["safe","caution","unsafe"] or []; items are appended or removed; the region list is unchanged; the emission pairs the current region list with the new status list |
| FilterSelection.Step | src/components/Filter.tsx:36-69 | a region event changes only the region list and a status event only the status list, and the emission carries the new state's two lists |
| FilterSelection.AllRegionsChecked | src/components/Filter.tsx:179 | the "All Regions" box renders checked, for a duplicate-free list within the group, exactly when LA and OC are both selected |
| FilterSelection.AllStatusesChecked | src/components/Filter.tsx:114 | the "All Statuses" box renders checked, for a duplicate-free list within the group, exactly when all three statuses are selected |
| FilterSelection.ToggleSetsItemChecked | src/components/Filter.tsx:41-199 | a toggled item box renders the state it reported and no other item box of the group changes; the "All" box sets every item box of its group to what it reported |
| FilterSelection.EmissionCarriesBothLists | src/components/Filter.tsx:49-68 | every emission has both lists present, equal to the new state's lists |
| FilterSelection.ControlledToggleKeepsWellFormed | src/components/Filter.tsx:40-47 | a toggle reporting the negation of its rendered state keeps the list duplicate-free and within its group |
| FilterSelection.AllCheckedIffEverySelected | src/components/Filter.tsx:114-124 | for a duplicate-free list within its group, "all" renders checked iff every option is selected |
| FilterSelection.ControlledStepKeepsWellFormed | src/components/Filter.tsx:36-69 | one controlled event keeps both lists duplicate-free within their groups |
| FilterSelection.ControlledRunKeepsWellFormed | src/components/Filter.tsx:36-69 | any run of controlled events keeps both lists duplicate-free within their groups |
| FilterSelection.ReachableAllCheckedMeansEverySelected | src/components/Filter.tsx:114-199 | from the initial state under controlled checkboxes, each "all" box is checked iff every item of its group is checked |
| FilterSelection.InitiallyNothingChecked | src/components/Filter.tsx:31-33 | both lists start empty and no checkbox renders checked |
| ConvertToGeoJson.ClassifyStatus | src/js/convertToGeoJSON.js:34-39 | safe iff the result is > 7, caution iff > 5 and ≤ 7, unsafe otherwise including NaN; always one of the three |
| ConvertToGeoJson.ClassifyStatusMonotone | src/js/convertToGeoJSON.js:34-39 | a higher result never gives a worse status, and NaN gives the worst |
| ConvertToGeoJson.ClassifyRegion | src/js/convertToGeoJSON.js:43-49 | "LA" iff the name matches Los Angeles or the word LA; "OC" iff it does not and matches Orange or the word OC; a falsy name is handed back, so it never yields a region |
| ConvertToGeoJson.ToFeature | src/js/convertToGeoJSON.js:23-51 | a Point feature at `[longitude, latitude]`, its status the classification of its own pH, name defaulting to "Unknown", sample date kept only when truthy, and the classified region |
| ConvertToGeoJson.Convert | src/js/convertToGeoJSON.js:16-52 | a FeatureCollection with one feature per record with truthy coordinates, in input order |
| ConvertToGeoJson.ConvertKeepsOnlyLocatedRecords | src/js/convertToGeoJSON.js:18-23 | the kept records are exactly those with truthy latitude and longitude, in input order, one feature each |
| ConvertToGeoJson.ConvertKeepsAllLocatedRecords | src/js/convertToGeoJSON.js:19-22 | when every record has coordinates, there are as many features as records |
| ConvertToGeoJson.ConvertedFeaturesAreWellFormed | src/js/convertToGeoJSON.js:23-40 | every output feature is a "Feature" with a two-element Point position, a vocabulary status agreeing with its pH, a name, and it comes from a located record |
| StationPattern.FindFrom | src/js/convertToGeoJSON.js:45-47 | the scan finds a match iff the alternative matches at some start position |
| StationPattern.TestLosAngeles | src/js/convertToGeoJSON.js:45 | true iff "Los Angeles" occurs ignoring case or "LA" occurs as a whole word ignoring case |
| StationPattern.TestOrange | src/js/convertToGeoJSON.js:47 | true iff "Orange" occurs ignoring case or "OC" occurs as a whole word ignoring case |
| StationPattern.LowerCaseWordMatches | src/js/convertToGeoJSON.js:45 | a lower-case standalone "la" matches |
| StationPattern.EmbeddedLettersDoNotMatch | src/js/convertToGeoJSON.js:45 | "Playa" does not match the Los Angeles pattern |
| App.InitialFiltersShowEverything | src/components/SafeSwimMap.tsx:24-30 | with both lists absent, as in the root's initial `{}`, the filtered collection equals the input |
| App.FirstToggleHidesEverything | src/components/Filter.tsx:49-68 | the first checkbox event of a session emits a present empty list for the other group, so the collection filtered for that emission is empty |
| App.SelectionDecidesVisibility | src/components/SafeSwimMap.tsx:24-30 | after a checkbox event, a feature is in the collection filtered for that emission iff it is in the input and its region and its status are both in the panel's new lists |
| App.ConvertedFeaturesAreNeverGray | src/js/convertToGeoJSON.js:34-39 | every converted feature has a status of the vocabulary, so it is never drawn gray |
| App.ThreeSiteExample | src/components/SafeSwimMap.tsx:24-30 | safe/LA, unsafe/OC and caution/no-region under regions ["LA"] and statuses ["safe","caution"] leave only the first |

## Left out

- Which filtered collection the map ends up binding is not modelled. The fetch effect (src/components/SafeSwimMap.tsx:20-42) starts a new request on every filter change and neither orders nor cancels older ones, so the bound collection can belong to an earlier selection. `App.SelectionDecidesVisibility` and `App.FirstToggleHidesEverything` speak of the collection filtered for one emission, not of what is drawn.
- Network and file I/O are not modelled: the dataset `fetch` and its error logging (src/components/SafeSwimMap.tsx:21-23, 41), and `axios.get` and `fs.writeFileSync` in the conversion script. Parsed data is taken as input.
- Logging is not modelled: the empty-result warning, the `load`/`error` observers and the logging effects (src/components/SafeSwimMap.tsx:32-34, 55-61, 175-191). They only write to the console.
- The map library's internals are not modelled: rendering, camera, the popup DOM element and event dispatch. `isStyleLoaded()` is read as a flag that only the "style.load" event sets.
- The ambient access-token assignment (src/components/SafeSwimMap.tsx:5) is not modelled. It is configuration only.
- React scheduling is modelled only as the order cleanup → bind effect → click effect on a data change. The order of cleanups on unmount is not modelled.
- Popup.FormatDate: a truthy date string is left opaque (`LocalDate`). `new Date` and `toLocaleDateString` depend on the locale and are outside the model.
- The popup's HTML template and escaping are not modelled; the popup is a record of its fields.
- `parseFloat` and IEEE doubles are not modelled. Parsed numbers are `Option<real>`, with None for NaN. Infinities and -0 are not represented.
- Open-data record fields are modelled as text or `null`. A numeric `0` in the raw JSON would be falsy, but it is not represented.
- `null` and `undefined` are not told apart (both are None). A missing `properties` object (`feature.properties || {}`) is not modelled; features always carry one.
- Mapbox's rendered-feature coordinates are taken as exact reals; tile quantisation is not modelled.
- src/components/Legend.tsx, vite.config.ts, vite-env.d.ts and the two test scripts are not part of this model. They are UI, tooling, or I/O over a data file.
