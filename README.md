# Service Finder core, in Dafny

A model of the logic of My-Service-Founder, a single-page app that finds restaurants, pharmacies
and EV charging stations near the user on OpenStreetMap data. The app has three places where this
logic lives, and this project models each of them.

- `places_api.dfy` (module `PlacesApi`) models place discovery:
  - the `SERVICE_TYPES` table;
  - the result cache, keyed by the location rounded to three decimals plus the service type, with a one-hour lifetime;
  - `fetchNearbyPlaces`, which serves a valid cache entry or issues one Overpass request, then normalises and stores the response;
  - the normaliser from Overpass elements to place records (name filter, coordinate resolution, address line, synthetic rating, location filter);
  - `isOpenNow`, `getPlacePhotoUrl` and `clearCache`.
  - The cache is a class whose `map` field the fetch and the clear methods update.
- `geocoding.dfy` (module `Geocoding`) models the Nominatim client:
  - the forward search: its input check, the request it sends and its result mapping;
  - the reverse lookup and its fallback name;
  - the recent-searches list kept under one browser-storage key. It is deduplicated by `display_name`, most recent first, and capped at five.
- `home.dfy` (module `Home`) models the page state of `Home.jsx` as a class with one method per callback:
  - geolocation success, failure and absence;
  - manual location selection, service selection and the map-ready flag;
  - the two filter toggles;
  - the loading effect and `loadPlaces`, each both as written and corrected (see "## Findings").
  - The filter effect is a pure function, proved to be one order-preserving AND filter.
- `seqs.dfy` holds `Array.prototype.filter` as `Filter`, with subsequence and fusion lemmas.
- `js_text.dfy` holds the string built-ins the code relies on: `toLowerCase`, `includes`, `join` and `trim`.
- `wrappers.dfy` holds `Option` and `Result`.

How the model handles the parts it does not run:

- **Network.** An HTTP call is an injected `Result`. The model states which request would be sent.
- **Clock.** `Date.now()` is a parameter.
- **`Math.random()`.** The draws are a parameter function indexed by an element's position in the named list.
- **Browser storage.** It is a single slot that is `Missing`, `Corrupt` (unparsable) or `Stored(list)`.
- **Array identity.** React compares dependencies by identity, so a JavaScript array of places is a `PlaceList` object, and two references are equal only when they are the same array.

The code has no guard against out-of-order responses: whichever `loadPlaces` settles last wins, and the model follows the code.

## Model

| member | source | states |
|---|---|---|
| PlacesApi.ServiceConfigOf | src/utils/placesApi.js:11-30 | exactly the three keys `restaurant`, `medical`, `charging` have an entry, and each entry's query is `amenity=` followed by its OSM tag |
| PlacesApi.EitherTag | src/utils/placesApi.js:133-134 | `tags[a] \|\| tags[b]`: the first tag when it is a non-empty string, else the second as it is (possibly missing) |
| PlacesApi.AddressParts | src/utils/placesApi.js:110-113 | the address parts are the present ones of street, house number, then city or else suburb, each non-empty and at most three. There are none exactly when none of the four tags is a non-empty string; the street, when present, comes first; the city, or else the suburb, when present, comes last |
| PlacesApi.AddressPartsAreFilterBoolean | src/utils/placesApi.js:110-113 | the address parts are exactly the values that `.filter(Boolean)` keeps of the three candidates |
| PlacesApi.FilterBooleanOfThree | src/utils/placesApi.js:110-113 | `.filter(Boolean)` over three candidate strings keeps the values of the present ones, in order |
| Seqs.FilterOfThree | src/utils/placesApi.js:110-113 | filtering a list of three keeps, in order, each of the three that passes |
| PlacesApi.Vicinity | src/utils/placesApi.js:110-114 | the address line is the present parts joined by ", ", or "Address not available" when there are none; it is never empty |
| PlacesApi.IsOpenNow | src/utils/placesApi.js:163-172 | the empty string is closed; containing "24/7" is open and checked first; otherwise containing "closed" in any letter case is closed; anything else is open |
| PlacesApi.IsOpenNowIgnoresCase | src/utils/placesApi.js:167-168 | the opening-hours reading gives the same answer on the lower-cased text, so it does not depend on letter case |
| PlacesApi.RoundTheClockWins | src/utils/placesApi.js:167 | "closed; 24/7" reads as open, because the "24/7" rule comes before the "closed" rule |
| PlacesApi.ClosedInCapitals | src/utils/placesApi.js:168 | "Su CLOSED" reads as closed: the "closed" rule matches after lower-casing |
| PlacesApi.ResolvePosition | src/utils/placesApi.js:99-105 | the element's own lat/lon when its latitude is truthy; otherwise its centre when it has one; otherwise a falsy latitude |
| PlacesApi.ToPlace | src/utils/placesApi.js:95-142 | the place record of one element: its id when truthy and else the index; its non-empty name or "Unknown Place"; the never-empty address line of its tags; a rating of 3.5 plus 1.5 times the value draw exactly when the coin draw exceeds 0.3; a count of the floor of 500 times the count draw, plus 10; the opening-hours reading of its tag, or else whether the open coin draw exceeds 0.3; the resolved position; `phone \|\| contact:phone` and `website \|\| contact:website` |
| PlacesApi.Candidates | src/utils/placesApi.js:93-95 | there is one place record per element that has a non-empty name |
| PlacesApi.Normalize | src/utils/placesApi.js:93-143 | the output is no longer than the input, every place has truthy latitude and longitude, and it is an order-preserving subsequence of the named elements' records |
| PlacesApi.NormalizeProvenance | src/utils/placesApi.js:93-109 | every kept place is the record of the k-th named element, built with the k-th draws; its name is that element's non-empty `name` tag and its vicinity is non-empty |
| PlacesApi.NormalizeComplete | src/utils/placesApi.js:93-143 | conversely, the record of every named element whose resolved coordinates are truthy is kept |
| PlacesApi.KeptCoordinateSource | src/utils/placesApi.js:99-105 | a kept place has the element's own lat/lon when its own latitude is truthy (the longitude then must be truthy too), and otherwise the element's centre |
| PlacesApi.UnresolvedElementDropped | src/utils/placesApi.js:143 | an element with a falsy own latitude and no centre yields a place that the location filter drops |
| PlacesApi.SynthesizedRanges | src/utils/placesApi.js:117-118 | with draws in [0, 1), a synthetic rating lies in [3.5, 5) and the rating count in [10, 509] |
| PlacesApi.FindServiceByLabel | src/utils/placesApi.js:186-188 | the result is a service key whose lower-cased label the lower-cased vicinity contains, and no earlier key in table order matches; there is none exactly when no key's label matches |
| PlacesApi.PlacePhotoUrl | src/utils/placesApi.js:177-192 | the URL is the placeholder of the matched service's OSM tag, and the restaurant photo when no label matches; it is always one of the three placeholders, never the "No Image" fallback |
| PlacesApi.ToFixed3 | src/utils/placesApi.js:39-40 | `toFixed(3)` as a sign and a count of thousandths: negative exactly when the number is |
| PlacesApi.BucketWithinHalfThousandth | src/utils/placesApi.js:39-40 | the number that a coordinate's `toFixed(3)` text denotes lies within 0.0005 of the coordinate |
| PlacesApi.CacheKeyOf | src/utils/placesApi.js:38-42 | the cache key keeps the service type, and each coordinate's three-decimal text denotes a number within 0.0005 of it |
| PlacesApi.CacheKeySharing | src/utils/placesApi.js:38-42 | two locations share a cache key exactly when both coordinates round to the same three-decimal text and the service types are equal |
| PlacesApi.IsCacheValid | src/utils/placesApi.js:44-47 | a missing entry is invalid; an entry is valid exactly while `now` is before its timestamp plus one hour |
| PlacesApi.CacheLifetime | src/utils/placesApi.js:44-47 | an entry is valid exactly while less than 3600000 ms have passed since its timestamp; it is invalid at exactly one hour; a missing entry is invalid |
| PlacesApi.PlacesCache.constructor | src/utils/placesApi.js:36 | the cache starts empty |
| PlacesApi.PlacesCache.FetchNearbyPlaces | src/utils/placesApi.js:55-157 | a valid entry's array is returned with no request and no change to the cache. Otherwise an unknown service fails with "Failed to fetch places. Please try again." and no request. A known service issues one request for its OSM tag within 3000 m. On failure the error is returned and the cache is unchanged. On success a new array holding the normalised places is returned and stored under the key with the arrival time; no other key changes |
| PlacesApi.PlacesCache.ClearCache | src/utils/placesApi.js:197-200 | deleting the keys one by one leaves the cache empty |
| PlacesApi.RepeatedFetch | src/utils/placesApi.js:55-151 | for the same location and service, a second call within the hour returns the same array with no request, and a call after the hour issues the same request again |
| JsText.ToLower | src/utils/placesApi.js:168 | `toLowerCase` keeps the length and lower-cases each ASCII capital |
| JsText.Includes | src/utils/placesApi.js:167 | `includes` is true exactly when the needle occurs at some index |
| JsText.IncludesIgnoresCase | src/utils/placesApi.js:167-168 | a needle without letters, such as "24/7", is found in a text exactly when it is found in the lower-cased text |
| JsText.Trim | src/utils/geocoding.js:14 | `trim` returns a slice of the text with only whitespace before and after it, and neither starting nor ending with whitespace; the result is empty exactly when the text is all whitespace |
| JsText.Utf16Length | src/utils/geocoding.js:14 | `length` counts UTF-16 code units: one per character of the Basic Multilingual Plane and two per character beyond it |
| JsText.Utf16LengthAppend | src/utils/geocoding.js:14 | the code units of a concatenation are the sum of those of its halves, so the count is one per BMP character plus two per astral one in any mix |
| JsText.MixedUtf16Length | src/utils/geocoding.js:14 | "a" followed by an emoji is three code units |
| JsText.Join | src/utils/placesApi.js:114 | `join` of no parts is empty and of one part is that part; otherwise it starts with the first part followed by the separator, and its length is the parts' total plus one separator between each two |
| JsText.JoinAppend | src/utils/placesApi.js:114 | joining one more part appends the separator and then that part, so every part sits in order between separators |
| Seqs.Filter | src/pages/Home.jsx:111 | `Array.prototype.filter` keeps only elements that pass the test, keeps every passing element, and keeps them in their original order |
| Seqs.FilterCounts | src/pages/Home.jsx:111 | each passing element is kept exactly as often as the list holds it, and a failing one never |
| Seqs.FilterDropsOne | src/utils/geocoding.js:80-82 | a filter that rejects exactly the element at one index returns the list without that element, the rest in order |
| Seqs.FilterFusion | src/pages/Home.jsx:110-118 | filtering by one test and then by another is filtering once by both |
| Geocoding.SearchLocation | src/utils/geocoding.js:13-42 | a missing query, or one shorter than three UTF-16 code units once trimmed, is rejected with "Please enter at least 3 characters" before any request. Otherwise the untrimmed query is sent with format json, limit 5 and address details. A failure becomes "Failed to search location. Please try again."; a success maps each result one-to-one and in order |
| Geocoding.ToLocation | src/utils/geocoding.js:31-37 | a search result keeps its display name, type and address, and its coordinates are `parseFloat` of its `lat` and `lon` texts |
| Geocoding.TwoAstralCharsAreSearchable | src/utils/geocoding.js:14 | two emoji pass the three-character check, because each counts as two code units |
| Geocoding.BlankQuerySendsNothing | src/utils/geocoding.js:14-16 | a query of whitespace only, of any length, is rejected without a request |
| Geocoding.ReverseGeocode | src/utils/geocoding.js:49-67 | the response's display name is returned (it may be missing); any failure gives "Unknown location", so the promise never rejects |
| Geocoding.ReadRecent | src/utils/geocoding.js:96-104 | the stored list is returned; a missing key or content that does not parse gives `[]` |
| Geocoding.PushRecent | src/utils/geocoding.js:80-88 | the saved list starts with the new location and has one to five entries; every later entry is an older one with a different `display_name` |
| Geocoding.PushRecentKeepsOrder | src/utils/geocoding.js:80-88 | the older entries that survive a save keep their relative order |
| Geocoding.FilterKeepsNamesUnique | src/utils/geocoding.js:80-82 | removing entries keeps a list with unique names unique |
| Geocoding.PushRecentKeepsNamesUnique | src/utils/geocoding.js:80-88 | saving keeps the stored names unique |
| Geocoding.PushRecentNewName | src/utils/geocoding.js:80-88 | saving a name not yet in the list puts it in front of the whole list, cut to five |
| Geocoding.PushRecentKnownName | src/utils/geocoding.js:80-88 | saving a name already in the list moves it to the front and does not grow the list |
| Geocoding.PushRecentMovesToFront | src/utils/geocoding.js:80-88 | in a list with unique names, saving a location whose name is at index i gives the location followed by the entries before i and after i, in order, cut to five |
| Geocoding.SavesOfDistinctNames | src/utils/geocoding.js:73-88 | saving distinct names one after another from empty storage leaves the last five, most recent first |
| Geocoding.SixDistinctSaves | src/utils/geocoding.js:73-88 | after saving six distinct names a to f, the list is f, e, d, c, b |
| Geocoding.RecentSearchStore.GetRecentSearches | src/utils/geocoding.js:96-104 | reading never fails and returns the stored list or `[]` |
| Geocoding.RecentSearchStore.SaveRecentSearch | src/utils/geocoding.js:75-94 | the slot then holds the pushed list, which starts with the location and has at most five entries. If the write throws, the slot is unchanged and the error is swallowed. Bounded length with unique names is preserved |
| Geocoding.RecentSearchStore.ClearRecentSearches | src/utils/geocoding.js:106-108 | the key is removed, after which reading gives `[]` |
| Home.HighlyRated | src/pages/Home.jsx:111 | the rating test passes exactly when the rating is present, non-zero and at least 4 |
| Home.ApplyFilters | src/pages/Home.jsx:107-121 | with both filters off, the shown list is the loaded list. Otherwise it holds exactly the loaded places that pass every active filter: a rating of at least 4 when the rating filter is on, open now when the open filter is on |
| Home.FiltersComposeByAnd | src/pages/Home.jsx:107-121 | the two filters in sequence equal one filter by the AND of the active tests, and the shown list is an order-preserving subsequence of the loaded list |
| Home.BothFiltersCompose | src/pages/Home.jsx:110-118 | with both toggles on, the rating filter then the open filter is the single filter "rated at least 4 and open" |
| Home.NameAfterLookup | src/pages/Home.jsx:48-54 | the name after the reverse lookup is its result when it resolves, and "Current Location" when it rejects |
| Home.CurrentLocationFallbackUnused | src/pages/Home.jsx:48-54 | since the reverse lookup never rejects, the name becomes the looked-up name or "Unknown location", never "Current Location" |
| Home.HomePage.constructor | src/pages/Home.jsx:15-26 | the initial state: no location, the restaurant service, no places, not loading, no error, the map not loaded, the name "Detecting...", automatic location, both filters off |
| Home.HomePage.DetectCurrentLocation | src/pages/Home.jsx:33-72 | with geolocation, the page shows the spinner and "Detecting...". Without it, the location is set to (26.9124, 75.7873) named "Jaipur, Rajasthan, India (Default)" with the error "Geolocation not supported.", and the loading flag is left as it was |
| Home.HomePage.OnPositionSuccess | src/pages/Home.jsx:39-55 | the location is the reported coordinates, the error is cleared, loading stops, and the name becomes the reverse-lookup result |
| Home.HomePage.OnPositionError | src/pages/Home.jsx:56-63 | the location is (26.9124, 75.7873) named "Jaipur, Rajasthan, India (Default)", the error is "Location access denied. Using default location.", and loading stops |
| Home.HomePage.HandleLocationSelect | src/pages/Home.jsx:75-80 | the chosen point becomes the location; the name is the given non-empty name or else "Selected Location"; manual mode is on and the error is cleared |
| Home.HomePage.SelectService | src/pages/Home.jsx:185 | the selected service changes; the location, name, lists, loading flag, error, map flag, filters and manual mode stay as they were |
| Home.HomePage.SetMapLoaded | src/pages/Home.jsx:207 | the map-ready flag changes; the location, name, service, lists, loading flag, error, filters and manual mode stay as they were |
| Home.HomePage.SetFilterRating | src/pages/Home.jsx:198 | the rating toggle is set. A changed value reruns the filter effect; an unchanged one leaves the shown list alone. A shown list that matched the filters keeps matching. The location, name, service, loaded list, loading flag, error, map flag, the other toggle and manual mode stay as they were |
| Home.HomePage.SetFilterOpen | src/pages/Home.jsx:199 | the open-now toggle is set. A changed value reruns the filter effect; an unchanged one leaves the shown list alone. A shown list that matched the filters keeps matching. The location, name, service, loaded list, loading flag, error, map flag, the other toggle and manual mode stay as they were |
| Home.HomePage.ShouldLoadPlaces | src/pages/Home.jsx:83-87 | places load exactly when the map is loaded and a location is set |
| Home.HomePage.ShowOutcomeAsWritten | src/pages/Home.jsx:93-103 | on success both lists become the fetched array, refiltered only when it is a different array from the one held. On failure both lists are emptied and the message is shown. Loading stops either way; the location, name, service, map flag, filters and manual mode stay as they were |
| Home.HomePage.ShowOutcome | src/pages/Home.jsx:93-103 | corrected (see ## Findings): on success the loaded list is the fetched array and the shown list is it under the active filters, whether or not it is the array already held. On failure both lists are emptied and the message is shown. Loading stops either way; the location, name, service, map flag, filters and manual mode stay as they were |
| Home.HomePage.LoadPlacesAsWritten | src/pages/Home.jsx:89-104 | the fetch for the current location and service behaves as `FetchNearbyPlaces` specifies, and the page shows its outcome as written; the location, name, service, map flag, filters and manual mode stay as they were |
| Home.HomePage.LoadPlaces | src/pages/Home.jsx:89-104 | corrected (see ## Findings): the same fetch. On success the loaded list is the fetched array and the shown list is it under the active filters. On failure both are empty and the error holds the message. Loading is false after either outcome; the location, name, service, map flag, filters and manual mode stay as they were |
| Home.HomePage.RefreshPlacesAsWritten | src/pages/Home.jsx:83-87 | it loads exactly when the map is loaded and a location is set. Then the fetch for the current location and service behaves as `FetchNearbyPlaces` specifies and its outcome is shown as written: the shown list is refiltered only when the fetched array is a different one from the array held. Otherwise nothing is requested and the cache, lists, loading flag and error stay as they were. The location, service, map flag, name, filters and manual mode never change |
| Home.HomePage.RefreshPlaces | src/pages/Home.jsx:83-87 | corrected (see ## Findings): it loads exactly when the map is loaded and a location is set. Then the fetch for the current location and service behaves as `FetchNearbyPlaces` specifies and its outcome is shown as in `LoadPlaces`, with the shown list matching the filters. Otherwise nothing is requested and the cache, lists, loading flag and error stay as they were. The location, service, map flag, name, filters and manual mode never change |
| Home.FilterIgnoredAfterCacheHit | src/pages/Home.jsx:94-96 | as written, with the rating filter on, re-selecting the same location within the hour reruns the loading effect, which serves the array already held from the cache and shows an unrated place |
| Home.FilterKeptAfterCacheHit | src/pages/Home.jsx:94-96 | with the corrected loading effect, the same steps show no places |

## Left out

- The HTTP calls themselves are not modelled: the Overpass POST, the Nominatim search and the reverse GET. This covers the Overpass query text, the form encoding, the `User-Agent` header and the reverse request's parameters. A fetch or search states only the request's essentials (OSM tag, radius and centre; query, format, limit, address details) and takes the response as an injected value.
- Floating point is modelled by exact `real` arithmetic. NaN and the infinities are not modelled, and `toFixed(3)` is modelled by its digits rather than its text.
- `parseFloat` of the search coordinates is an injected function.
- `JSON.parse`/`JSON.stringify` of the stored list are not modelled. Storage holds either a list or content that does not parse; stored JSON that parses to something other than an array is not modelled.
- `Math.random()` values are injected: one set of draws per named element, in order. The model does not fix how many calls the source makes per element.
- `toLowerCase` covers ASCII capitals only; other letters are left unchanged.
- `console` logging is not modelled.
- React scheduling is not modelled. Each callback is one atomic update, and `loadPlaces` runs its fetch and its state updates in one step. Interleavings of concurrent `loadPlaces` or reverse-lookup promises are not modelled.
- The success callback's name update, which happens after an `await`, is folded into the same step.
- The constant place fields `photos: null` and `source: 'OpenStreetMap'` are not modelled. The `opening_hours` wrapper is flattened to a boolean, and the `osm-<index>` identifier is modelled by its index.
- PlacesApi.PlacesCache.FetchNearbyPlaces: service types that are inherited object keys, such as "constructor", "toString" or "__proto__", are not modelled. In the source they pass the `SERVICE_TYPES[serviceType]` check, so a request for `amenity="undefined"` is sent and its result cached; the model fails them with no request. No caller passes such a key, because the service buttons at src/pages/Home.jsx:183-187 use the table's own keys.
- PlacesApi.PlacePhotoUrl: a place with no `vicinity` at all is not modelled, because every normalised place has one.
- The `LocationSearch`, `MapView`, `PlaceCard` and `Filters` components are not part of this model. They are rendering, Leaflet wiring and input debouncing.

## Findings

| source | as written | input that shows it | evidently intended | confidence | as-written member | corrected member |
|---|---|---|---|---|---|---|
| src/pages/Home.jsx:94-96 | after a successful fetch, `filteredPlaces` is set to the unfiltered results. Only the filter effect refilters, and it reruns only when `places` changes identity | turn the rating filter on, then re-select the same location (or use the current location again) within the hour. The cache returns the array already held, `setPlaces` is a no-op and the effect does not rerun, so an unrated place is shown with the rating filter on | the shown list is always the loaded list under the active filters | high; not executed | Home.FilterIgnoredAfterCacheHit | Home.FilterKeptAfterCacheHit |
