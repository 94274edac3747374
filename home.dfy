/**
 * The page state of `Home`: the location, its display name, the error banner, the loading flag,
 * the loaded places and the filtered places, updated by one method per callback. Each callback is
 * taken as one atomic update; the asynchronous interleaving of the callbacks is not modelled.
 */
module Home {
  import opened Wrappers
  import opened Seqs
  import opened PlacesApi
  import Geocoding

  const DefaultLocation := LatLng(26.9124, 75.7873)
  const DefaultLocationName := "Jaipur, Rajasthan, India (Default)"
  const DetectingName := "Detecting..."
  const DeniedMessage := "Location access denied. Using default location."
  const UnsupportedMessage := "Geolocation not supported."
  const CurrentLocationName := "Current Location"
  const SelectedLocationName := "Selected Location"

  /** `place.rating && place.rating >= 4` */
  function HighlyRated(p: Place): (high: bool)
    ensures high <==> Truthy(p.rating) && p.rating.value >= 4.0
  {
    p.rating.Some? && p.rating.value >= 4.0
  }

  /** The open-now filter's test `place.opening_hours && place.opening_hours.open_now`; every record has the `opening_hours` object. */
  predicate OpenNow(p: Place) {
    p.openNow
  }

  /** Whether a place passes the filters that are switched on. */
  predicate PassesFilters(p: Place, filterRating: bool, filterOpen: bool) {
    (filterRating ==> HighlyRated(p)) && (filterOpen ==> p.openNow)
  }

  /** The filter effect: the rating filter, then the open-now filter, each only when switched on. */
  function ApplyFilters(places: seq<Place>, filterRating: bool, filterOpen: bool): (shown: seq<Place>)
    ensures !filterRating && !filterOpen ==> shown == places
    ensures |shown| <= |places|
    ensures forall i :: 0 <= i < |shown| ==> shown[i] in places && PassesFilters(shown[i], filterRating, filterOpen)
    ensures forall i :: 0 <= i < |places| && PassesFilters(places[i], filterRating, filterOpen) ==> places[i] in shown
  {
    var afterRating := if filterRating then Filter(HighlyRated, places) else places;
    if filterOpen then Filter(OpenNow, afterRating) else afterRating
  }

  /** The test of the combined filter. */
  function Passes(filterRating: bool, filterOpen: bool): Place -> bool {
    p => PassesFilters(p, filterRating, filterOpen)
  }

  /** The two filters compose by AND into one order-preserving filter. */
  lemma FiltersComposeByAnd(places: seq<Place>, filterRating: bool, filterOpen: bool)
    ensures ApplyFilters(places, filterRating, filterOpen) == Filter(Passes(filterRating, filterOpen), places)
    ensures IsSubsequence(ApplyFilters(places, filterRating, filterOpen), places)
  {
    var both := Passes(filterRating, filterOpen);
    if filterRating && filterOpen {
      BothFiltersCompose(places);
    } else if filterRating {
      FilterCongruent(HighlyRated, both, places);
    } else if filterOpen {
      FilterCongruent(OpenNow, both, places);
    } else {
      FilterKeepsAll(both, places);
    }
  }

  lemma BothFiltersCompose(places: seq<Place>)
    ensures Filter(OpenNow, Filter(HighlyRated, places)) == Filter(Passes(true, true), places)
  {
    FilterFusion(HighlyRated, OpenNow, places);
    FilterCongruent((p: Place) => HighlyRated(p) && OpenNow(p), Passes(true, true), places);
  }

  /** The name shown after the reverse lookup settles: its result, or "Current Location" if it rejected. */
  function NameAfterLookup(lookup: Result<Option<string>, string>): (name: Option<string>)
    ensures lookup.Ok? ==> name == lookup.value
    ensures lookup.Err? ==> name == Some(CurrentLocationName)
  {
    match lookup
    case Ok(name) => name
    case Err(_) => Some(CurrentLocationName)
  }

  /** `reverseGeocode` never rejects, so the "Current Location" fallback is dead code. */
  lemma CurrentLocationFallbackUnused(response: Result<Option<string>, string>)
    ensures NameAfterLookup(Ok(Geocoding.ReverseGeocode(response))) ==
      if response.Ok? then response.value else Some(Geocoding.UnknownLocation)
  {
  }

  class HomePage {
    var userLocation: Option<LatLng>
    var selectedService: string
    var places: PlaceList
    var filteredPlaces: seq<Place>
    var loading: bool
    var error: Option<string>
    var mapLoaded: bool
    var locationName: Option<string>
    var useManualLocation: bool
    var filterRating: bool
    var filterOpen: bool

    /** The shown list is the loaded list under the active filters. */
    predicate FiltersApplied()
      reads this
    {
      filteredPlaces == ApplyFilters(places.items, filterRating, filterOpen)
    }

    /** The initial `useState` values. */
    constructor()
      ensures userLocation.None? && selectedService == "restaurant" && places.items == [] && filteredPlaces == []
      ensures !loading && error.None? && !mapLoaded && locationName == Some(DetectingName)
      ensures !useManualLocation && !filterRating && !filterOpen
      ensures FiltersApplied()
    {
      userLocation := None;
      selectedService := "restaurant";
      places := new PlaceList([]);
      filteredPlaces := [];
      loading := false;
      error := None;
      mapLoaded := false;
      locationName := Some(DetectingName);
      useManualLocation := false;
      filterRating := false;
      filterOpen := false;
    }

    /**
     * `detectCurrentLocation()` up to the geolocation request: with geolocation it shows the
     * spinner and "Detecting..."; without it the default location is set at once (the loading
     * flag is left as it was).
     */
    method DetectCurrentLocation(geolocationSupported: bool)
      modifies this
      ensures geolocationSupported ==>
        && loading && locationName == Some(DetectingName)
        && userLocation == old(userLocation) && error == old(error)
      ensures !geolocationSupported ==>
        && userLocation == Some(DefaultLocation) && locationName == Some(DefaultLocationName)
        && error == Some(UnsupportedMessage) && loading == old(loading)
      ensures places == old(places) && filteredPlaces == old(filteredPlaces)
      ensures selectedService == old(selectedService) && mapLoaded == old(mapLoaded)
      ensures useManualLocation == old(useManualLocation) && filterRating == old(filterRating) && filterOpen == old(filterOpen)
    {
      if geolocationSupported {
        loading := true;
        locationName := Some(DetectingName);
      } else {
        error := Some(UnsupportedMessage);
        userLocation := Some(DefaultLocation);
        locationName := Some(DefaultLocationName);
      }
    }

    /**
     * The success callback: the reported coordinates, no error, no spinner; then the name from the
     * reverse lookup, whose response is `reverse`.
     */
    method OnPositionSuccess(coords: LatLng, reverse: Result<Option<string>, string>)
      modifies this
      ensures userLocation == Some(coords) && error.None? && !loading
      ensures locationName == NameAfterLookup(Ok(Geocoding.ReverseGeocode(reverse)))
      ensures places == old(places) && filteredPlaces == old(filteredPlaces)
      ensures selectedService == old(selectedService) && mapLoaded == old(mapLoaded)
      ensures useManualLocation == old(useManualLocation) && filterRating == old(filterRating) && filterOpen == old(filterOpen)
    {
      userLocation := Some(coords);
      error := None;
      loading := false;
      var name := Geocoding.ReverseGeocode(reverse);
      locationName := NameAfterLookup(Ok(name));
    }

    /** The error callback (permission denied, unavailable, timeout): the default location with a notice. */
    method OnPositionError()
      modifies this
      ensures userLocation == Some(DefaultLocation) && locationName == Some(DefaultLocationName)
      ensures error == Some(DeniedMessage) && !loading
      ensures places == old(places) && filteredPlaces == old(filteredPlaces)
      ensures selectedService == old(selectedService) && mapLoaded == old(mapLoaded)
      ensures useManualLocation == old(useManualLocation) && filterRating == old(filterRating) && filterOpen == old(filterOpen)
    {
      userLocation := Some(DefaultLocation);
      locationName := Some(DefaultLocationName);
      error := Some(DeniedMessage);
      loading := false;
    }

    /** `handleLocationSelect(location)`: the chosen point, its name or "Selected Location", manual mode, no error. */
    method HandleLocationSelect(coords: LatLng, name: Option<string>)
      modifies this
      ensures userLocation == Some(coords) && useManualLocation && error.None?
      ensures name.Some? && name.value != "" ==> locationName == name
      ensures name.None? || name.value == "" ==> locationName == Some(SelectedLocationName)
      ensures places == old(places) && filteredPlaces == old(filteredPlaces) && loading == old(loading)
      ensures selectedService == old(selectedService) && mapLoaded == old(mapLoaded)
      ensures filterRating == old(filterRating) && filterOpen == old(filterOpen)
    {
      userLocation := Some(coords);
      locationName := if name.Some? && name.value != "" then name else Some(SelectedLocationName);
      useManualLocation := true;
      error := None;
    }

    /** A service button: `setSelectedService(key)`. */
    method SelectService(key: string)
      modifies this
      ensures selectedService == key
      ensures userLocation == old(userLocation) && places == old(places) && filteredPlaces == old(filteredPlaces)
      ensures mapLoaded == old(mapLoaded) && filterRating == old(filterRating) && filterOpen == old(filterOpen)
      ensures loading == old(loading) && error == old(error) && locationName == old(locationName)
      ensures useManualLocation == old(useManualLocation)
    {
      selectedService := key;
    }

    /** The map view's `onMapLoad`. */
    method SetMapLoaded(loaded: bool)
      modifies this
      ensures mapLoaded == loaded
      ensures userLocation == old(userLocation) && selectedService == old(selectedService)
      ensures places == old(places) && filteredPlaces == old(filteredPlaces)
      ensures filterRating == old(filterRating) && filterOpen == old(filterOpen)
      ensures loading == old(loading) && error == old(error) && locationName == old(locationName)
      ensures useManualLocation == old(useManualLocation)
    {
      mapLoaded := loaded;
    }

    /** The rating toggle; the filter effect reruns when the flag changes. */
    method SetFilterRating(on: bool)
      modifies this
      ensures filterRating == on
      ensures on != old(filterRating) ==> filteredPlaces == ApplyFilters(places.items, filterRating, filterOpen)
      ensures on == old(filterRating) ==> filteredPlaces == old(filteredPlaces)
      ensures old(FiltersApplied()) ==> FiltersApplied()
      ensures userLocation == old(userLocation) && selectedService == old(selectedService) && mapLoaded == old(mapLoaded)
      ensures places == old(places) && filterOpen == old(filterOpen)
      ensures loading == old(loading) && error == old(error) && locationName == old(locationName)
      ensures useManualLocation == old(useManualLocation)
    {
      if on != filterRating {
        filterRating := on;
        filteredPlaces := ApplyFilters(places.items, filterRating, filterOpen);
      }
    }

    /** The open-now toggle; the filter effect reruns when the flag changes. */
    method SetFilterOpen(on: bool)
      modifies this
      ensures filterOpen == on
      ensures on != old(filterOpen) ==> filteredPlaces == ApplyFilters(places.items, filterRating, filterOpen)
      ensures on == old(filterOpen) ==> filteredPlaces == old(filteredPlaces)
      ensures old(FiltersApplied()) ==> FiltersApplied()
      ensures userLocation == old(userLocation) && selectedService == old(selectedService) && mapLoaded == old(mapLoaded)
      ensures places == old(places) && filterRating == old(filterRating)
      ensures loading == old(loading) && error == old(error) && locationName == old(locationName)
      ensures useManualLocation == old(useManualLocation)
    {
      if on != filterOpen {
        filterOpen := on;
        filteredPlaces := ApplyFilters(places.items, filterRating, filterOpen);
      }
    }

    /** The trigger of the loading effect: the map is loaded and a location is set. */
    function ShouldLoadPlaces(): (load: bool)
      reads this
      ensures load ==> userLocation.Some?
      ensures load <==> mapLoaded && userLocation != None
    {
      mapLoaded && userLocation.Some?
    }

    /**
     * What `loadPlaces()` as written does once the fetch has settled: on success both `places` and
     * `filteredPlaces` become the fetched array, and the filter effect reruns only when that array
     * is a different object from the `places` already held; on failure both lists are emptied and
     * the message is shown.
     */
    method ShowOutcomeAsWritten(outcome: Result<PlaceList, string>)
      modifies this
      ensures outcome.Ok? ==> places == outcome.value && error.None?
      ensures outcome.Ok? && outcome.value != old(places) ==> filteredPlaces == ApplyFilters(places.items, filterRating, filterOpen)
      ensures outcome.Ok? && outcome.value == old(places) ==> filteredPlaces == places.items
      ensures outcome.Err? ==> places.items == [] && filteredPlaces == [] && error == Some(outcome.error)
      ensures !loading
      ensures userLocation == old(userLocation) && selectedService == old(selectedService) && mapLoaded == old(mapLoaded)
      ensures locationName == old(locationName) && filterRating == old(filterRating) && filterOpen == old(filterOpen)
      ensures useManualLocation == old(useManualLocation)
    {
      loading := true;
      error := None;
      match outcome {
        case Ok(results) =>
          var placesChanged := results != places;
          places := results;
          filteredPlaces := results.items;
          if placesChanged {
            // the filter effect depends on `places` and compares it by identity
            filteredPlaces := ApplyFilters(places.items, filterRating, filterOpen);
          }
        case Err(message) =>
          error := Some(message);
          places := new PlaceList([]);
          filteredPlaces := [];
      }
      loading := false;
    }

    /**
     * What `loadPlaces()` does once the fetch has settled, with the active filters applied to the
     * fetched array whether or not it is the array already held.
     */
    method ShowOutcome(outcome: Result<PlaceList, string>)
      modifies this
      ensures outcome.Ok? ==> places == outcome.value && error.None?
      ensures outcome.Err? ==> places.items == [] && filteredPlaces == [] && error == Some(outcome.error)
      ensures FiltersApplied() && !loading
      ensures userLocation == old(userLocation) && selectedService == old(selectedService) && mapLoaded == old(mapLoaded)
      ensures locationName == old(locationName) && filterRating == old(filterRating) && filterOpen == old(filterOpen)
      ensures useManualLocation == old(useManualLocation)
    {
      loading := true;
      error := None;
      match outcome {
        case Ok(results) =>
          places := results;
          filteredPlaces := ApplyFilters(places.items, filterRating, filterOpen);
        case Err(message) =>
          error := Some(message);
          places := new PlaceList([]);
          filteredPlaces := [];
      }
      loading := false;
    }

    /** `loadPlaces()` as written: the fetch for the current location and service, then its outcome shown. */
    method LoadPlacesAsWritten(
      cache: PlacesCache, now: int, response: Result<seq<Element>, string>, receivedAt: int, draws: nat -> Draws)
      returns (outcome: Result<PlaceList, string>, request: Option<OverpassRequest>)
      requires userLocation.Some?
      modifies this, cache
      ensures cache.FetchedAsSpecified(old(userLocation.value), old(selectedService), now, response, receivedAt, draws, outcome, request)
      ensures outcome.Ok? ==> places == outcome.value && error.None?
      ensures outcome.Ok? && outcome.value != old(places) ==> filteredPlaces == ApplyFilters(places.items, filterRating, filterOpen)
      ensures outcome.Ok? && outcome.value == old(places) ==> filteredPlaces == places.items
      ensures outcome.Err? ==> places.items == [] && filteredPlaces == [] && error == Some(outcome.error)
      ensures !loading
      ensures userLocation == old(userLocation) && selectedService == old(selectedService) && mapLoaded == old(mapLoaded)
      ensures locationName == old(locationName) && filterRating == old(filterRating) && filterOpen == old(filterOpen)
      ensures useManualLocation == old(useManualLocation)
    {
      outcome, request := cache.FetchNearbyPlaces(userLocation.value, selectedService, now, response, receivedAt, draws);
      ShowOutcomeAsWritten(outcome);
    }

    /** `loadPlaces()`, corrected: the fetch, then its outcome shown under the active filters. */
    method LoadPlaces(
      cache: PlacesCache, now: int, response: Result<seq<Element>, string>, receivedAt: int, draws: nat -> Draws)
      returns (outcome: Result<PlaceList, string>, request: Option<OverpassRequest>)
      requires userLocation.Some?
      modifies this, cache
      ensures cache.FetchedAsSpecified(old(userLocation.value), old(selectedService), now, response, receivedAt, draws, outcome, request)
      ensures outcome.Ok? ==> places == outcome.value && error.None?
      ensures outcome.Err? ==> places.items == [] && filteredPlaces == [] && error == Some(outcome.error)
      ensures FiltersApplied() && !loading
      ensures userLocation == old(userLocation) && selectedService == old(selectedService) && mapLoaded == old(mapLoaded)
      ensures locationName == old(locationName) && filterRating == old(filterRating) && filterOpen == old(filterOpen)
      ensures useManualLocation == old(useManualLocation)
    {
      outcome, request := cache.FetchNearbyPlaces(userLocation.value, selectedService, now, response, receivedAt, draws);
      ShowOutcome(outcome);
    }

    /**
     * The loading effect as written, run after `mapLoaded`, `userLocation` (a new object on every
     * detection or selection) or `selectedService` changes: it loads exactly when
     * `ShouldLoadPlaces()`, and then does what `LoadPlacesAsWritten` does; otherwise nothing changes.
     */
    method RefreshPlacesAsWritten(
      cache: PlacesCache, now: int, response: Result<seq<Element>, string>, receivedAt: int, draws: nat -> Draws)
      returns (outcome: Option<Result<PlaceList, string>>, request: Option<OverpassRequest>)
      modifies this, cache
      ensures outcome.Some? <==> old(ShouldLoadPlaces())
      ensures outcome.None? ==> request.None? && cache.entries == old(cache.entries)
      ensures outcome.None? ==>
        && places == old(places) && filteredPlaces == old(filteredPlaces) && loading == old(loading)
        && error == old(error)
      ensures outcome.Some? ==>
        cache.FetchedAsSpecified(old(userLocation.value), old(selectedService), now, response, receivedAt, draws, outcome.value, request)
      ensures outcome.Some? && outcome.value.Ok? ==> places == outcome.value.value && error.None?
      ensures outcome.Some? && outcome.value.Ok? && outcome.value.value != old(places) ==>
        filteredPlaces == ApplyFilters(places.items, filterRating, filterOpen)
      ensures outcome.Some? && outcome.value.Ok? && outcome.value.value == old(places) ==> filteredPlaces == places.items
      ensures outcome.Some? && outcome.value.Err? ==>
        places.items == [] && filteredPlaces == [] && error == Some(outcome.value.error)
      ensures outcome.Some? ==> !loading
      ensures userLocation == old(userLocation) && selectedService == old(selectedService) && mapLoaded == old(mapLoaded)
      ensures locationName == old(locationName) && filterRating == old(filterRating) && filterOpen == old(filterOpen)
      ensures useManualLocation == old(useManualLocation)
    {
      outcome, request := None, None;
      if ShouldLoadPlaces() {
        var loaded;
        loaded, request := LoadPlacesAsWritten(cache, now, response, receivedAt, draws);
        outcome := Some(loaded);
      }
    }

    /**
     * The loading effect with the corrected `LoadPlaces`: it loads exactly when
     * `ShouldLoadPlaces()`, and then does what `LoadPlaces` does; otherwise nothing changes.
     */
    method RefreshPlaces(
      cache: PlacesCache, now: int, response: Result<seq<Element>, string>, receivedAt: int, draws: nat -> Draws)
      returns (outcome: Option<Result<PlaceList, string>>, request: Option<OverpassRequest>)
      modifies this, cache
      ensures outcome.Some? <==> old(ShouldLoadPlaces())
      ensures outcome.None? ==> request.None? && cache.entries == old(cache.entries)
      ensures outcome.None? ==>
        && places == old(places) && filteredPlaces == old(filteredPlaces) && loading == old(loading)
        && error == old(error)
      ensures outcome.Some? ==>
        cache.FetchedAsSpecified(old(userLocation.value), old(selectedService), now, response, receivedAt, draws, outcome.value, request)
      ensures outcome.Some? && outcome.value.Ok? ==> places == outcome.value.value && error.None?
      ensures outcome.Some? && outcome.value.Err? ==>
        places.items == [] && filteredPlaces == [] && error == Some(outcome.value.error)
      ensures outcome.Some? ==> FiltersApplied() && !loading
      ensures old(FiltersApplied()) ==> FiltersApplied()
      ensures userLocation == old(userLocation) && selectedService == old(selectedService) && mapLoaded == old(mapLoaded)
      ensures locationName == old(locationName) && filterRating == old(filterRating) && filterOpen == old(filterOpen)
      ensures useManualLocation == old(useManualLocation)
    {
      outcome, request := None, None;
      if ShouldLoadPlaces() {
        var loaded;
        loaded, request := LoadPlaces(cache, now, response, receivedAt, draws);
        outcome := Some(loaded);
      }
    }
  }

  /** A named node at (1, 1) with no tags but its name. */
  const Cafe := Element(Some(1), Some(1.0), Some(1.0), None, Some(map["name" := "Cafe"]))

  /** Random draws of 0: no rating and, without an `opening_hours` tag, closed. */
  function LowDraws(k: nat): Draws {
    Draws(0.0, 0.0, 0.0, 0.0)
  }

  /** The café response normalises to one unrated place. */
  lemma CafeIsOneUnratedPlace()
    ensures |Normalize([Cafe], LowDraws)| == 1 && !HighlyRated(Normalize([Cafe], LowDraws)[0])
  {
    assert HasTag(Cafe.tags.value, "name");
    assert Named([Cafe]) == [Cafe] by {
      assert [Cafe][1..] == [];
    }
    var p := ToPlace(Cafe, 0, LowDraws(0));
    assert Candidates([Cafe], LowDraws) == [p];
    assert IsLocated(p);
    assert Normalize([Cafe], LowDraws) == [p] by {
      assert [p][1..] == [];
    }
  }

  /**
   * As written: with the rating filter on, selecting the same location again within the hour
   * reruns the loading effect, which reloads from the cache, gets the very array already held, and shows an unrated place.
   */
  method FilterIgnoredAfterCacheHit() returns (shown: seq<Place>, ratingFilterOn: bool)
    ensures ratingFilterOn
    ensures |shown| == 1 && !HighlyRated(shown[0])
  {
    var cache := new PlacesCache();
    var home := new HomePage();
    var here := LatLng(1.0, 1.0);
    var key := CacheKeyOf(here, "restaurant");
    assert ServiceConfigOf("restaurant").Some?;
    home.SetMapLoaded(true);
    home.HandleLocationSelect(here, Some("Cafe Street"));
    var first, request := home.RefreshPlacesAsWritten(cache, 0, Ok([Cafe]), 0, LowDraws);
    assert cache.entries == map[key := CacheEntry(first.value.value, 0)];
    home.SetFilterRating(true);
    home.HandleLocationSelect(here, Some("Cafe Street"));
    assert home.places == first.value.value;
    var second;
    second, request := home.RefreshPlacesAsWritten(cache, 1000, Err("offline"), 1000, LowDraws);
    assert second == first;
    CafeIsOneUnratedPlace();
    shown, ratingFilterOn := home.filteredPlaces, home.filterRating;
  }

  /** The same steps with the corrected loading effect: the unrated place stays hidden. */
  method FilterKeptAfterCacheHit() returns (shown: seq<Place>, ratingFilterOn: bool)
    ensures ratingFilterOn
    ensures shown == []
  {
    var cache := new PlacesCache();
    var home := new HomePage();
    var here := LatLng(1.0, 1.0);
    var key := CacheKeyOf(here, "restaurant");
    assert ServiceConfigOf("restaurant").Some?;
    home.SetMapLoaded(true);
    home.HandleLocationSelect(here, Some("Cafe Street"));
    var first, request := home.RefreshPlaces(cache, 0, Ok([Cafe]), 0, LowDraws);
    assert cache.entries == map[key := CacheEntry(first.value.value, 0)];
    home.SetFilterRating(true);
    home.HandleLocationSelect(here, Some("Cafe Street"));
    var second;
    second, request := home.RefreshPlaces(cache, 1000, Err("offline"), 1000, LowDraws);
    assert second == first;
    CafeIsOneUnratedPlace();
    assert home.places.items == Normalize([Cafe], LowDraws);
    shown, ratingFilterOn := home.filteredPlaces, home.filterRating;
  }
}
