/**
 * Place discovery: the service-type table, the per-(bucket, service) result cache with a one-hour
 * lifetime, the normaliser that turns Overpass (OpenStreetMap) elements into place records, the
 * opening-hours reading and the photo placeholder lookup.
 *
 * The Overpass request itself is not made here: `FetchNearbyPlaces` reports the request it would
 * issue and takes the response as a parameter; the clock and `Math.random` are parameters too.
 */
module PlacesApi {
  import opened Wrappers
  import opened Seqs
  import opened JsText

  // ---------------------------------------------------------------- service types

  /** One entry of `SERVICE_TYPES`. */
  datatype ServiceConfig = ServiceConfig(osmTag: string, labelText: string, icon: string, query: string)

  /** `Object.keys(SERVICE_TYPES)`, in declaration order. */
  const ServiceKeys: seq<string> := ["restaurant", "medical", "charging"]

  /** `SERVICE_TYPES[key]`, `None` for a key the table does not have. */
  function ServiceConfigOf(key: string): (c: Option<ServiceConfig>)
    ensures c.Some? <==> key in ServiceKeys
    ensures c.Some? ==> c.value.query == "amenity=" + c.value.osmTag
  {
    if key == "restaurant" then
      Some(ServiceConfig("restaurant", "Restaurants", "\U{1F37D}\U{FE0F}", "amenity=restaurant"))
    else if key == "medical" then
      Some(ServiceConfig("pharmacy", "Medical Stores", "\U{2695}\U{FE0F}", "amenity=pharmacy"))
    else if key == "charging" then
      Some(ServiceConfig("charging_station", "EV Charging", "\U{26A1}", "amenity=charging_station"))
    else
      None
  }

  // ---------------------------------------------------------------- raw Overpass elements

  /** JavaScript truthiness of a number that may be missing (NaN is not modelled). */
  predicate Truthy(n: Option<real>) {
    n.Some? && n.value != 0.0
  }

  /** An element's free-form OSM tags. */
  type Tags = map<string, string>

  /** `tags[k]` is truthy: present and not the empty string. */
  predicate HasTag(tags: Tags, k: string) {
    k in tags && tags[k] != ""
  }

  /** `tags[k]`, `None` when the tag is absent. */
  function Tag(tags: Tags, k: string): Option<string> {
    if k in tags then Some(tags[k]) else None
  }

  /** `tags[a] || tags[b]` */
  function EitherTag(tags: Tags, a: string, b: string): (r: Option<string>)
    ensures HasTag(tags, a) ==> r == Some(tags[a])
    ensures !HasTag(tags, a) ==> r == Tag(tags, b)
  {
    if HasTag(tags, a) then Some(tags[a]) else Tag(tags, b)
  }

  datatype Center = Center(lat: Option<real>, lon: Option<real>)

  /** An element of the Overpass response: a node has its own `lat`/`lon`, a way or relation may carry a `center`. */
  datatype Element = Element(id: Option<int>, lat: Option<real>, lon: Option<real>, center: Option<Center>, tags: Option<Tags>)

  /** `element.tags && element.tags.name` */
  predicate HasName(e: Element) {
    e.tags.Some? && HasTag(e.tags.value, "name")
  }

  // ---------------------------------------------------------------- place records

  /** `element.id || `osm-${index}``: the OSM id when it is truthy, else the element's index. */
  datatype PlaceId = OsmId(id: int) | IndexId(index: nat)

  /** `geometry.location`: either coordinate may be missing before the final filter. */
  datatype Position = Position(lat: Option<real>, lng: Option<real>)

  /** A normalised place; `openNow` is `opening_hours.open_now`. */
  datatype Place = Place(
    placeId: PlaceId,
    name: string,
    vicinity: string,
    rating: Option<real>,
    userRatingsTotal: int,
    openNow: bool,
    location: Position,
    phone: Option<string>,
    website: Option<string>)

  /**
   * The values `Math.random()` returns while one element is mapped: the coin that decides whether
   * a rating exists, the rating's value, the rating count and the open-now coin.
   */
  datatype Draws = Draws(ratingCoin: real, ratingValue: real, countValue: real, openCoin: real)

  predicate IsUnitDraw(x: real) {
    0.0 <= x < 1.0
  }

  /** What `Math.random()` guarantees of each value: it lies in [0, 1). */
  predicate ValidDraws(d: Draws) {
    IsUnitDraw(d.ratingCoin) && IsUnitDraw(d.ratingValue) && IsUnitDraw(d.countValue) && IsUnitDraw(d.openCoin)
  }

  /** The coordinate read from an element: its own `lat`/`lon`, or its `center` when its own `lat` is falsy. */
  function ResolvePosition(e: Element): (pos: Position)
    ensures Truthy(e.lat) ==> pos == Position(e.lat, e.lon)
    ensures !Truthy(e.lat) && e.center.Some? ==> pos == Position(e.center.value.lat, e.center.value.lon)
    ensures !Truthy(e.lat) && e.center.None? ==> !Truthy(pos.lat)
  {
    if !Truthy(e.lat) && e.center.Some? then Position(e.center.value.lat, e.center.value.lon)
    else Position(e.lat, e.lon)
  }

  /** The final filter's test: both coordinates are truthy. */
  predicate IsLocated(p: Place) {
    Truthy(p.location.lat) && Truthy(p.location.lng)
  }

  /** `Boolean(part)` for a candidate address part: a non-empty string. */
  predicate IsPresent(o: Option<string>) {
    o.Some? && o.value != ""
  }

  /** The value of a candidate address part when it is present, as a list of zero or one. */
  function PresentPart(o: Option<string>): seq<string> {
    if IsPresent(o) then [o.value] else []
  }

  /** `city || suburb` */
  function Locality(tags: Tags): Option<string> {
    EitherTag(tags, "addr:city", "addr:suburb")
  }

  /** The values of present candidates. */
  function Values(present: seq<Option<string>>): (values: seq<string>)
    requires forall i :: 0 <= i < |present| ==> present[i].Some?
    ensures |values| == |present|
    ensures forall i :: 0 <= i < |present| ==> values[i] == present[i].value
  {
    seq(|present|, i requires 0 <= i < |present| => present[i].value)
  }

  lemma ValuesAppend(x: seq<Option<string>>, y: seq<Option<string>>)
    requires forall i :: 0 <= i < |x| ==> x[i].Some?
    requires forall i :: 0 <= i < |y| ==> y[i].Some?
    ensures Values(x + y) == Values(x) + Values(y)
  {
  }

  /**
   * `[street, housenumber, city || suburb].filter(Boolean)`: written as the present parts in turn,
   * which is that filter (`AddressPartsAreFilterBoolean`).
   */
  function AddressParts(tags: Tags): (parts: seq<string>)
    ensures forall i :: 0 <= i < |parts| ==> parts[i] != ""
    ensures |parts| <= 3
    ensures parts == [] <==>
      !(HasTag(tags, "addr:street") || HasTag(tags, "addr:housenumber") || HasTag(tags, "addr:city") || HasTag(tags, "addr:suburb"))
    ensures HasTag(tags, "addr:street") ==> parts[0] == tags["addr:street"]
    ensures HasTag(tags, "addr:city") ==> parts[|parts| - 1] == tags["addr:city"]
    ensures !HasTag(tags, "addr:city") && HasTag(tags, "addr:suburb") ==> parts[|parts| - 1] == tags["addr:suburb"]
  {
    PresentPart(Tag(tags, "addr:street")) + PresentPart(Tag(tags, "addr:housenumber")) + PresentPart(Locality(tags))
  }

  /** `[a, b, c].filter(Boolean)` is the present parts of `a`, `b` and `c` in turn. */
  lemma FilterBooleanOfThree(a: Option<string>, b: Option<string>, c: Option<string>)
    ensures Values(Filter(IsPresent, [a, b, c])) == PresentPart(a) + PresentPart(b) + PresentPart(c)
  {
    var ka, kb, kc := Kept(IsPresent, a), Kept(IsPresent, b), Kept(IsPresent, c);
    FilterOfThree(IsPresent, a, b, c);
    ValuesOfKept(a);
    ValuesOfKept(b);
    ValuesOfKept(c);
    ValuesAppend(ka, kb);
    ValuesAppend(ka + kb, kc);
  }

  lemma ValuesOfKept(o: Option<string>)
    ensures Values(Kept(IsPresent, o)) == PresentPart(o)
  {
  }

  /** The address parts are the values that `.filter(Boolean)` keeps of the three candidates. */
  lemma AddressPartsAreFilterBoolean(tags: Tags)
    ensures AddressParts(tags) == Values(Filter(IsPresent, [Tag(tags, "addr:street"), Tag(tags, "addr:housenumber"), Locality(tags)]))
  {
    FilterBooleanOfThree(Tag(tags, "addr:street"), Tag(tags, "addr:housenumber"), Locality(tags));
  }

  const AddressNotAvailable := "Address not available"

  /** `vicinity`: the address parts joined by ", ", or "Address not available" when there are none. */
  function Vicinity(tags: Tags): (v: string)
    ensures v != ""
    ensures AddressParts(tags) == [] ==> v == AddressNotAvailable
    ensures AddressParts(tags) != [] ==> v == Join(AddressParts(tags), ", ")
  {
    var joined := Join(AddressParts(tags), ", ");
    if joined != "" then joined else AddressNotAvailable
  }

  /** `isOpenNow`: a three-rule reading of the OSM `opening_hours` tag, not a parser of its grammar. */
  function IsOpenNow(hours: string): (open: bool)
    ensures hours == "" ==> !open
    ensures hours != "" && Includes(hours, "24/7") ==> open
    ensures !Includes(hours, "24/7") && Includes(ToLower(hours), "closed") ==> !open
    ensures hours != "" && !Includes(ToLower(hours), "closed") ==> open
  {
    if hours == "" then false
    else if Includes(hours, "24/7") then true
    else if Includes(ToLower(hours), "closed") then false
    else true
  }

  /** The map callback: one element, its index in the named list and its random draws, as a place record. */
  function ToPlace(e: Element, index: nat, d: Draws): (p: Place)
    ensures p.placeId.OsmId? <==> e.id.Some? && e.id.value != 0
    ensures p.placeId.OsmId? ==> p.placeId.id == e.id.value
    ensures p.placeId.IndexId? ==> p.placeId.index == index
    ensures HasName(e) ==> p.name == e.tags.value["name"]
    ensures !HasName(e) ==> p.name == "Unknown Place"
    ensures p.vicinity == Vicinity(e.tags.GetOr(map[])) && p.vicinity != ""
    ensures p.rating.Some? <==> d.ratingCoin > 0.3
    ensures p.rating.Some? ==> p.rating.value == 3.5 + d.ratingValue * 1.5
    ensures p.userRatingsTotal == (d.countValue * 500.0).Floor + 10
    ensures HasName(e) && HasTag(e.tags.value, "opening_hours") ==> p.openNow == IsOpenNow(e.tags.value["opening_hours"])
    ensures !HasTag(e.tags.GetOr(map[]), "opening_hours") ==> p.openNow == (d.openCoin > 0.3)
    ensures p.location == ResolvePosition(e)
    ensures p.phone == EitherTag(e.tags.GetOr(map[]), "phone", "contact:phone")
    ensures p.website == EitherTag(e.tags.GetOr(map[]), "website", "contact:website")
  {
    var tags := e.tags.GetOr(map[]);
    Place(
      if e.id.Some? && e.id.value != 0 then OsmId(e.id.value) else IndexId(index),
      if HasTag(tags, "name") then tags["name"] else "Unknown Place",
      Vicinity(tags),
      if d.ratingCoin > 0.3 then Some(3.5 + d.ratingValue * 1.5) else None,
      (d.countValue * 500.0).Floor + 10,
      if HasTag(tags, "opening_hours") then IsOpenNow(tags["opening_hours"]) else d.openCoin > 0.3,
      ResolvePosition(e),
      EitherTag(tags, "phone", "contact:phone"),
      EitherTag(tags, "website", "contact:website"))
  }

  /** The elements that pass the name filter. */
  function Named(elements: seq<Element>): seq<Element> {
    Filter(HasName, elements)
  }

  /** The named elements mapped to place records; `draws(k)` are the random values of the k-th one. */
  function Candidates(elements: seq<Element>, draws: nat -> Draws): (c: seq<Place>)
    ensures |c| == |Named(elements)|
  {
    var named := Named(elements);
    seq(|named|, k requires 0 <= k < |named| => ToPlace(named[k], k, draws(k)))
  }

  /** The filter/map/filter chain over `response.data.elements`. */
  function Normalize(elements: seq<Element>, draws: nat -> Draws): (places: seq<Place>)
    ensures |places| <= |elements|
    ensures forall i :: 0 <= i < |places| ==> IsLocated(places[i])
    ensures IsSubsequence(places, Candidates(elements, draws))
  {
    Filter(IsLocated, Candidates(elements, draws))
  }

  /** Every normalised place is the record of a named element: it has that element's name and a non-empty vicinity. */
  lemma NormalizeProvenance(elements: seq<Element>, draws: nat -> Draws, p: Place)
    requires p in Normalize(elements, draws)
    ensures exists k :: 0 <= k < |Named(elements)| && p == ToPlace(Named(elements)[k], k, draws(k))
    ensures exists e :: e in elements && HasName(e) && p.name == e.tags.value["name"]
    ensures p.name != "" && p.vicinity != "" && IsLocated(p)
  {
    var named := Named(elements);
    var candidates := Candidates(elements, draws);
    assert p in candidates;
    var k :| 0 <= k < |candidates| && candidates[k] == p;
    assert p == ToPlace(named[k], k, draws(k));
    assert named[k] in elements && HasName(named[k]);
  }

  /** Conversely, the record of every named element whose coordinate resolves is kept. */
  lemma NormalizeComplete(elements: seq<Element>, draws: nat -> Draws, k: nat)
    requires k < |Named(elements)|
    requires Truthy(ResolvePosition(Named(elements)[k]).lat) && Truthy(ResolvePosition(Named(elements)[k]).lng)
    ensures ToPlace(Named(elements)[k], k, draws(k)) in Normalize(elements, draws)
  {
    var candidates := Candidates(elements, draws);
    assert candidates[k] == ToPlace(Named(elements)[k], k, draws(k));
  }

  /**
   * Where a kept place's coordinate comes from: the element's own pair when its own latitude is
   * truthy (its longitude must then be truthy too: the centre is not consulted), else the centre.
   */
  lemma KeptCoordinateSource(e: Element, index: nat, d: Draws)
    requires IsLocated(ToPlace(e, index, d))
    ensures Truthy(e.lat) ==> ToPlace(e, index, d).location == Position(e.lat, e.lon) && Truthy(e.lon)
    ensures !Truthy(e.lat) ==> e.center.Some? && ToPlace(e, index, d).location == Position(e.center.value.lat, e.center.value.lon)
  {
  }

  /** An element whose own latitude is falsy and that has no centre is dropped; so is one lying exactly on the equator. */
  lemma UnresolvedElementDropped(e: Element, index: nat, d: Draws)
    requires !Truthy(e.lat) && e.center.None?
    ensures !IsLocated(ToPlace(e, index, d))
  {
  }

  /** With the guarantees of `Math.random()`, a rating lies in [3.5, 5) and the rating count in [10, 509]. */
  lemma SynthesizedRanges(e: Element, index: nat, d: Draws)
    requires ValidDraws(d)
    ensures ToPlace(e, index, d).rating.Some? ==> 3.5 <= ToPlace(e, index, d).rating.value < 5.0
    ensures 10 <= ToPlace(e, index, d).userRatingsTotal <= 509
  {
    var scaled := d.countValue * 500.0;
    assert 0.0 <= scaled < 500.0;
    assert scaled.Floor as real <= scaled < scaled.Floor as real + 1.0;
  }

  /** `isOpenNow` does not depend on letter case: "24/7" has no letters and "closed" is matched case-insensitively. */
  lemma {:induction false} IsOpenNowIgnoresCase(hours: string)
    ensures IsOpenNow(ToLower(hours)) == IsOpenNow(hours)
  {
    IncludesIgnoresCase(hours, "24/7");
    ToLowerIdempotent(hours);
  }

  /** "24/7" is checked first, so it wins over "closed". */
  lemma RoundTheClockWins()
    ensures IsOpenNow("closed; 24/7")
  {
    assert OccursAt("closed; 24/7", "24/7", 8);
  }

  /** "closed" is found whatever its case. */
  lemma ClosedInCapitals()
    ensures !IsOpenNow("Su CLOSED")
  {
    NotIncludedWithoutFirstChar("Su CLOSED", "24/7");
    var lower := ToLower("Su CLOSED");
    assert lower[3..9] == "closed" by {
      assert "Su CLOSED"[3..9] == "CLOSED";
    }
    assert OccursAt(lower, "closed", 3);
  }

  // ---------------------------------------------------------------- photo placeholder

  /** `placeholders`, keyed by OSM tag. */
  const PlaceholderUrls: map<string, string> := map[
    "restaurant" := "https://images.unsplash.com/photo-1517248135467-4c7edcad34c4?w=400&h=300&fit=crop",
    "pharmacy" := "https://images.unsplash.com/photo-1576602976047-174e57a47881?w=400&h=300&fit=crop",
    "charging_station" := "https://images.unsplash.com/photo-1593941707882-a5bba14938c7?w=400&h=300&fit=crop"
  ]

  const NoImageUrl := "https://via.placeholder.com/400x300?text=No+Image"

  /** The lower-cased vicinity contains the lower-cased label of service `key`. */
  predicate LabelMatches(vicinity: string, key: string) {
    match ServiceConfigOf(key)
    case Some(c) => Includes(ToLower(vicinity), ToLower(c.labelText))
    case None => false
  }

  /** `keys.find(key => vicinity.toLowerCase().includes(label(key).toLowerCase()))` */
  function FindServiceByLabel(keys: seq<string>, vicinity: string): (r: Option<string>)
    ensures r.Some? ==> r.value in keys && LabelMatches(vicinity, r.value)
    ensures r.None? <==> forall i :: 0 <= i < |keys| ==> !LabelMatches(vicinity, keys[i])
    ensures keys != [] && LabelMatches(vicinity, keys[0]) ==> r == Some(keys[0])
    ensures r.Some? ==> exists i :: 0 <= i < |keys| && keys[i] == r.value && forall j :: 0 <= j < i ==> !LabelMatches(vicinity, keys[j])
  {
    if keys == [] then None
    else if LabelMatches(vicinity, keys[0]) then Some(keys[0])
    else FindServiceByLabel(keys[1..], vicinity)
  }

  /** `getPlacePhotoUrl`: the placeholder of the first service whose label the vicinity mentions, restaurants by default. */
  function PlacePhotoUrl(place: Place): (url: string)
    ensures url != NoImageUrl
    ensures url in PlaceholderUrls.Values
    ensures FindServiceByLabel(ServiceKeys, place.vicinity).None? ==> url == PlaceholderUrls["restaurant"]
    ensures FindServiceByLabel(ServiceKeys, place.vicinity).Some? ==>
      url == PlaceholderUrls[ServiceConfigOf(FindServiceByLabel(ServiceKeys, place.vicinity).value).value.osmTag]
  {
    var key := FindServiceByLabel(ServiceKeys, place.vicinity).GetOr("restaurant");
    var tag := ServiceConfigOf(key).value.osmTag;
    if tag in PlaceholderUrls then PlaceholderUrls[tag] else NoImageUrl
  }

  // ---------------------------------------------------------------- cache

  const CacheDuration: int := 60 * 60 * 1000
  const SearchRadius: int := 3000
  const FetchFailedMessage := "Failed to fetch places. Please try again."

  datatype LatLng = LatLng(lat: real, lng: real)

  /**
   * The text `x.toFixed(3)`, identified by its sign and its digits: the magnitude of `x` in
   * thousandths, rounded half up. A small negative number gives "-0.000", distinct from "0.000".
   */
  datatype Fixed3 = Fixed3(negative: bool, thousandths: int)

  function ToFixed3(x: real): (f: Fixed3)
    ensures f.negative <==> x < 0.0
    ensures f.thousandths >= 0
  {
    var magnitude := if x < 0.0 then -x else x;
    Fixed3(x < 0.0, (magnitude * 1000.0 + 0.5).Floor)
  }

  /** The number the text of a `Fixed3` denotes. */
  function Fixed3Value(f: Fixed3): real {
    (if f.negative then -1.0 else 1.0) * (f.thousandths as real / 1000.0)
  }

  /** The bucket of a coordinate lies within half a thousandth of a degree of it (about 55 m of latitude). */
  lemma BucketWithinHalfThousandth(x: real)
    ensures -0.0005 <= Fixed3Value(ToFixed3(x)) - x <= 0.0005
  {
    var magnitude := if x < 0.0 then -x else x;
    var scaled := magnitude * 1000.0 + 0.5;
    assert scaled.Floor as real <= scaled < scaled.Floor as real + 1.0;
  }

  /** `${lat.toFixed(3)},${lng.toFixed(3)}-${serviceType}`; that text determines its three parts. */
  datatype CacheKey = CacheKey(lat: Fixed3, lng: Fixed3, serviceType: string)

  function CacheKeyOf(location: LatLng, serviceType: string): (key: CacheKey)
    ensures key.serviceType == serviceType
    ensures -0.0005 <= Fixed3Value(key.lat) - location.lat <= 0.0005
    ensures -0.0005 <= Fixed3Value(key.lng) - location.lng <= 0.0005
  {
    BucketWithinHalfThousandth(location.lat);
    BucketWithinHalfThousandth(location.lng);
    CacheKey(ToFixed3(location.lat), ToFixed3(location.lng), serviceType)
  }

  /** Two locations share a key exactly when both coordinates round alike and the service type is the same. */
  lemma CacheKeySharing(a: LatLng, b: LatLng, s: string, t: string)
    ensures CacheKeyOf(a, s) == CacheKeyOf(b, t) <==>
      ToFixed3(a.lat) == ToFixed3(b.lat) && ToFixed3(a.lng) == ToFixed3(b.lng) && s == t
  {
  }

  /** A JavaScript array of places; two `PlaceList` references are equal exactly when the arrays are the same object. */
  class PlaceList {
    const items: seq<Place>

    constructor(items: seq<Place>)
      ensures this.items == items
    {
      this.items := items;
    }
  }

  datatype CacheEntry = CacheEntry(results: PlaceList, timestamp: int)

  /** `isCacheValid`: an entry exists and is younger than one hour. */
  function IsCacheValid(entry: Option<CacheEntry>, now: int): (valid: bool)
    ensures valid ==> entry.Some?
    ensures entry.Some? ==> (valid <==> now < entry.value.timestamp + CacheDuration)
  {
    entry.Some? && now - entry.value.timestamp < CacheDuration
  }

  /** The lifetime is strict: an entry is served for less than one hour after it was stored, and never after. */
  lemma CacheLifetime(results: PlaceList, storedAt: int, now: int)
    ensures IsCacheValid(Some(CacheEntry(results, storedAt)), now) <==> now < storedAt + CacheDuration
    ensures !IsCacheValid(Some(CacheEntry(results, storedAt)), storedAt + CacheDuration)
    ensures !IsCacheValid(None, now)
  {
  }

  /** The query `FetchNearbyPlaces` sends to Overpass: every node, way and relation with `amenity=osmTag` within `radius` metres. */
  datatype OverpassRequest = OverpassRequest(osmTag: string, radius: int, around: LatLng)

  /** The module-level `cache` object. */
  class PlacesCache {
    var entries: map<CacheKey, CacheEntry>

    constructor()
      ensures entries == map[]
    {
      entries := map[];
    }

    /** `cache[key]` */
    function Lookup(key: CacheKey): Option<CacheEntry>
      reads this
    {
      if key in entries then Some(entries[key]) else None
    }

    /**
     * What one `fetchNearbyPlaces` call does, given the cache before it and the outcome `r` and
     * `request` it reported: a valid entry is served with no request and no change; otherwise the
     * request for the service's tag is issued (an unknown service type fails before it), a failure
     * leaves the cache alone, and a response is normalised into a new array stored with the time
     * the response arrived.
     */
    twostate predicate FetchedAsSpecified(
      location: LatLng, serviceType: string, now: int, response: Result<seq<Element>, string>,
      receivedAt: int, draws: nat -> Draws, new r: Result<PlaceList, string>, new request: Option<OverpassRequest>)
      reads this
    {
      var key := CacheKeyOf(location, serviceType);
      var config := ServiceConfigOf(serviceType);
      if IsCacheValid(old(Lookup(key)), now) then
        && r == Ok(old(entries)[key].results)
        && request == None
        && entries == old(entries)
      else
        && request == (if config.Some? then Some(OverpassRequest(config.value.osmTag, SearchRadius, location)) else None)
        && if request.Some? && response.Ok? then
             && r.Ok?
             && fresh(r.value)
             && r.value.items == Normalize(response.value, draws)
             && entries == old(entries)[key := CacheEntry(r.value, receivedAt)]
           else
             && r == Err(FetchFailedMessage)
             && entries == old(entries)
    }

    /**
     * `fetchNearbyPlaces(location, serviceType)`. `now` is the clock when the call starts,
     * `receivedAt` the clock when the response has arrived, `response` the Overpass outcome and
     * `draws(k)` the random values used for the k-th named element.
     */
    method FetchNearbyPlaces(
      location: LatLng, serviceType: string, now: int, response: Result<seq<Element>, string>,
      receivedAt: int, draws: nat -> Draws)
      returns (r: Result<PlaceList, string>, request: Option<OverpassRequest>)
      modifies this
      ensures FetchedAsSpecified(location, serviceType, now, response, receivedAt, draws, r, request)
    {
      var key := CacheKeyOf(location, serviceType);
      var cached := Lookup(key);
      if IsCacheValid(cached, now) {
        return Ok(cached.value.results), None;
      }
      var config := ServiceConfigOf(serviceType);
      if config.None? {
        // reading `osmTag` of an undefined entry throws inside the `try`
        return Err(FetchFailedMessage), None;
      }
      request := Some(OverpassRequest(config.value.osmTag, SearchRadius, location));
      if response.Err? {
        return Err(FetchFailedMessage), request;
      }
      var places := new PlaceList(Normalize(response.value, draws));
      entries := entries[key := CacheEntry(places, receivedAt)];
      r := Ok(places);
    }

    /** `clearCache`: deletes every key, one at a time. */
    method ClearCache()
      modifies this
      ensures entries == map[]
    {
      var keys := entries.Keys;
      while keys != {}
        invariant entries.Keys == keys
        decreases keys
      {
        var k :| k in keys;
        entries := entries - {k};
        keys := keys - {k};
      }
      assert entries == map[];
    }
  }

  /**
   * Two calls for the same location and service within the hour after the first response arrived
   * make one request: the second returns the very same array without consulting the network. A
   * third call once the hour is over issues a new request.
   */
  method RepeatedFetch(
    location: LatLng, serviceType: string, elements: seq<Element>, draws: nat -> Draws,
    t0: int, t1: int, t2: int, t3: int)
    returns (first: Result<PlaceList, string>, second: Result<PlaceList, string>,
             firstRequest: Option<OverpassRequest>, secondRequest: Option<OverpassRequest>,
             thirdRequest: Option<OverpassRequest>)
    requires serviceType in ServiceKeys
    requires t2 - t1 < CacheDuration && t3 - t1 >= CacheDuration
    ensures first.Ok? && first.value.items == Normalize(elements, draws)
    ensures firstRequest.Some? && firstRequest.value.osmTag == ServiceConfigOf(serviceType).value.osmTag
    ensures second == first && secondRequest.None?
    ensures thirdRequest == firstRequest
  {
    var cache := new PlacesCache();
    first, firstRequest := cache.FetchNearbyPlaces(location, serviceType, t0, Ok(elements), t1, draws);
    second, secondRequest := cache.FetchNearbyPlaces(location, serviceType, t2, Err("offline"), t2, draws);
    var third;
    third, thirdRequest := cache.FetchNearbyPlaces(location, serviceType, t3, Err("offline"), t3, draws);
  }
}
