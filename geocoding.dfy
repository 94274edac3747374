/**
 * The geocoding client over Nominatim: the forward search with its input check and result
 * mapping, the reverse lookup with its fallback name, and the recent-searches list kept in one
 * browser-storage key. The HTTP calls are parameters: `SearchLocation` reports the request it
 * would send and takes the response as an argument; `parseFloat` is an injected function.
 */
module Geocoding {
  import opened Wrappers
  import opened Seqs
  import opened JsText

  /** A search result: `{display_name, lat, lng, type, address}`. */
  datatype Location = Location(displayName: string, lat: real, lng: real, kind: string, address: Option<map<string, string>>)

  /** One record of the search response, its coordinates still numeric strings. */
  datatype RawResult = RawResult(displayName: string, lat: string, lon: string, kind: string, address: Option<map<string, string>>)

  /** The query parameters of the search request. */
  datatype SearchParams = SearchParams(q: string, format: string, limit: int, addressDetails: int)

  /** The request a search sent, if any, and how its promise settled. */
  datatype SearchOutcome = SearchOutcome(request: Option<SearchParams>, result: Result<seq<Location>, string>)

  const MinQueryLength := 3
  const QueryTooShortMessage := "Please enter at least 3 characters"
  const SearchFailedMessage := "Failed to search location. Please try again."
  const UnknownLocation := "Unknown location"
  const MaxRecentSearches := 5

  /** The opposite of `!query || query.trim().length < 3`, with the length counted in UTF-16 code units. */
  predicate IsSearchable(query: Option<string>) {
    query.Some? && query.value != "" && Utf16Length(Trim(query.value)) >= MinQueryLength
  }

  /** Two characters beyond the Basic Multilingual Plane make four code units, enough for a search. */
  lemma TwoAstralCharsAreSearchable()
    ensures IsSearchable(Some("\U{1F600}\U{1F600}"))
  {
    var q := "\U{1F600}\U{1F600}";
    assert TrimStart(q) == q;
    assert TrimEnd(q) == q;
    assert Utf16Length(q[1..]) == 2;
  }

  /** The record built from one search result: `lon` becomes `lng` and both coordinates are parsed. */
  function ToLocation(raw: RawResult, parseFloat: string -> real): (loc: Location)
    ensures loc.displayName == raw.displayName && loc.kind == raw.kind && loc.address == raw.address
    ensures loc.lat == parseFloat(raw.lat) && loc.lng == parseFloat(raw.lon)
  {
    Location(raw.displayName, parseFloat(raw.lat), parseFloat(raw.lon), raw.kind, raw.address)
  }

  /**
   * `searchLocation(query)`: a missing query or one shorter than three characters once trimmed is
   * rejected before any request; otherwise the untrimmed query is sent and every result is
   * mapped, in order, or any failure becomes one generic message.
   */
  function SearchLocation(query: Option<string>, response: Result<seq<RawResult>, string>, parseFloat: string -> real): (out: SearchOutcome)
    ensures out.request.None? <==> !IsSearchable(query)
    ensures !IsSearchable(query) ==> out.result == Err(QueryTooShortMessage)
    ensures IsSearchable(query) ==> out.request == Some(SearchParams(query.value, "json", 5, 1))
    ensures IsSearchable(query) && response.Err? ==> out.result == Err(SearchFailedMessage)
    ensures IsSearchable(query) && response.Ok? ==>
      && out.result.Ok?
      && |out.result.value| == |response.value|
      && forall k :: 0 <= k < |response.value| ==> out.result.value[k] == ToLocation(response.value[k], parseFloat)
  {
    if !IsSearchable(query) then
      SearchOutcome(None, Err(QueryTooShortMessage))
    else
      var request := Some(SearchParams(query.value, "json", 5, 1));
      match response
      case Err(_) => SearchOutcome(request, Err(SearchFailedMessage))
      case Ok(raws) =>
        SearchOutcome(request, Ok(seq(|raws|, k requires 0 <= k < |raws| => ToLocation(raws[k], parseFloat))))
  }

  /** A query of whitespace only is rejected before any request. */
  lemma BlankQuerySendsNothing(query: string, response: Result<seq<RawResult>, string>, parseFloat: string -> real)
    requires forall k :: 0 <= k < |query| ==> IsJsWhitespace(query[k])
    ensures SearchLocation(Some(query), response, parseFloat) == SearchOutcome(None, Err(QueryTooShortMessage))
  {
  }

  /**
   * `reverseGeocode(location)`: the `display_name` of the response (which may itself be missing),
   * or "Unknown location" on any failure; it never rejects.
   */
  function ReverseGeocode(response: Result<Option<string>, string>): (name: Option<string>)
    ensures response.Err? ==> name == Some(UnknownLocation)
    ensures response.Ok? ==> name == response.value
  {
    match response
    case Ok(displayName) => displayName
    case Err(_) => Some(UnknownLocation)
  }

  // ---------------------------------------------------------------- recent searches

  /** The storage key `recent_location_searches`: absent, holding text that does not parse, or holding a list. */
  datatype StorageSlot = Missing | Corrupt | Stored(items: seq<Location>)

  /** `getRecentSearches()`: the stored list, or `[]` when the key is absent or its content does not parse. */
  function ReadRecent(slot: StorageSlot): (recent: seq<Location>)
    ensures slot.Stored? ==> recent == slot.items
    ensures !slot.Stored? ==> recent == []
  {
    if slot.Stored? then slot.items else []
  }

  /** No two entries share a `display_name`. */
  ghost predicate UniqueNames(s: seq<Location>) {
    forall i, j :: 0 <= i < j < |s| ==> s[i].displayName != s[j].displayName
  }

  function Min(a: int, b: int): int {
    if a <= b then a else b
  }

  /**
   * The list `saveRecentSearch(loc)` writes: `loc` in front of the older entries that have another
   * `display_name`, cut to five.
   */
  function PushRecent(recent: seq<Location>, loc: Location): (r: seq<Location>)
    ensures 1 <= |r| <= MaxRecentSearches && r[0] == loc
    ensures forall i :: 1 <= i < |r| ==> r[i].displayName != loc.displayName && r[i] in recent
  {
    var filtered := Filter((item: Location) => item.displayName != loc.displayName, recent);
    var withNew := [loc] + filtered;
    withNew[..Min(|withNew|, MaxRecentSearches)]
  }

  /** The older entries that survive a save keep their relative order. */
  lemma PushRecentKeepsOrder(recent: seq<Location>, loc: Location)
    ensures IsSubsequence(PushRecent(recent, loc)[1..], recent)
  {
    var filtered := Filter((item: Location) => item.displayName != loc.displayName, recent);
    var r := PushRecent(recent, loc);
    assert r[1..] == filtered[..|r| - 1];
    PrefixIsSubsequence(filtered, recent, |r| - 1);
  }

  /** A unique list stays unique without its head, and the head's name is not in the rest. */
  lemma UniqueTail(s: seq<Location>)
    requires s != [] && UniqueNames(s)
    ensures UniqueNames(s[1..]) && IsNewName(s[1..], s[0])
  {
    forall i, j | 0 <= i < j < |s| - 1 ensures s[1..][i].displayName != s[1..][j].displayName {
      assert s[1..][i] == s[i + 1] && s[1..][j] == s[j + 1];
    }
    forall i | 0 <= i < |s| - 1 ensures s[1..][i].displayName != s[0].displayName {
      assert s[1..][i] == s[i + 1];
    }
  }

  /** Putting a new name in front of a unique list keeps it unique. */
  lemma UniqueCons(x: Location, t: seq<Location>)
    requires UniqueNames(t) && IsNewName(t, x)
    ensures UniqueNames([x] + t)
  {
    var r := [x] + t;
    forall i, j | 0 <= i < j < |r| ensures r[i].displayName != r[j].displayName {
      assert r[j] == t[j - 1];
      if i > 0 {
        assert r[i] == t[i - 1];
      }
    }
  }

  /** A name new to `s` is new to any list drawn from `s`. */
  lemma NewToDrawnFrom(t: seq<Location>, s: seq<Location>, x: Location)
    requires IsNewName(s, x)
    requires forall i :: 0 <= i < |t| ==> t[i] in s
    ensures IsNewName(t, x)
  {
    forall i | 0 <= i < |t| ensures t[i].displayName != x.displayName {
      var m :| 0 <= m < |s| && s[m] == t[i];
    }
  }

  lemma {:induction false} FilterKeepsNamesUnique(keep: Location -> bool, s: seq<Location>)
    requires UniqueNames(s)
    ensures UniqueNames(Filter(keep, s))
    decreases |s|
  {
    if s != [] {
      UniqueTail(s);
      FilterKeepsNamesUnique(keep, s[1..]);
      if keep(s[0]) {
        var tail := Filter(keep, s[1..]);
        NewToDrawnFrom(tail, s[1..], s[0]);
        UniqueCons(s[0], tail);
      }
    }
  }

  /** Saving keeps the names in the list unique. */
  lemma PushRecentKeepsNamesUnique(recent: seq<Location>, loc: Location)
    requires UniqueNames(recent)
    ensures UniqueNames(PushRecent(recent, loc))
  {
    var keep := (item: Location) => item.displayName != loc.displayName;
    var filtered := Filter(keep, recent);
    FilterKeepsNamesUnique(keep, recent);
    assert IsNewName(filtered, loc) by {
      forall i | 0 <= i < |filtered| ensures filtered[i].displayName != loc.displayName {
        assert keep(filtered[i]);
      }
    }
    UniqueCons(loc, filtered);
    PrefixKeepsNamesUnique([loc] + filtered, Min(|filtered| + 1, MaxRecentSearches));
  }

  /** A new name is added in front and the list grows by one, up to five. */
  lemma PushRecentNewName(recent: seq<Location>, loc: Location)
    requires IsNewName(recent, loc)
    ensures PushRecent(recent, loc) == ([loc] + recent)[..Min(|recent| + 1, MaxRecentSearches)]
  {
    FilterKeepsAll((item: Location) => item.displayName != loc.displayName, recent);
  }

  /** Re-selecting a name already in the list moves it to the front: the list does not grow. */
  lemma PushRecentKnownName(recent: seq<Location>, loc: Location, i: nat)
    requires i < |recent| && recent[i].displayName == loc.displayName
    ensures |PushRecent(recent, loc)| <= |recent|
    ensures PushRecent(recent, loc)[0] == loc
  {
    FilterDropsRejected((item: Location) => item.displayName != loc.displayName, recent, recent[i]);
  }

  /**
   * In a list with unique names, saving a location whose name is at index `i` moves it to the front:
   * the other entries stay, in their order, and the list keeps its length up to five.
   */
  lemma PushRecentMovesToFront(recent: seq<Location>, loc: Location, i: nat)
    requires UniqueNames(recent) && i < |recent| && recent[i].displayName == loc.displayName
    ensures PushRecent(recent, loc) == ([loc] + recent[..i] + recent[i + 1..])[..Min(|recent|, MaxRecentSearches)]
  {
    var keep := (item: Location) => item.displayName != loc.displayName;
    forall j | 0 <= j < |recent| && j != i ensures keep(recent[j]) {
      if j < i {
        assert recent[j].displayName != recent[i].displayName;
      } else {
        assert recent[i].displayName != recent[j].displayName;
      }
    }
    FilterDropsOne(keep, recent, i);
    assert [loc] + recent[..i] + recent[i + 1..] == [loc] + (recent[..i] + recent[i + 1..]);
  }

  /** `loc`'s name is not in `recent`. */
  predicate IsNewName(recent: seq<Location>, loc: Location) {
    forall i :: 0 <= i < |recent| ==> recent[i].displayName != loc.displayName
  }

  /** The list after saving `locs` in order, starting from an empty storage. */
  function SaveAll(locs: seq<Location>): seq<Location> {
    if locs == [] then [] else PushRecent(SaveAll(locs[..|locs| - 1]), locs[|locs| - 1])
  }

  /** `locs` with the most recent (last) first. */
  function NewestFirst(locs: seq<Location>): (r: seq<Location>)
    ensures |r| == |locs|
    ensures forall i :: 0 <= i < |locs| ==> r[i] == locs[|locs| - 1 - i]
  {
    if locs == [] then [] else [locs[|locs| - 1]] + NewestFirst(locs[..|locs| - 1])
  }

  lemma PrefixKeepsNamesUnique(s: seq<Location>, n: nat)
    requires n <= |s| && UniqueNames(s)
    ensures UniqueNames(s[..n])
  {
    forall i, j | 0 <= i < j < n ensures s[..n][i].displayName != s[..n][j].displayName {
      assert s[..n][i] == s[i] && s[..n][j] == s[j];
    }
  }

  /** Cutting to `k` and then putting one in front and cutting to five is putting one in front and cutting to five. */
  lemma ConsThenCut(x: Location, s: seq<Location>)
    ensures ([x] + s[..Min(|s|, MaxRecentSearches)])[..Min(Min(|s|, MaxRecentSearches) + 1, MaxRecentSearches)]
         == ([x] + s)[..Min(|s| + 1, MaxRecentSearches)]
  {
  }

  /** Saving a new name onto the last five of `older`, newest first, keeps the last five of `x` after them. */
  lemma PushOntoNewest(newest: seq<Location>, x: Location)
    requires IsNewName(newest[..Min(|newest|, MaxRecentSearches)], x)
    ensures PushRecent(newest[..Min(|newest|, MaxRecentSearches)], x) == ([x] + newest)[..Min(|newest| + 1, MaxRecentSearches)]
  {
    PushRecentNewName(newest[..Min(|newest|, MaxRecentSearches)], x);
    ConsThenCut(x, newest);
  }

  /** Saving distinct names one after another keeps the last five, most recent first. */
  lemma {:induction false} SavesOfDistinctNames(locs: seq<Location>)
    requires UniqueNames(locs)
    ensures SaveAll(locs) == NewestFirst(locs)[..Min(|locs|, MaxRecentSearches)]
    decreases |locs|
  {
    if locs != [] {
      var n := |locs|;
      var older := locs[..n - 1];
      var x := locs[n - 1];
      PrefixKeepsNamesUnique(locs, n - 1);
      SavesOfDistinctNames(older);
      var newest := NewestFirst(older);
      LastNameIsNew(locs);
      PushOntoNewest(newest, x);
      assert SaveAll(locs) == PushRecent(SaveAll(older), x);
      assert NewestFirst(locs) == [x] + newest;
    }
  }

  /** With unique names, the last name saved is not among the five saved before it. */
  lemma LastNameIsNew(locs: seq<Location>)
    requires locs != [] && UniqueNames(locs)
    ensures IsNewName(NewestFirst(locs[..|locs| - 1])[..Min(|locs| - 1, MaxRecentSearches)], locs[|locs| - 1])
  {
    var n := |locs|;
    var before := NewestFirst(locs[..n - 1])[..Min(n - 1, MaxRecentSearches)];
    forall i | 0 <= i < |before| ensures before[i].displayName != locs[n - 1].displayName {
      assert before[i] == locs[n - 2 - i];
    }
  }

  /** Six saves of distinct names keep the last five, most recent first. */
  lemma SixDistinctSaves(a: Location, b: Location, c: Location, d: Location, e: Location, f: Location)
    requires UniqueNames([a, b, c, d, e, f])
    ensures SaveAll([a, b, c, d, e, f]) == [f, e, d, c, b]
  {
    SavesOfDistinctNames([a, b, c, d, e, f]);
  }

  /** The browser storage holding the recent-searches key. */
  class RecentSearchStore {
    var slot: StorageSlot

    constructor(slot: StorageSlot)
      ensures this.slot == slot
    {
      this.slot := slot;
    }

    /** What a list written by `SaveRecentSearch` satisfies. */
    ghost predicate WellFormed()
      reads this
    {
      slot.Stored? ==> |slot.items| <= MaxRecentSearches && UniqueNames(slot.items)
    }

    /** `getRecentSearches()`; it never fails. */
    method GetRecentSearches() returns (recent: seq<Location>)
      ensures recent == ReadRecent(slot)
    {
      match slot
      case Stored(items) => recent := items;
      case _ => recent := [];
    }

    /**
     * `saveRecentSearch(loc)`: filter out the same name, `unshift`, keep five, write. `writeFails`
     * says that `setItem` throws (storage full or denied); the error is swallowed and storage is
     * left as it was.
     */
    method SaveRecentSearch(loc: Location, writeFails: bool)
      modifies this
      ensures writeFails ==> slot == old(slot)
      ensures !writeFails ==> slot == Stored(PushRecent(ReadRecent(old(slot)), loc))
      ensures !writeFails ==> slot.items[0] == loc && |slot.items| <= MaxRecentSearches
      ensures old(WellFormed()) ==> WellFormed()
    {
      var recent := GetRecentSearches();
      var filtered := Filter((item: Location) => item.displayName != loc.displayName, recent);
      filtered := [loc] + filtered;
      var trimmed := filtered[..Min(|filtered|, MaxRecentSearches)];
      if !writeFails {
        slot := Stored(trimmed);
        if old(WellFormed()) {
          PushRecentKeepsNamesUnique(recent, loc);
        }
      }
    }

    /** `clearRecentSearches()`: removes the key, after which `getRecentSearches()` returns `[]`. */
    method ClearRecentSearches()
      modifies this
      ensures slot == Missing && ReadRecent(slot) == []
    {
      slot := Missing;
    }
  }
}
