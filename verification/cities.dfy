/**
 * City selection: which feed `setCity` fetches, the fall-back to the default
 * city, the city id read back from the URL hash, and the check `loadCities`
 * applies to the city list.
 *
 * Network outcomes are an input: `feeds(url)` is `None` when `$.getJSON(url)`
 * fails and the parsed feed otherwise.
 */
module Cities {
  import opened Js
  import opened Text

  const DEFAULT_CITY_ID := "karlsruhe"
  const CITY_LIST_API_URL := "cities/cities.json"

  /** The feed `setCity` requests for a city id. */
  function FeedUrl(id: string): (url: string)
    ensures |url| == |id| + 12
  {
    "cities/" + id + ".json"
  }

  /** The city id can be read back from its feed URL, so distinct cities have distinct feeds. */
  lemma FeedUrlReadsBack(id: string, other: string)
    ensures FeedUrl(id)[7..|FeedUrl(id)| - 5] == id
    ensures FeedUrl(id) == FeedUrl(other) ==> id == other
  {
    assert FeedUrl(id)[7..|FeedUrl(id)| - 5] == id;
    assert FeedUrl(other)[7..|FeedUrl(other)| - 5] == other;
  }

  /** A city's feed URL collides with the city list exactly for the id "cities". */
  lemma FeedUrlIsCityList(id: string)
    ensures FeedUrl(id) == CITY_LIST_API_URL <==> id == "cities"
  {
    if FeedUrl(id) == CITY_LIST_API_URL {
      assert |id| == 6;
      assert id == FeedUrl(id)[7..13];
    }
  }

  /** Where one call of `setCity` ends. */
  datatype Landing =
    | Loaded(id: string, createNewHistoryEntry: bool)  // the success handler runs for `id`
    | GaveUp                                           // the default city's own feed failed
    | ReferenceError(name: string)                     // an undeclared identifier was read

  /** The feeds one call requests, in order, and where it ends. */
  datatype Trace = Trace(fetched: seq<string>, landing: Landing)

  /** `cityID || DEFAULT_CITY_ID` for a string id. */
  function OrDefault(cityID: string): (id: string)
    ensures id != "" && (cityID != "" ==> id == cityID)
  {
    if cityID == "" then DEFAULT_CITY_ID else cityID
  }

  function Rank(cityID: string): nat
  {
    if OrDefault(cityID) == DEFAULT_CITY_ID then 0 else 1
  }

  /**
   * The decisions of `setCity` and of `loadDefaultCity`, which it calls on
   * the id "cities" (with a replaced history entry) and after a failed fetch
   * of any city but the default. With `asWritten`, `loadDefaultCity` reads the
   * identifier `DEFAULT_CITY` as js/main.js does, and the file declares no such
   * name, so the read throws; otherwise it passes `DEFAULT_CITY_ID`.
   */
  function CityTrace<F>(cityID: string, createNew: bool, feeds: string -> Option<F>, asWritten: bool): (t: Trace)
    ensures !asWritten ==> !t.landing.ReferenceError?
    ensures !asWritten ==> 1 <= |t.fetched| <= 2
    ensures t.landing.Loaded? ==>
      && |t.fetched| > 0 && t.fetched[|t.fetched| - 1] == FeedUrl(t.landing.id)
      && feeds(FeedUrl(t.landing.id)).Some?
      && (t.landing.id == OrDefault(cityID) || t.landing.id == DEFAULT_CITY_ID)
      && (t.landing.createNewHistoryEntry ==> createNew)
    ensures t.landing.GaveUp? ==>
      && |t.fetched| > 0 && t.fetched[|t.fetched| - 1] == FeedUrl(DEFAULT_CITY_ID)
      && feeds(FeedUrl(DEFAULT_CITY_ID)).None?
    ensures |t.fetched| == 2 ==>
      && t.fetched[0] == FeedUrl(OrDefault(cityID)) && OrDefault(cityID) != DEFAULT_CITY_ID
      && feeds(t.fetched[0]).None? && t.fetched[1] == FeedUrl(DEFAULT_CITY_ID)
    decreases Rank(cityID)
  {
    var id := OrDefault(cityID);
    var filename := FeedUrl(id);
    if filename == CITY_LIST_API_URL then
      if asWritten then Trace([], ReferenceError("DEFAULT_CITY"))
      else CityTrace(DEFAULT_CITY_ID, false, feeds, false)
    else if feeds(filename).Some? then
      Trace([filename], Loaded(id, createNew))
    else if id != DEFAULT_CITY_ID then
      if asWritten then Trace([filename], ReferenceError("DEFAULT_CITY"))
      else
        var rest := CityTrace(DEFAULT_CITY_ID, createNew, feeds, false);
        Trace([filename] + rest.fetched, rest.landing)
    else
      Trace([filename], GaveUp)
  }

  /**
   * A city other than "cities" whose feed loads is loaded after that one
   * request, with the caller's history flag; the undeclared name on the
   * fall-back path plays no part here.
   */
  lemma CityTraceLoads<F>(cityID: string, createNew: bool, feeds: string -> Option<F>, asWritten: bool)
    requires cityID != "cities" && feeds(FeedUrl(OrDefault(cityID))).Some?
    ensures CityTrace(cityID, createNew, feeds, asWritten) ==
      Trace([FeedUrl(OrDefault(cityID))], Loaded(OrDefault(cityID), createNew))
  {
    FeedUrlIsCityList(OrDefault(cityID));
  }

  /** An empty id is the default id; the id "cities" loads the default city with a replaced entry. */
  lemma CityTraceRedirects<F>(createNew: bool, feeds: string -> Option<F>)
    ensures CityTrace("", createNew, feeds, false) == CityTrace(DEFAULT_CITY_ID, createNew, feeds, false)
    ensures CityTrace("cities", createNew, feeds, false) == CityTrace(DEFAULT_CITY_ID, false, feeds, false)
  {
    FeedUrlIsCityList("cities");
  }

  /**
   * Fall-back happens once and only away from the default: the default city
   * (or the empty id) makes exactly one request whatever its outcome, and a
   * failed request for another city is followed by exactly the default's.
   */
  lemma CityTraceFallback<F>(cityID: string, createNew: bool, feeds: string -> Option<F>)
    ensures OrDefault(cityID) == DEFAULT_CITY_ID ==>
      CityTrace(cityID, createNew, feeds, false) ==
        Trace([FeedUrl(DEFAULT_CITY_ID)],
              if feeds(FeedUrl(DEFAULT_CITY_ID)).Some? then Loaded(DEFAULT_CITY_ID, createNew) else GaveUp)
    ensures OrDefault(cityID) != DEFAULT_CITY_ID && cityID != "cities" && feeds(FeedUrl(cityID)).None? ==>
      CityTrace(cityID, createNew, feeds, false) ==
        Trace([FeedUrl(cityID)] + CityTrace(DEFAULT_CITY_ID, createNew, feeds, false).fetched,
              CityTrace(DEFAULT_CITY_ID, createNew, feeds, false).landing)
  {
    FeedUrlIsCityList(OrDefault(cityID));
  }

  /**
   * As written, `loadDefaultCity` never loads anything: the id "cities" and a
   * failed fetch of any other city that is not the default end in a
   * `ReferenceError` for `DEFAULT_CITY`.
   */
  lemma DefaultCityUndeclared<F>(cityID: string, createNew: bool, feeds: string -> Option<F>)
    requires OrDefault(cityID) != DEFAULT_CITY_ID
    requires cityID == "cities" || feeds(FeedUrl(cityID)).None?
    ensures CityTrace(cityID, createNew, feeds, true).landing == ReferenceError("DEFAULT_CITY")
    ensures CityTrace(cityID, createNew, feeds, true).fetched == if cityID == "cities" then [] else [FeedUrl(cityID)]
  {
    FeedUrlIsCityList(cityID);
  }

  /** `getHashCity`: the hash lower-cased, without its first character ('#'); '' for an empty hash. */
  function GetHashCity(hash: string): (id: string)
    ensures hash == "" ==> id == ""
    ensures hash != "" ==> |id| == |hash| - 1 && forall i :: 0 <= i < |id| ==> id[i] == ToLower(hash[i + 1])
  {
    if hash == "" then "" else Lower(hash)[1..]
  }

  /** Reading back the hash `'#' + id` gives the lower-cased id, and a lower-case id itself. */
  lemma HashRoundTrip(id: string)
    ensures GetHashCity("#" + id) == Lower(id)
    ensures IsLowerCase(id) ==> GetHashCity("#" + id) == id
  {
    LowerIsLowerCase(id);
  }

  /**
   * The round trip needs a lower-case id: the hash of a city id with capitals
   * reads back as a different id, whose feed is a different URL.
   */
  lemma MixedCaseHashLeavesFeed()
    ensures GetHashCity("#Berlin") == "berlin"
    ensures FeedUrl(GetHashCity("#Berlin")) != FeedUrl("Berlin")
  {
    HashRoundTrip("Berlin");
    assert Lower("Berlin") == "berlin";
    FeedUrlReadsBack("berlin", "Berlin");
  }

  /** One entry of the city list; `id` and `label` must be present (`null` passes the check). */
  datatype CityEntry = CityEntry(id: Field<string>, labelText: Field<string>)  // the JSON `label`

  predicate WellFormed(e: CityEntry)
  {
    !e.id.Undefined? && !e.labelText.Undefined?
  }

  /** The jQuery `Deferred` `loadCities` returns, once settled. */
  datatype Deferred<T> = Resolved(value: T) | Rejected

  /**
   * `loadCities`: a failed request rejects; otherwise every entry is visited,
   * a flag is set for each one that lacks `id` or `label`, and the list
   * resolves only if the flag stayed clear.
   */
  method LoadCities(response: Option<seq<CityEntry>>) returns (d: Deferred<seq<CityEntry>>)
    ensures d.Resolved? <==>
      response.Some? && forall i :: 0 <= i < |response.value| ==> WellFormed(response.value[i])
    ensures d.Resolved? ==> d.value == response.value
  {
    if response.None? {
      return Rejected;
    }
    var result := response.value;
    var resultMalformed := false;
    var key := 0;
    while key < |result|
      invariant 0 <= key <= |result|
      invariant resultMalformed <==> exists j :: 0 <= j < key && !WellFormed(result[j])
    {
      var value := result[key];
      if value.id.Undefined? || value.labelText.Undefined? {
        resultMalformed := true;
      }
      key := key + 1;
    }
    if resultMalformed {
      d := Rejected;
    } else {
      d := Resolved(result);
    }
  }
}
