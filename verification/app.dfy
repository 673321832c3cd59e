/**
 * The page state the market script changes: the four marker groups, the
 * display radios, the groups shown on the map, and the browser history; and
 * `setCity`, which drives all of them from one city feed.
 */
module App {
  import opened Js
  import opened Text
  import opened Markers
  import opened Cities

  /** The `disabled` and `checked` properties `updateControls` sets on the display radios. */
  datatype Radios = Radios(
    nowDisabled: bool,
    nowChecked: bool,
    todayDisabled: bool,
    todayChecked: bool,
    otherChecked: bool)

  /**
   * `updateControls` given whether the now- and today-groups hold markers:
   * exactly one radio is checked, never a disabled one, the most specific
   * available choice wins (now over today over other), and the now and today
   * radios are disabled exactly when their group is empty.
   */
  function ControlsFor(gotNow: bool, gotToday: bool): (c: Radios)
    ensures c.nowDisabled == !gotNow && c.todayDisabled == !gotToday
    ensures c.nowChecked || c.todayChecked || c.otherChecked
    ensures !(c.nowChecked && c.todayChecked) && !(c.nowChecked && c.otherChecked) && !(c.todayChecked && c.otherChecked)
    ensures !(c.nowChecked && c.nowDisabled) && !(c.todayChecked && c.todayDisabled)
    ensures c.todayChecked ==> c.nowDisabled
    ensures c.otherChecked ==> c.nowDisabled && c.todayDisabled
  {
    Radios(!gotNow, gotNow, !gotToday, !gotNow && gotToday, !gotNow && !gotToday)
  }

  /** The `value` of the checked display radio, each radio's value being the name of its group. */
  function CheckedValue(c: Radios): string
  {
    if c.nowChecked then "now"
    else if c.todayChecked then "today"
    else if c.otherChecked then "other"
    else ""
  }

  /**
   * `updateLayers` for a display value: the now and unclassified groups are
   * always shown, the today group for "today" and "other", the other group
   * only for "other"; any other value shows just now and unclassified.
   */
  function VisibleGroups(value: string): (v: set<Group>)
    ensures Now in v && Unclassified in v
    ensures Today in v <==> value == "today" || value == "other"
    ensures Other in v <==> value == "other"
  {
    {Now, Unclassified} + if value == "today" then {Today} else if value == "other" then {Today, Other} else {}
  }

  /**
   * After the controls are updated, the map shows only now and unclassified
   * markers when some market is open now, adds today's markers when none is
   * open now but some open today, and shows every group otherwise.
   */
  lemma ShownAfterControls(gotNow: bool, gotToday: bool)
    ensures VisibleGroups(CheckedValue(ControlsFor(gotNow, gotToday))) ==
      if gotNow then {Now, Unclassified}
      else if gotToday then {Now, Today, Unclassified}
      else {Now, Today, Other, Unclassified}
  {
  }

  /** `replaceState` on the history: the current (last) entry is overwritten. */
  function ReplaceLast(h: seq<string>, entry: string): (r: seq<string>)
    requires |h| > 0
    ensures |r| == |h| && r[..|h| - 1] == h[..|h| - 1] && r[|h| - 1] == entry
  {
    h[..|h| - 1] + [entry]
  }

  /** Everything the page shows, as one value. */
  datatype PageView = PageView(groups: Groups, radios: Radios, shown: set<Group>, history: seq<string>)

  /**
   * The success handler of `setCity` for city `id` and its feed: rebuild the
   * groups; if a feature throws, stop there; otherwise update the controls,
   * the visible layers and the URL hash.
   */
  function Render(v: PageView, id: string, createNew: bool, features: seq<Feature>, env: Env): (PageView, Option<string>)
    requires |v.history| > 0
  {
    var groups := Collect(features[..Processed(features, env)], env);
    var thrown := FirstError(features, env);
    if thrown.Some? then (v.(groups := groups), thrown)
    else
      var radios := ControlsFor(|groups.now| > 0, |groups.today| > 0);
      var history := if createNew then v.history + ["#" + id] else ReplaceLast(v.history, "#" + id);
      (PageView(groups, radios, VisibleGroups(CheckedValue(radios)), history), None)
  }

  /**
   * The success handler lets a message escape exactly when some feature of
   * the feed throws, and the message is that of the first such feature.
   */
  lemma RenderThrows(v: PageView, id: string, createNew: bool, features: seq<Feature>, env: Env)
    requires |v.history| > 0
    ensures Render(v, id, createNew, features, env).1.Some? <==>
      exists i :: 0 <= i < |features| && InitMarker(features[i], env).Thrown?
    ensures Render(v, id, createNew, features, env).1.Some? ==>
      exists i :: 0 <= i < |features| && InitMarker(features[i], env).Thrown?
        && (forall j :: 0 <= j < i ==> !InitMarker(features[j], env).Thrown?)
        && Render(v, id, createNew, features, env).1.value == InitMarker(features[i], env).message
  {
    var k := Processed(features, env);
    if k < |features| {
      assert InitMarker(features[k], env).Thrown?;
    }
  }

  /**
   * A feed whose features all pass: the groups hold exactly the new markers,
   * the radios and layers follow them, the hash names the city and reads
   * back as its lower-cased id, and the history grows by one entry when
   * pushing and keeps its length when replacing.
   */
  lemma RenderLoaded(v: PageView, id: string, createNew: bool, features: seq<Feature>, env: Env)
    requires |v.history| > 0
    requires FirstError(features, env).None?
    ensures var (r, thrown) := Render(v, id, createNew, features, env);
      && thrown.None?
      && r.groups == Collect(features, env)
      && r.radios == ControlsFor(|r.groups.now| > 0, |r.groups.today| > 0)
      && r.shown == (if |r.groups.now| > 0 then {Now, Unclassified}
                     else if |r.groups.today| > 0 then {Now, Today, Unclassified}
                     else {Now, Today, Other, Unclassified})
      && |r.history| == |v.history| + (if createNew then 1 else 0)
      && r.history[..|v.history| - 1] == v.history[..|v.history| - 1]
      && (createNew ==> r.history[..|v.history|] == v.history)
      && r.history[|r.history| - 1] == "#" + id
      && GetHashCity(r.history[|r.history| - 1]) == Lower(id)
  {
    assert features[..|features|] == features;
    var groups := Collect(features, env);
    ShownAfterControls(|groups.now| > 0, |groups.today| > 0);
    HashRoundTrip(id);
  }

  /**
   * A feed with a feature that throws: the groups hold the markers of the
   * features before it, and radios, layers and history are left as they were.
   */
  lemma RenderStopsAtThrow(v: PageView, id: string, createNew: bool, features: seq<Feature>, env: Env)
    requires |v.history| > 0
    requires FirstError(features, env).Some?
    ensures var (r, thrown) := Render(v, id, createNew, features, env);
      && thrown == Some(InitMarker(features[Processed(features, env)], env).message)
      && r.groups == Collect(features[..Processed(features, env)], env)
      && r.radios == v.radios && r.shown == v.shown && r.history == v.history
  {
  }

  /**
   * How one `setCity` call leaves the page, given its trace: rendered from the
   * feed that loaded, or untouched when even the default city failed.
   */
  ghost predicate Settled(t: Trace, before: PageView, after: PageView, thrown: Option<string>,
                          feeds: string -> Option<seq<Feature>>, env: Env)
    requires |before.history| > 0
  {
    && (t.landing.Loaded? ==>
          feeds(FeedUrl(t.landing.id)).Some? &&
          (after, thrown) == Render(before, t.landing.id, t.landing.createNewHistoryEntry, feeds(FeedUrl(t.landing.id)).value, env))
    && (t.landing.GaveUp? ==> after == before && thrown.None?)
    && !t.landing.ReferenceError?
  }

  /**
   * A `setCity` call made with a replaced history entry requests one or two
   * feeds; when it loads a city without a throw, the history keeps its length
   * and older entries, and the current hash reads back as the loaded id.
   */
  lemma ReplacingCallSettles(t: Trace, requestedBefore: seq<string>, requestedAfter: seq<string>,
                             before: PageView, after: PageView, thrown: Option<string>,
                             hashCity: string, feeds: string -> Option<seq<Feature>>, env: Env)
    requires |before.history| > 0
    requires t == CityTrace(hashCity, false, feeds, false)
    requires requestedAfter == requestedBefore + t.fetched
    requires Settled(t, before, after, thrown, feeds, env)
    ensures 1 <= |requestedAfter| - |requestedBefore| <= 2
    ensures t.landing.Loaded? && thrown.None? ==>
      && |after.history| == |before.history|
      && after.history[..|after.history| - 1] == before.history[..|after.history| - 1]
      && GetHashCity(after.history[|after.history| - 1]) == Lower(t.landing.id)
  {
    assert 1 <= |t.fetched| <= 2;
    if t.landing.Loaded? && thrown.None? {
      assert !t.landing.createNewHistoryEntry;
      SettledReplacesEntry(t, before, after, thrown, feeds, env);
    }
  }

  /**
   * A load without a throw and without a pushed entry keeps the history's
   * length and older entries, and the current hash reads back as the loaded id.
   */
  lemma SettledReplacesEntry(t: Trace, before: PageView, after: PageView, thrown: Option<string>,
                             feeds: string -> Option<seq<Feature>>, env: Env)
    requires |before.history| > 0
    requires Settled(t, before, after, thrown, feeds, env)
    requires t.landing.Loaded? && !t.landing.createNewHistoryEntry && thrown.None?
    ensures |after.history| == |before.history|
    ensures after.history[..|after.history| - 1] == before.history[..|after.history| - 1]
    ensures GetHashCity(after.history[|after.history| - 1]) == Lower(t.landing.id)
  {
    var features := feeds(FeedUrl(t.landing.id)).value;
    assert FirstError(features, env).None?;
    RenderLoaded(before, t.landing.id, false, features, env);
  }

  /**
   * What `SetCity` promises about the URL hash: when the city asked for is not
   * "cities" and its own feed loads without a throw, the page it leaves (any
   * `after` that `Settled` admits for that call's trace) has the current hash
   * `'#' + id`, which reads back as the lower-cased id.
   */
  lemma SetCityHash(cityID: string, createNew: bool, before: PageView, after: PageView, thrown: Option<string>,
                    feeds: string -> Option<seq<Feature>>, env: Env)
    requires |before.history| > 0
    requires Settled(CityTrace(cityID, createNew, feeds, false), before, after, thrown, feeds, env)
    requires cityID != "cities" && feeds(FeedUrl(OrDefault(cityID))).Some? && thrown.None?
    ensures |after.history| > 0 && after.history[|after.history| - 1] == "#" + OrDefault(cityID)
    ensures GetHashCity(after.history[|after.history| - 1]) == Lower(OrDefault(cityID))
  {
    var id := OrDefault(cityID);
    CityTraceLoads(cityID, createNew, feeds, false);
    var features := feeds(FeedUrl(id)).value;
    assert FirstError(features, env).None?;
    RenderLoaded(before, id, createNew, features, env);
  }

  /**
   * Rendering a feed whose features all pass a second time, for the same id
   * and with a replaced history entry, leaves the page as the first render left it.
   */
  lemma RenderAgainKeepsView(v: PageView, id: string, createNew: bool, features: seq<Feature>, env: Env)
    requires |v.history| > 0
    requires Render(v, id, createNew, features, env).1.None?
    ensures var r := Render(v, id, createNew, features, env).0;
      && GetHashCity(r.history[|r.history| - 1]) == Lower(id)
      && Render(r, id, false, features, env) == (r, None)
  {
    var r := Render(v, id, createNew, features, env).0;
    assert FirstError(features, env).None?;
    RenderLoaded(v, id, createNew, features, env);
    RenderLoaded(r, id, false, features, env);
    var h := Render(r, id, false, features, env).0.history;
    assert h == r.history by {
      assert h[..|r.history| - 1] == r.history[..|r.history| - 1];
      assert r.history == r.history[..|r.history| - 1] + [r.history[|r.history| - 1]];
    }
  }

  /**
   * A `setCity` call for a city other than "cities" whose own feed loads
   * leaves exactly the page the success handler renders from that feed.
   */
  lemma SettledLoadsOwnFeed(cityID: string, createNew: bool, before: PageView, after: PageView, thrown: Option<string>,
                            feeds: string -> Option<seq<Feature>>, env: Env)
    requires |before.history| > 0
    requires Settled(CityTrace(cityID, createNew, feeds, false), before, after, thrown, feeds, env)
    requires cityID != "cities" && feeds(FeedUrl(OrDefault(cityID))).Some?
    ensures (after, thrown) == Render(before, OrDefault(cityID), createNew, feeds(FeedUrl(OrDefault(cityID))).value, env)
  {
    CityTraceLoads(cityID, createNew, feeds, false);
  }

  /**
   * The hash round trip: after `setCity` loads a lower-case city other than
   * "cities" without a throw, the `hashchange` reload from the hash it left
   * brings back the same page and throws nothing.
   */
  lemma HashReloadSameView(cityID: string, createNew: bool, v0: PageView, v1: PageView, th1: Option<string>,
                           v2: PageView, th2: Option<string>, feeds: string -> Option<seq<Feature>>, env: Env)
    requires |v0.history| > 0
    requires cityID != "cities" && IsLowerCase(OrDefault(cityID)) && feeds(FeedUrl(OrDefault(cityID))).Some?
    requires Settled(CityTrace(cityID, createNew, feeds, false), v0, v1, th1, feeds, env) && th1.None?
    requires |v1.history| > 0
    requires Settled(CityTrace(GetHashCity(v1.history[|v1.history| - 1]), false, feeds, false), v1, v2, th2, feeds, env)
    ensures th2.None? && v2 == v1
  {
    var id := OrDefault(cityID);
    var features := feeds(FeedUrl(id)).value;
    SettledLoadsOwnFeed(cityID, createNew, v0, v1, th1, feeds, env);
    RenderAgainKeepsView(v0, id, createNew, features, env);
    LowerIsLowerCase(id);
    SettledLoadsOwnFeed(id, false, v1, v2, th2, feeds, env);
  }

  /**
   * A render without a throw that replaces a current entry already reading
   * `'#' + id` leaves the history as it was.
   */
  lemma ReplaceSameHashKeepsHistory(v: PageView, id: string, features: seq<Feature>, env: Env)
    requires |v.history| > 0 && v.history[|v.history| - 1] == "#" + id
    requires Render(v, id, false, features, env).1.None?
    ensures Render(v, id, false, features, env).0.history == v.history
    ensures Render(v, id, false, features, env).0.groups == Collect(features, env)
  {
    assert Processed(features, env) == |features|;
    assert features[..|features|] == features;
    ReplaceLastSameEntry(v.history, "#" + id);
  }

  /** Replacing the current entry with the entry it already holds changes nothing. */
  lemma ReplaceLastSameEntry(h: seq<string>, entry: string)
    requires |h| > 0 && h[|h| - 1] == entry
    ensures ReplaceLast(h, entry) == h
  {
    assert h == h[..|h| - 1] + [h[|h| - 1]];
  }

  /**
   * The start-up call `setCity(getHashCity(), false)`, made from any page
   * whose current hash is `'#' + x` for a non-empty lower-case id other than
   * "cities" whose feed loads without a throw: it loads `x`, replacing the
   * current entry with the same hash, so the history is unchanged and the
   * groups hold exactly the markers of `x`'s feed.
   */
  lemma StartupFromHash(x: string, v: PageView, after: PageView, thrown: Option<string>,
                        feeds: string -> Option<seq<Feature>>, env: Env)
    requires |v.history| > 0 && v.history[|v.history| - 1] == "#" + x
    requires x != "" && x != "cities" && IsLowerCase(x) && feeds(FeedUrl(x)).Some?
    requires Settled(CityTrace(GetHashCity(v.history[|v.history| - 1]), false, feeds, false), v, after, thrown, feeds, env)
    requires thrown.None?
    ensures after.history == v.history
    ensures after.groups == Collect(feeds(FeedUrl(x)).value, env)
  {
    HashRoundTrip(x);
    SettledLoadsOwnFeed(x, false, v, after, thrown, feeds, env);
    ReplaceSameHashKeepsHistory(v, x, feeds(FeedUrl(x)).value, env);
  }

  /** The page: the global layer groups, the radios, the map's visible groups and the browser history. */
  class MarketMap {
    var nowGroup: seq<Marker>
    var todayGroup: seq<Marker>
    var otherGroup: seq<Marker>
    var unclassifiedGroup: seq<Marker>
    var radios: Radios
    var shown: set<Group>
    /** The session history as URL hashes; the current entry is the last. */
    var history: seq<string>
    /** The feed URLs requested so far. */
    ghost var requested: seq<string>

    ghost predicate Valid()
      reads this
    {
      |history| > 0
    }

    ghost function View(): PageView
      reads this
    {
      PageView(Groups(nowGroup, todayGroup, otherGroup, unclassifiedGroup), radios, shown, history)
    }

    /** `window.location.hash`. */
    function Hash(): string
      reads this
      requires Valid()
    {
      history[|history| - 1]
    }

    /** A freshly loaded page: empty groups, nothing on the map, one history entry. */
    constructor (initialHash: string, initialRadios: Radios)
      ensures Valid()
      ensures View() == PageView(NoMarkers, initialRadios, {}, [initialHash]) && requested == []
    {
      nowGroup, todayGroup, otherGroup, unclassifiedGroup := [], [], [], [];
      radios := initialRadios;
      shown := {};
      history := [initialHash];
      requested := [];
    }

    /** `addLayer` on the group `g`. */
    method AddLayer(g: Group, m: Marker)
      modifies this`nowGroup, this`todayGroup, this`otherGroup, this`unclassifiedGroup
      ensures Groups(nowGroup, todayGroup, otherGroup, unclassifiedGroup) ==
        old(Groups(nowGroup, todayGroup, otherGroup, unclassifiedGroup)).Add(g, m)
    {
      match g
      case Now => nowGroup := nowGroup + [m];
      case Today => todayGroup := todayGroup + [m];
      case Other => otherGroup := otherGroup + [m];
      case Unclassified => unclassifiedGroup := unclassifiedGroup + [m];
    }

    /**
     * `updateMarkers`: clear all four groups, then run `initMarker` on each
     * feature in order; a thrown message escapes and ends the loop.
     */
    method UpdateMarkers(features: seq<Feature>, env: Env) returns (thrown: Option<string>)
      modifies this`nowGroup, this`todayGroup, this`otherGroup, this`unclassifiedGroup
      ensures Groups(nowGroup, todayGroup, otherGroup, unclassifiedGroup) == Collect(features[..Processed(features, env)], env)
      ensures thrown == FirstError(features, env)
    {
      nowGroup := [];
      todayGroup := [];
      otherGroup := [];
      unclassifiedGroup := [];
      var i := 0;
      while i < |features|
        invariant 0 <= i <= |features|
        invariant i <= Processed(features, env)
        invariant Groups(nowGroup, todayGroup, otherGroup, unclassifiedGroup) == Collect(features[..i], env)
      {
        var outcome := InitMarker(features[i], env);
        CollectStep(features, i, env);
        if outcome.Thrown? {
          ProcessedAt(features, i, env);
          return Some(outcome.message);
        } else if outcome.Placed? {
          AddLayer(outcome.group, outcome.marker);
        }
        i := i + 1;
      }
      ProcessedAll(features, env);
      return None;
    }

    /** `updateControls`. */
    method UpdateControls()
      modifies this`radios
      ensures radios == ControlsFor(|nowGroup| > 0, |todayGroup| > 0)
    {
      var gotNow := |nowGroup| > 0;
      var gotToday := |todayGroup| > 0;
      radios := radios.(nowDisabled := !gotNow);
      radios := radios.(nowChecked := gotNow);
      radios := radios.(todayDisabled := !gotToday);
      radios := radios.(todayChecked := !gotNow && gotToday);
      radios := radios.(otherChecked := !gotNow && !gotToday);
    }

    /** `updateLayers` for the value of the checked display radio: remove all groups, then add back. */
    method UpdateLayers(value: string)
      modifies this`shown
      ensures shown == VisibleGroups(value)
    {
      shown := {};  // removeLayer on each of the four groups
      shown := shown + {Now};
      shown := shown + {Unclassified};
      if value == "today" {
        shown := shown + {Today};
      } else if value == "other" {
        shown := shown + {Today};
        shown := shown + {Other};
      }
    }

    /** `createHistoryEntryWithHash`: `pushState` adds an entry with the new hash. */
    method CreateHistoryEntryWithHash(hash: string)
      modifies this`history
      ensures history == old(history) + ["#" + hash]
    {
      history := history + ["#" + hash];
    }

    /** `replaceHistoryEntryWithHash`: `replaceState` overwrites the current entry. */
    method ReplaceHistoryEntryWithHash(hash: string)
      requires Valid()
      modifies this`history
      ensures history == ReplaceLast(old(history), "#" + hash)
    {
      history := ReplaceLast(history, "#" + hash);
    }

    /** `updateUrlHash`. */
    method UpdateUrlHash(cityID: string, createNewHistoryEntry: bool)
      requires Valid()
      modifies this`history
      ensures Valid()
      ensures history == if createNewHistoryEntry then old(history) + ["#" + cityID]
                         else ReplaceLast(old(history), "#" + cityID)
    {
      if createNewHistoryEntry {
        CreateHistoryEntryWithHash(cityID);
      } else {
        ReplaceHistoryEntryWithHash(cityID);
      }
    }

    /**
     * The success handler of `setCity` for city `id`: rebuild the markers and,
     * unless a feature throws, update controls, layers and the URL hash.
     */
    method OnFeedLoaded(id: string, createNewHistoryEntry: bool, features: seq<Feature>, env: Env)
      returns (thrown: Option<string>)
      requires Valid()
      modifies this`nowGroup, this`todayGroup, this`otherGroup, this`unclassifiedGroup, this`radios, this`shown, this`history
      ensures Valid()
      ensures (View(), thrown) == Render(old(View()), id, createNewHistoryEntry, features, env)
    {
      thrown := UpdateMarkers(features, env);
      if thrown.None? {
        UpdateControls();
        UpdateLayers(CheckedValue(radios));
        UpdateUrlHash(id, createNewHistoryEntry);
      }
    }

    /**
     * `setCity`: requests the feeds `CityTrace` lists and, if one of them
     * loads, renders it.
     */
    method SetCity(cityID: string, createNewHistoryEntry: bool, feeds: string -> Option<seq<Feature>>, env: Env)
      returns (thrown: Option<string>)
      requires Valid()
      modifies this
      ensures Valid()
      ensures var t := CityTrace(cityID, createNewHistoryEntry, feeds, false);
        requested == old(requested) + t.fetched && Settled(t, old(View()), View(), thrown, feeds, env)
      decreases Rank(cityID), 1
    {
      var id := OrDefault(cityID);
      var filename := FeedUrl(id);
      FeedUrlIsCityList(id);
      if filename == CITY_LIST_API_URL {
        thrown := LoadDefaultCity(false, feeds, env);
      } else {
        requested := requested + [filename];
        var response := feeds(filename);
        if response.Some? {
          thrown := OnFeedLoaded(id, createNewHistoryEntry, response.value, env);
        } else if id != DEFAULT_CITY_ID {
          thrown := LoadDefaultCity(createNewHistoryEntry, feeds, env);
        } else {
          thrown := None;
        }
      }
    }

    /** `loadDefaultCity`, passing the default city id. */
    method LoadDefaultCity(createNewHistoryEntry: bool, feeds: string -> Option<seq<Feature>>, env: Env)
      returns (thrown: Option<string>)
      requires Valid()
      modifies this
      ensures Valid()
      ensures var t := CityTrace(DEFAULT_CITY_ID, createNewHistoryEntry, feeds, false);
        requested == old(requested) + t.fetched && Settled(t, old(View()), View(), thrown, feeds, env)
      decreases 0, 2
    {
      thrown := SetCity(DEFAULT_CITY_ID, createNewHistoryEntry, feeds, env);
    }

    /**
     * The `hashchange` handler (and the start-up call): load the city the
     * hash names, replacing the current entry rather than adding one. At most
     * two feeds are requested, and a successful load leaves the history length
     * unchanged with a hash that reads back as the loaded id.
     */
    method OnHashChange(feeds: string -> Option<seq<Feature>>, env: Env) returns (thrown: Option<string>)
      requires Valid()
      modifies this
      ensures Valid()
      ensures 1 <= |requested| - |old(requested)| <= 2
      ensures var t := CityTrace(GetHashCity(old(Hash())), false, feeds, false);
        t.landing.Loaded? && thrown.None? ==>
          && |history| == |old(history)|
          && history[..|history| - 1] == old(history)[..|history| - 1]
          && GetHashCity(Hash()) == Lower(t.landing.id)
    {
      ghost var v := View();
      ghost var r := requested;
      var hashCity := GetHashCity(Hash());
      thrown := SetCity(hashCity, false, feeds, env);
      ReplacingCallSettles(CityTrace(hashCity, false, feeds, false), r, requested, v, View(), thrown, hashCity, feeds, env);
    }
  }
}
