# Wo ist Markt? — the market-map script, modelled in Dafny

The script `js/main.js` shows open-air markets of a city on a map. Each
market feature of the city's GeoJSON feed is sorted into one of four marker
groups: open now, open today, open on another day, or unclassified (free-text
hours only). The sort uses opening ranges that an opening-hours library
computes. Radio buttons choose which groups the map shows. The city is chosen
through a drop-down and the URL hash. A city whose feed fails to load is meant
to fall back to the default city, Karlsruhe. As written, that fall-back throws
instead (see the Findings section below).

The model covers the decision rules of the script:

- `text.dfy` (module `Text`): `pad`, `toCamelCase`, and the runtime pieces
  they use. These are integer `toString`, ASCII case mapping, and the regex
  classes `\w` and `\s`.
- `opening.dfy` (module `Opening`): opening ranges, `DAY_INDEX`,
  `openingRangeMatchesDay`, `openingRangeContainsTime` and
  `getOpeningRangeForDate`. The last one is a loop, proved against the
  first-match function `TodayRange`.
- `markers.dfy` (module `Markers`): `initMarker` as a function from a
  feature to an outcome. The outcome is either a thrown message, no marker,
  or a marker in a group. The module also says what a rebuild of the groups
  holds (`Collect`, `Processed`).
- `cities.dfy` (module `Cities`): the fetch decisions of `setCity` and
  `loadDefaultCity` (`CityTrace`), `getHashCity`, and the entry check of
  `loadCities`.
- `app.dfy` (module `App`): the page state as the class `MarketMap`. It holds
  the four groups as sequences, the radio flags, the groups shown on the
  map, and the history as a list of hashes. Its methods follow
  `updateMarkers`, `updateControls`, `updateLayers`, the history helpers,
  `setCity`, `loadDefaultCity` and the `hashchange` handler. Each method is
  proved against the pure functions beside it (`ControlsFor`,
  `VisibleGroups`, `Render`).
- `js.dfy` (module `Js`): `Option`, and `Field` for a JSON property that is
  missing, `null` or present.

The model's inputs stand for the parts it does not contain:

- Timestamps are integers. `getDay` is a given function `weekday`.
- The opening-hours library is a function `openingTimes`. For a list of
  opening-hours strings it gives either nothing or an `Evaluation`: the
  week's ranges, the next opening date already formatted as moment formats
  it, and the week-table markup.
- A feed request is `feeds(url)`. It is `None` when the request fails.

Where the code departs from what its comments and names suggest, the model
follows the code:

- `null` or empty `opening_hours` without `opening_hours_unclassified` is
  not an error and is not unclassified. The marker goes to the *other* group,
  and its popup ends in the word `undefined` (`Markers.InitMarkerPopup`,
  `Markers.InitMarkerGroup`).
- Only the *first* range on today's weekday is tested against `now`. A
  market with two ranges today is put in *today*, not *now*, while its second
  range is open (`Markers.OnlyFirstTodayRangeDecidesNow`).
- `new OpeningTimes(...)` can never be `undefined` in JavaScript. The early
  return is kept anyway, as the "no marker" outcome of a library that gives
  nothing.

## Model

| member | source | states |
|---|---|---|
| `Text.Pad` | js/main.js:39-45 | the result is the decimal string unchanged when it already has `totalDigits` characters, else exactly `totalDigits` long; it is always '0's followed by the decimal string, and for `num >= 0` it reads back as `num` |
| `Text.Digits` | js/main.js:40 | integer `toString` gives a non-empty string of decimal digits with no leading zero (except for 0) |
| `Text.DigitsRoundTrip` | js/main.js:40 | reading the decimal string of `n` back gives `n` |
| `Text.LeadingZerosKeepValue` | js/main.js:41-43 | prepending '0's does not change the number a digit string denotes |
| `Text.ToCamelCase` | js/main.js:321-325 | the global replace keeps the string's length (its per-character meaning is `Text.CamelCaseAt`) |
| `Text.CamelCaseAt` | js/main.js:321-325 | `toCamelCase` keeps the length and upper-cases a character exactly when it is a word character at index 0 or right after white space; every other character is unchanged |
| `Text.CamelCaseIdempotent` | js/main.js:321-325 | applying `toCamelCase` twice is the same as applying it once |
| `Text.Lower` | js/main.js:266 | `toLowerCase` keeps the length and lower-cases each ASCII letter in place |
| `Text.LowerIsLowerCase` | js/main.js:266 | the lower-cased string has no upper-case ASCII letter, and a lower-case string is left unchanged |
| `Opening.DayIndexBijective` | js/main.js:24 | `DAY_INDEX = (getDay()+6)%7` is a bijection on 0..6 with inverse `(m+1)%7`; it maps Monday (1) to 0 and Sunday (0) to 6 |
| `Opening.MatchesDay` | js/main.js:126-131 | a range matches a date's day only if both its ends fall on one weekday, the date's |
| `Opening.ContainsTime` | js/main.js:136-139 | a range contains a time only if it is non-empty; both ends count as inside (moment-range's `contains` taken as inclusive) |
| `Opening.FirstMatch` | js/main.js:145-157 | the index found is the first one whose range has both ends on the date's weekday, or the length when none does |
| `Opening.TodayRange` | js/main.js:145-157 | the range chosen is a member of the list whose both ends lie on the date's weekday, and an empty list gives none |
| `Opening.TodayRangeIsFirstMatch` | js/main.js:145-157 | the chosen range is undefined iff no range has both ends on the date's weekday; otherwise it is a member of the list on that weekday, and every earlier range fails the test |
| `Opening.GetOpeningRangeForDate` | js/main.js:145-157 | the indexed loop with early return gives undefined for an undefined list and otherwise the first range on the date's weekday |
| `Markers.NextMarketDateHtml` | js/main.js:51-56 | the next-date text starts with the words shared with the unknown-date text, and the formatted day and time stand at fixed positions in it |
| `Markers.InitMarker` | js/main.js:172-255 | a missing `opening_hours` always throws; a marker is made only when `location` and `title` are present, it sits at the feature's coordinates, and its popup starts with the title heading (the full case analysis is in the three lemmas below) |
| `Markers.InitMarkerErrors` | js/main.js:172-227 | a feature throws iff `opening_hours` is missing, or, when a marker is made, `location` or `title` is missing; the checks come in that order and the messages are the source's, with `undefined`/`null` spelled out; the "no marker" return happens before the location and title checks |
| `Markers.InitMarkerGroup` | js/main.js:238-254 | a placed feature is *now* iff a today-range exists and contains `now`; *today* iff one exists and does not; *unclassified* iff `opening_hours` is null/empty and the fallback text is defined; *other* otherwise |
| `Markers.InitMarkerPopup` | js/main.js:219-236 | the popup is the heading with the title, the location paragraph, then the unclassified paragraph, the week table, the next-date text or the unknown-date text, as the case may be; with null/empty hours and no fallback it ends in `undefined`; the marker sits at `[lat, lon]` = `[coordinates[1], coordinates[0]]` |
| `Markers.TitleTextDefault` | js/main.js:228-230 | the shown title is never empty, and it is `'Markt'` for a null or empty title |
| `Markers.OnlyFirstTodayRangeDecidesNow` | js/main.js:238-245 | a market with a morning and an afternoon range today is put in *today* during the afternoon range |
| `Markers.Processed` | js/main.js:167-169 | the features handled before an exception escapes are exactly those before the first feature that throws |
| `Markers.CollectOnlyFromFeatures` | js/main.js:162-170 | every marker in a rebuilt group was made from a feature of the new collection and was classified into that group |
| `Markers.CollectHoldsEveryPlaced` | js/main.js:162-170 | every feature that gets a marker has it in its own group after the rebuild |
| `Markers.CollectSize` | js/main.js:238-254 | the four groups together hold exactly one marker per placed feature |
| `Cities.OrDefault` | js/main.js:355 | the id `setCity` uses, `cityID` or `DEFAULT_CITY_ID` for an empty one, is never empty and keeps any non-empty id |
| `Cities.FeedUrl` | js/main.js:356 | the feed URL is the id with 12 characters of fixed text around it |
| `Cities.FeedUrlReadsBack` | js/main.js:356 | the id can be read back from its feed URL, so two cities never share a feed |
| `Cities.FeedUrlIsCityList` | js/main.js:356-357 | a city's feed URL equals `CITY_LIST_API_URL` exactly for the id `cities` |
| `Cities.CityTrace` | js/main.js:354-379 | one `setCity` call requests one or two feeds; a second request happens only after the first, non-default city failed, and it is the default city's; a load lands on the requested id or the default, whose feed loaded, and pushes a history entry only if the caller asked for one; giving up means the default feed failed |
| `Cities.CityTraceLoads` | js/main.js:354-366 | a city other than `cities` whose own feed loads is loaded after that single request, with the caller's history flag, whether or not the fall-back path is as written |
| `Cities.CityTraceRedirects` | js/main.js:355-359 | an empty id behaves as the default id; the id `cities` loads the default city with a replaced history entry |
| `Cities.CityTraceFallback` | js/main.js:371-377 | the default city makes exactly one request whatever its outcome; a failed non-default city is followed by exactly the default city's attempt |
| `Cities.DefaultCityUndeclared` | js/main.js:343-345 | as written, the `cities` redirect and the fall-back end in a `ReferenceError` for `DEFAULT_CITY` and never request the default feed |
| `Cities.GetHashCity` | js/main.js:261-269 | an empty hash gives `''`; otherwise the hash without its first character, lower-cased character by character |
| `Cities.HashRoundTrip` | js/main.js:261-269 | reading back the hash `'#'+id` gives the lower-cased id, and a lower-case id itself |
| `Cities.LoadCities` | js/main.js:387-408 | the list resolves, unchanged, iff the request succeeded and every entry has `id` and `label` (a `null` counts as present); otherwise it rejects |
| `App.ControlsFor` | js/main.js:90-98 | exactly one of now/today/other is checked, never a disabled one; now is preferred over today over other; now and today are disabled exactly when their group is empty |
| `App.VisibleGroups` | js/main.js:104-121 | now and unclassified are always shown; today iff the value is `today` or `other`; other iff it is `other` |
| `App.ShownAfterControls` | js/main.js:90-121 | after a reload the map shows now+unclassified if some market is open now, adds today if none is open now but some today, and shows all four groups otherwise |
| `App.Render` | js/main.js:360-366 | the success handler as a function of the page before it: rebuild the groups, stop at the first throw, otherwise update radios, layers and hash; its contract is stated by the three lemmas below |
| `App.RenderThrows` | js/main.js:360-366 | the success handler lets a message escape iff some feature of the feed throws, and the message is that of the first throwing feature (every earlier feature passes) |
| `App.RenderLoaded` | js/main.js:360-366 | a feed without throwing features leaves exactly its markers in the groups, radios and layers that follow them, and a hash `'#'+id` that reads back as the lower-cased id; the history grows by one when pushing and keeps its length and older entries when replacing |
| `App.RenderStopsAtThrow` | js/main.js:163-169 | when a feature throws, the groups hold the markers of the features before it, and radios, layers and history are unchanged |
| `App.ReplaceLast` | js/main.js:307-310 | `replaceState` keeps the history's length and every entry but the last, which becomes the new one |
| `App.MarketMap.constructor` | js/main.js:17-20 | the page starts with four empty groups, no group on the map and one history entry |
| `App.MarketMap.AddLayer` | js/main.js:240-252 | adding a marker appends it to its group and to no other |
| `App.MarketMap.UpdateMarkers` | js/main.js:162-170 | all four groups are cleared, then hold the markers of the features before the first throwing one; the thrown message is returned |
| `App.MarketMap.UpdateControls` | js/main.js:90-98 | the radios become `ControlsFor` of whether the now and today groups are non-empty |
| `App.MarketMap.UpdateLayers` | js/main.js:104-121 | the shown groups become `VisibleGroups` of the display value |
| `App.MarketMap.CreateHistoryEntryWithHash` | js/main.js:293-299 | one entry `'#'+hash` is appended to the history |
| `App.MarketMap.ReplaceHistoryEntryWithHash` | js/main.js:307-315 | the current entry is overwritten with `'#'+hash` |
| `App.MarketMap.UpdateUrlHash` | js/main.js:279-285 | pushes when asked to create an entry, replaces otherwise |
| `App.MarketMap.OnFeedLoaded` | js/main.js:360-366 | the page after the success handler is `Render` of the page before it |
| `App.MarketMap.SetCity` | js/main.js:354-379 | the feeds requested are those of `CityTrace`; the page ends as `Render` of the loaded feed, or unchanged when even the default failed |
| `App.SetCityHash` | js/main.js:354-366 | for any page `SetCity` can leave: when the city asked for is not `cities` and its feed loads without a throw, the current hash is `'#'+id` and `getHashCity` reads it back as the lower-cased id |
| `App.SettledLoadsOwnFeed` | js/main.js:354-366 | a `setCity` call for a city other than `cities` whose own feed loads leaves exactly the page the success handler renders from that feed |
| `App.RenderAgainKeepsView` | js/main.js:360-366 | rendering the same feed again for the same city with a replaced entry, after a render without a throw, throws nothing and leaves the page as it was, and the hash left by the first render reads back as the lower-cased id |
| `App.HashReloadSameView` | js/main.js:449-452 | the hash round trip on the same page: after `setCity` loads a lower-case city other than `cities` without a throw, the `hashchange` reload from the hash it left, with the same feeds and the same `now`, throws nothing from `initMarker` and leaves the same page: groups, radios, layers and history |
| `App.StartupFromHash` | js/main.js:494-496 | the start-up call `setCity(getHashCity(), false)` from any page whose current hash is `'#'+x`, for a non-empty lower-case `x` other than `cities` whose feed loads without a throw: the history is unchanged and the groups hold exactly the markers of `x`'s feed |
| `App.ReplaceSameHashKeepsHistory` | js/main.js:360-366 | a render without a throw that replaces a current entry already reading `'#'+id` leaves the history as it was, with the groups holding exactly the feed's markers |
| `App.ReplaceLastSameEntry` | js/main.js:307-310 | `replaceState` with the entry already current leaves the history unchanged |
| `Cities.MixedCaseHashLeavesFeed` | js/main.js:261-269 | the round trip needs a lower-case id: the hash `#Berlin` reads back as `berlin`, whose feed URL differs from that of `Berlin` |
| `App.MarketMap.LoadDefaultCity` | js/main.js:343-345 | loads the default city id, with the caller's history flag |
| `App.ReplacingCallSettles` | js/main.js:449-452 | a `setCity` call with a replaced entry requests one or two feeds, and a load without a throw keeps the history's length and older entries with a hash that reads back as the loaded id |
| `App.MarketMap.OnHashChange` | js/main.js:449-452 | the hash-change handler requests one or two feeds; a successful load replaces the current entry, so the history keeps its length, and the new hash reads back as the loaded id |

## Left out

- Leaflet is left out: the map object, tile layer, geolocation control, marker and icon objects, `positionMap` and `updateDataSource`. Apart from the reads below, these are rendering only. Each group has its own icon, so the group a marker joins also fixes its icon. Only that group membership is modelled.
- The DOM, jQuery and select2 plumbing is left out. This covers the drop-down and its `change` handler, `collapseHeader`, `expandHeader`, `toggleHeader`, `fixMapHeight` and `document.title` (with its `getCity` lookup). The drop-down update in the success handler of `setCity` is left out too. The title line `getCity(cityID).label` (js/main.js:367) throws a `TypeError` for an id that is not in the city list, for instance a feed that exists but is not listed, or any id before `loadCities` has filled the list. That happens after the hash is set, and it skips the drop-down update at js/main.js:370. This throw is not modelled: the `thrown` result of `App.Render` and "throws nothing" in the lemmas about it refer only to throws from `initMarker`.
- The display radios' `value` attributes live in the page's HTML, which is not part of this model. `App.CheckedValue` takes them to be `now`, `today` and `other`.
- Network I/O (`$.getJSON`, `$.get`) and jQuery `Deferred` are not modelled. Request outcomes are the input `feeds`, or `response` for the city list.
- Two `setCity` calls that overlap are not modelled. Each call is treated as finishing before the next starts. So a stale response arriving late and overwriting a newer city is not captured.
- The opening-hours library (`OpeningTimes`, `WeekGenerator`, `OpeningRangeFormatter`, `WeekTableHtmlGenerator`) is not part of this model. Its results are the input `Env.openingTimes`.
- moment's date formatting is left out; the formatted day and time are inputs (`DateText`).
- moment-range's `contains` is taken to be inclusive at both ends. This is an assumption about that library.
- `Date`, time zones and `TIME_NOW` are left out. `now` is an integer and `getDay` is the input `Env.weekday`.
- `decodeURIComponent` in `getHashCity` is treated as the identity.
- The `window.location` fallbacks for browsers without `pushState`/`replaceState` are left out. They change the hash the same way.
- The history is a list whose last entry is the current one. Back/forward navigation and forward entries dropped by `pushState` are not modelled.
- `Text.NumberToString`: covers integers only. Fractions, and the exponent notation `toString` uses from 1e21 up, are not modelled.
- `Text.ToUpper`, `Text.ToLower`: ASCII letters only. This is exact for `toCamelCase`, whose `\w` is ASCII. For `getHashCity` it leaves out non-ASCII case mapping.
- A feature without `geometry.coordinates` makes `initMarker` throw a `TypeError`. This is not modelled; every feature has coordinates.
- A feature whose `properties` is `null` or missing makes `initMarker` throw a `TypeError` at js/main.js:173-174, before the `opening_hours` check. This is not modelled; every `Feature` carries its properties.
- A `null` entry in the city list makes `value.id` throw a `TypeError` in the `$.get` callback of `loadCities` (js/main.js:394), and the `Deferred` then never settles. This is not modelled; every `CityEntry` is an object whose `id` and `label` are each missing, `null` or present.
- A feed without `metadata` (or without its `map_initialization` or `data_source`) makes the success handler of `setCity` throw a `TypeError` in `positionMap` or `updateDataSource` (js/main.js:71, :331, :361-362), before `updateMarkers`: the old markers, radios and hash stay, and no fall-back happens. This abort is not modelled; the input `feeds` always yields a feed these two calls can read, given as its list of features.
- `App.HashReloadSameView`: covers lower-case city ids only, because the round trip fails for others. A city id with capitals, such as `Berlin`, reads back from its hash as `berlin`, so the reload requests `cities/berlin.json`, a different feed (`Cities.MixedCaseHashLeavesFeed`). It also takes `feeds` and `env` to be one fixed input for both calls: the second request is assumed to get the same answer as the first, and `now` is the same. A reload on a freshly loaded page is `App.StartupFromHash`.

## Findings

| source | as written | input that shows it | evidently intended | confidence | as-written member | corrected member |
|---|---|---|---|---|---|---|
| js/main.js:344 | `loadDefaultCity` passes `DEFAULT_CITY`, a name js/main.js never declares, so reading it throws a `ReferenceError` and no default city is loaded | `setCity("cities", false)`, or `setCity("berlin", true)` with the Berlin feed failing | pass `DEFAULT_CITY_ID` (`"karlsruhe"`), as the log message at js/main.js:374 says | medium, not executed (another script of the page could declare `DEFAULT_CITY`) | `Cities.DefaultCityUndeclared` | `Cities.CityTraceFallback` |
