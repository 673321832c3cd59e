/**
 * `initMarker` and the marker groups `updateMarkers` rebuilds: how one market
 * feature of a city feed is checked, which popup text it gets, and which of the
 * four groups (open now, open today, open another day, unclassified) it joins.
 *
 * The opening-hours library (`OpeningTimes` and the week-table generator) is an
 * input: `Env.openingTimes` gives, for the feature's opening-hours strings,
 * either nothing or the week's ranges, the next opening date as moment
 * formats it, and the week table markup.
 */
module Markers {
  import opened Js
  import opened Opening

  const DEFAULT_MARKET_TITLE := "Markt"

  /** The `properties` of one GeoJSON feature. */
  datatype Properties = Properties(
    title: Field<string>,
    location: Field<string>,
    openingHours: Field<seq<string>>,
    openingHoursUnclassified: Field<string>)

  /** A point feature: GeoJSON coordinates are `[lon, lat]`. */
  datatype Feature = Feature(lon: real, lat: real, properties: Properties)

  /** A next opening date as moment formats it: `'DD. MMM'` and `'HH:mm'`. */
  datatype DateText = DateText(dayMonth: string, hourMinute: string)

  /** What the opening-hours library reports for one list of opening-hours strings. */
  datatype Evaluation = Evaluation(
    openingRanges: Option<seq<OpeningRange>>,
    nextOpeningDate: Option<DateText>,
    weekTableHtml: string)

  /** The page's fixed `now`, its weekday function, and the opening-hours library. */
  datatype Env = Env(now: Time, weekday: Weekday, openingTimes: seq<string> -> Option<Evaluation>)

  datatype Group = Now | Today | Other | Unclassified

  datatype Marker = Marker(lat: real, lon: real, popup: string)

  /** `initMarker` throws a message, returns without a marker, or adds a marker to a group. */
  datatype MarkerOutcome = Thrown(message: string) | NoMarker | Placed(group: Group, marker: Marker)

  /** The opening words both next-date texts share. */
  const NEXT_DATE_LEAD := "<p class=\"times\">Nächster Termin: "

  /**
   * `getNextMarketDateHtml`: the shared opening words, then the formatted day
   * and time, which can be read back from fixed positions.
   */
  function NextMarketDateHtml(d: DateText): (html: string)
    ensures |html| == |NEXT_DATE_LEAD| + |d.dayMonth| + 4 + |d.hourMinute| + 9
    ensures html[..|NEXT_DATE_LEAD|] == NEXT_DATE_LEAD
    ensures html[|NEXT_DATE_LEAD|..|NEXT_DATE_LEAD| + |d.dayMonth|] == d.dayMonth
    ensures html[|NEXT_DATE_LEAD| + |d.dayMonth| + 4..|NEXT_DATE_LEAD| + |d.dayMonth| + 4 + |d.hourMinute|] == d.hourMinute
  {
    NEXT_DATE_LEAD + d.dayMonth + " ab " + d.hourMinute + " Uhr.</p>"
  }

  /** `getUndefinedMarketDateHtml`. */
  const UNDEFINED_MARKET_DATE_HTML := NEXT_DATE_LEAD + "unbekannt</p>"

  /** `opening_hours` is `null` or an empty list. */
  predicate NoOpeningHours(h: Field<seq<string>>)
  {
    h.Null? || (h.Value? && |h.v| == 0)
  }

  /** The three variables `initMarker` has set once the opening hours are evaluated. */
  datatype Schedule = Schedule(
    todayOpeningRange: Option<OpeningRange>,
    timeTableHtml: Field<string>,
    openingHoursUnclassified: Field<string>)

  /** The evaluation part of `initMarker`; `None` is its early return without a marker. */
  function ScheduleOf(p: Properties, env: Env): Option<Schedule>
    requires !p.openingHours.Undefined?
  {
    if NoOpeningHours(p.openingHours) then
      Some(Schedule(None, Undefined, p.openingHoursUnclassified))
    else
      match env.openingTimes(p.openingHours.v)
      case None => None
      case Some(ev) =>
        if ev.openingRanges.Some? then
          Some(Schedule(TodayRange(ev.openingRanges.value, env.now, env.weekday), Value(ev.weekTableHtml), Undefined))
        else if ev.nextOpeningDate.Some? then
          Some(Schedule(None, Value(NextMarketDateHtml(ev.nextOpeningDate.value)), Undefined))
        else
          Some(Schedule(None, Value(UNDEFINED_MARKET_DATE_HTML), Undefined))
  }

  /** The title shown: the placeholder for a `null` or empty title. */
  function TitleText(title: Field<string>): string
  {
    if title.Value? && |title.v| > 0 then title.v else DEFAULT_MARKET_TITLE
  }

  /** The location paragraph: empty for a `null` location. */
  function WhereHtml(location: Field<string>): string
  {
    if location.Value? then "<p>" + location.v + "</p>" else ""
  }

  function GroupOf(sch: Schedule, now: Time): Group
  {
    if sch.todayOpeningRange.Some? then
      if ContainsTime(sch.todayOpeningRange.value, now) then Now else Today
    else if !sch.openingHoursUnclassified.Undefined? then Unclassified
    else Other
  }

  /**
   * `initMarker` on one feature: a missing `opening_hours` always throws; a
   * marker is only made for a feature with `location` and `title` present,
   * and it sits at the feature's coordinates.
   */
  function InitMarker(f: Feature, env: Env): (o: MarkerOutcome)
    ensures f.properties.openingHours.Undefined? ==> o.Thrown?
    ensures o.Placed? ==> !f.properties.location.Undefined? && !f.properties.title.Undefined?
    ensures o.Placed? ==> o.marker.lat == f.lat && o.marker.lon == f.lon
    ensures o.Placed? ==> |o.marker.popup| > 4 && o.marker.popup[..4] == "<h1>"
  {
    var p := f.properties;
    if p.openingHours.Undefined? then
      Thrown("Missing property 'opening_hours' for " + JsText(p.title) + " (" + JsText(p.location) + ").")
    else
      match ScheduleOf(p, env)
      case None => NoMarker
      case Some(sch) =>
        if p.location.Undefined? then
          Thrown("Missing property 'location' for " + JsText(p.title) + ".")
        else if p.title.Undefined? then
          Thrown("Missing property 'title'.")
        else
          var body :=
            if !sch.openingHoursUnclassified.Undefined? then
              "<p class=\"unclassified\">" + JsText(sch.openingHoursUnclassified) + "</p>"
            else JsText(sch.timeTableHtml);
          var popup := "<h1>" + TitleText(p.title) + "</h1>" + WhereHtml(p.location) + body;
          Placed(GroupOf(sch, env.now), Marker(f.lat, f.lon, popup))
  }

  /** Non-empty opening hours that the library evaluates: the library's result. */
  predicate Evaluated(p: Properties, env: Env)
  {
    p.openingHours.Value? && |p.openingHours.v| > 0 && env.openingTimes(p.openingHours.v).Some?
  }

  /** The ranges of the current week the library found for the feature, if it found any. */
  function WeekRanges(p: Properties, env: Env): Option<seq<OpeningRange>>
  {
    if Evaluated(p, env) then env.openingTimes(p.openingHours.v).value.openingRanges else None
  }

  /**
   * The checks of `initMarker`, in their order: missing `opening_hours` first
   * (even when the other fields are missing too); then, unless the library
   * gave nothing and no marker is made, missing `location`, then missing
   * `title`. Nothing else throws.
   */
  lemma InitMarkerErrors(f: Feature, env: Env)
    ensures var p := f.properties; var o := InitMarker(f, env);
      && (o.Thrown? <==>
            p.openingHours.Undefined? ||
            ((NoOpeningHours(p.openingHours) || Evaluated(p, env)) && (p.location.Undefined? || p.title.Undefined?)))
      && (o.NoMarker? <==> !p.openingHours.Undefined? && !NoOpeningHours(p.openingHours) && !Evaluated(p, env))
      && (p.openingHours.Undefined? ==>
            o.message == "Missing property 'opening_hours' for " + JsText(p.title) + " (" + JsText(p.location) + ").")
      && (o.Thrown? && !p.openingHours.Undefined? && p.location.Undefined? ==>
            o.message == "Missing property 'location' for " + JsText(p.title) + ".")
      && (o.Thrown? && !p.openingHours.Undefined? && !p.location.Undefined? ==>
            p.title.Undefined? && o.message == "Missing property 'title'.")
  {
  }

  /**
   * Each placed feature is in exactly one group: `Now` when the first range on
   * today's weekday contains `now`, `Today` when there is such a range but it
   * does not contain `now`, `Unclassified` only for `null` or empty opening
   * hours with a fallback text present (even a `null` one), and `Other` in every
   * remaining case.
   */
  lemma InitMarkerGroup(f: Feature, env: Env)
    requires InitMarker(f, env).Placed?
    ensures var p := f.properties; var g := InitMarker(f, env).group;
      var today := if WeekRanges(p, env).Some? then TodayRange(WeekRanges(p, env).value, env.now, env.weekday) else None;
      && (g == Now <==> today.Some? && ContainsTime(today.value, env.now))
      && (g == Today <==> today.Some? && !ContainsTime(today.value, env.now))
      && (g == Unclassified <==> NoOpeningHours(p.openingHours) && !p.openingHoursUnclassified.Undefined?)
      && (g == Other <==> today.None? && !(NoOpeningHours(p.openingHours) && !p.openingHoursUnclassified.Undefined?))
  {
  }

  /**
   * The popup of a placed feature: the title (or the placeholder) as a heading,
   * the location paragraph, then the fallback text as an "unclassified"
   * paragraph when the opening hours are `null` or empty and the fallback is
   * present; otherwise the week table, the next-date or the unknown-date
   * paragraph. With `null` or empty opening hours and no fallback text, the
   * word "undefined" is appended.
   */
  lemma InitMarkerPopup(f: Feature, env: Env)
    requires InitMarker(f, env).Placed?
    ensures var p := f.properties; var popup := InitMarker(f, env).marker.popup;
      var head := "<h1>" + TitleText(p.title) + "</h1>" + WhereHtml(p.location);
      && (NoOpeningHours(p.openingHours) && !p.openingHoursUnclassified.Undefined? ==>
            popup == head + "<p class=\"unclassified\">" + JsText(p.openingHoursUnclassified) + "</p>")
      && (NoOpeningHours(p.openingHours) && p.openingHoursUnclassified.Undefined? ==>
            popup == head + "undefined")
      && (WeekRanges(p, env).Some? ==>
            popup == head + env.openingTimes(p.openingHours.v).value.weekTableHtml)
      && (Evaluated(p, env) && WeekRanges(p, env).None? ==>
            var ev := env.openingTimes(p.openingHours.v).value;
            popup == head + if ev.nextOpeningDate.Some? then NextMarketDateHtml(ev.nextOpeningDate.value)
                            else UNDEFINED_MARKET_DATE_HTML)
    ensures var m := InitMarker(f, env).marker; m.lat == f.lat && m.lon == f.lon
  {
  }

  /** The placeholder is used exactly for a `null` or empty title, and the shown title is never empty. */
  lemma TitleTextDefault(title: Field<string>)
    requires !title.Undefined?
    ensures |TitleText(title)| > 0
    ensures TitleText(title) == DEFAULT_MARKET_TITLE <==> title.Null? || title.v == "" || title.v == DEFAULT_MARKET_TITLE
  {
  }

  /**
   * Only the first range on today's weekday decides between `Now` and
   * `Today`: a market with a morning and an afternoon range on the same day
   * is put in `Today` during the afternoon range.
   */
  lemma OnlyFirstTodayRangeDecidesNow()
    ensures var morning := OpeningRange(8, 10);
      var afternoon := OpeningRange(14, 18);
      var p := Properties(Value("Wochenmarkt"), Null, Value(["Mo 08:00-10:00, 14:00-18:00"]), Undefined);
      var env := Env(15, _ => 1, _ => Some(Evaluation(Some([morning, afternoon]), None, "")));
      && ContainsTime(afternoon, 15) && MatchesDay(afternoon, 15, _ => 1)
      && InitMarker(Feature(8.4, 49.0, p), env).Placed?
      && InitMarker(Feature(8.4, 49.0, p), env).group == Today
  {
    var ranges := [OpeningRange(8, 10), OpeningRange(14, 18)];
    assert FirstMatch(ranges, 15, _ => 1) == 0;
  }

  // ---------------------------------------------------------------------------
  // The four layer groups

  datatype Groups = Groups(now: seq<Marker>, today: seq<Marker>, other: seq<Marker>, unclassified: seq<Marker>)
  {
    function Get(g: Group): seq<Marker>
    {
      match g
      case Now => now
      case Today => today
      case Other => other
      case Unclassified => unclassified
    }

    /** `addLayer` on one group. */
    function Add(g: Group, m: Marker): (r: Groups)
      ensures r.Get(g) == Get(g) + [m]
      ensures forall h :: h != g ==> r.Get(h) == Get(h)
    {
      match g
      case Now => this.(now := now + [m])
      case Today => this.(today := today + [m])
      case Other => this.(other := other + [m])
      case Unclassified => this.(unclassified := unclassified + [m])
    }

    function Size(): nat
    {
      |now| + |today| + |other| + |unclassified|
    }
  }

  const NoMarkers := Groups([], [], [], [])

  /** The groups after `initMarker` has run on each feature of `fs` in turn, starting from empty groups. */
  function Collect(fs: seq<Feature>, env: Env): Groups
    decreases |fs|
  {
    if fs == [] then NoMarkers
    else
      var gs := Collect(fs[..|fs| - 1], env);
      match InitMarker(fs[|fs| - 1], env)
      case Placed(g, m) => gs.Add(g, m)
      case _ => gs
  }

  /** Collecting one more feature adds its marker, if it has one, to its group. */
  lemma CollectStep(fs: seq<Feature>, i: nat, env: Env)
    requires i < |fs|
    ensures Collect(fs[..i + 1], env) ==
      if InitMarker(fs[i], env).Placed? then Collect(fs[..i], env).Add(InitMarker(fs[i], env).group, InitMarker(fs[i], env).marker)
      else Collect(fs[..i], env)
  {
    assert fs[..i + 1][..i] == fs[..i];
  }

  /** How many features of `fs` come before the first one `initMarker` throws on. */
  function Processed(fs: seq<Feature>, env: Env): (k: nat)
    ensures k <= |fs|
    ensures forall j :: 0 <= j < k ==> !InitMarker(fs[j], env).Thrown?
    ensures k < |fs| ==> InitMarker(fs[k], env).Thrown?
  {
    if fs == [] then 0
    else if InitMarker(fs[0], env).Thrown? then 0
    else 1 + Processed(fs[1..], env)
  }

  /** The message `updateMarkers` lets escape, if a feature throws. */
  function FirstError(fs: seq<Feature>, env: Env): Option<string>
  {
    var k := Processed(fs, env);
    if k < |fs| then Some(InitMarker(fs[k], env).message) else None
  }

  /** When the feature at `i` is the first to throw, the rebuild stops there with its message. */
  lemma ProcessedAt(fs: seq<Feature>, i: nat, env: Env)
    requires i < |fs| && InitMarker(fs[i], env).Thrown? && i <= Processed(fs, env)
    ensures Processed(fs, env) == i && FirstError(fs, env) == Some(InitMarker(fs[i], env).message)
  {
  }

  /** When no feature throws, every feature is handled and nothing escapes. */
  lemma ProcessedAll(fs: seq<Feature>, env: Env)
    requires |fs| <= Processed(fs, env)
    ensures Processed(fs, env) == |fs| && fs[..Processed(fs, env)] == fs && FirstError(fs, env).None?
  {
  }

  function PlacedCount(fs: seq<Feature>, env: Env): nat
    decreases |fs|
  {
    if fs == [] then 0
    else PlacedCount(fs[..|fs| - 1], env) + if InitMarker(fs[|fs| - 1], env).Placed? then 1 else 0
  }

  /** Every marker in a collected group was made from one of the features, for that group. */
  lemma {:induction false} CollectOnlyFromFeatures(fs: seq<Feature>, env: Env, g: Group, m: Marker)
    requires m in Collect(fs, env).Get(g)
    ensures exists i :: 0 <= i < |fs| && InitMarker(fs[i], env) == Placed(g, m)
    decreases |fs|
  {
    var n := |fs| - 1;
    var init := fs[..n];
    var o := InitMarker(fs[n], env);
    if o.Placed? && o.group == g && m == o.marker {
      assert InitMarker(fs[n], env) == Placed(g, m);
    } else {
      assert m in Collect(init, env).Get(g);
      CollectOnlyFromFeatures(init, env, g, m);
      var i :| 0 <= i < n && InitMarker(init[i], env) == Placed(g, m);
      assert fs[i] == init[i];
    }
  }

  /** Every feature `initMarker` places has its marker in its group. */
  lemma {:induction false} CollectHoldsEveryPlaced(fs: seq<Feature>, env: Env, i: nat)
    requires i < |fs| && InitMarker(fs[i], env).Placed?
    ensures InitMarker(fs[i], env).marker in Collect(fs, env).Get(InitMarker(fs[i], env).group)
    decreases |fs|
  {
    var n := |fs| - 1;
    if i < n {
      var init := fs[..n];
      assert init[i] == fs[i];
      CollectHoldsEveryPlaced(init, env, i);
    }
  }

  /** The groups hold one marker per placed feature: no feature lands in two groups. */
  lemma {:induction false} CollectSize(fs: seq<Feature>, env: Env)
    ensures Collect(fs, env).Size() == PlacedCount(fs, env)
    decreases |fs|
  {
    if fs != [] {
      CollectSize(fs[..|fs| - 1], env);
    }
  }
}
