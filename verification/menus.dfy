/**
  The interactive loop of `main.py` (`Main.run` and its handlers) as a
  transition function. Each step consumes one menu choice, as returned by
  `get_menu_choice`, together with what the outside world answers during that
  step: today's day number, the coordinates typed in the manual-entry dialog,
  and the outcome of the forecast request.
*/
module Menus {
  import opened Wrappers
  import opened Floats
  import WeatherApp

  /** Where the loop waits for the next choice. */
  datatype Phase =
    | SelectDate
    | SelectLocation(target: int)   // the day number chosen in the date menu
    | SelectAI
    | Exited

  /** The loop's position together with the summary held by the `WeatherApp` instance. */
  datatype Session = Session(phase: Phase, app: WeatherApp.Summary)

  /** The state the program starts in. */
  const Initial: Session := Session(SelectDate, WeatherApp.Initial)

  /**
    The forecast request and the reading of its top level:
    - `Responded`: a decoded response with a city name and an entry list;
    - `ListUnreadable`: the response has a city name, but its `list` is
      missing, not iterable, or yields something other than objects, so
      processing raises right after the city name has been written (an
      iterable `list` that yields nothing, such as `{}` or `""`, is a
      `Responded` with no entries);
    - `FetchFailed`: a failure before any field was written (transport error,
      a status other than 200, or a response without `city.name`).
  */
  datatype Fetch =
    | Responded(resp: WeatherApp.Response)
    | ListUnreadable(cityName: string)
    | FetchFailed

  /** The request or the processing of its response raises for day `target`. */
  predicate FetchRaises(fetch: Fetch, target: int) {
    match fetch
    case Responded(resp) => WeatherApp.MatchedReadings(resp.entries, target).None?
    case _ => true
  }

  /** One step's input. `lat` and `lon` are what `parse_coordinate` returned. */
  datatype Input = Input(choice: int, today: int, lat: Float, lon: Float, fetch: Fetch)

  /** What a location handler leaves behind: the summary, and whether to show the location menu again. */
  datatype Handled = Handled(app: WeatherApp.Summary, retry: bool)

  /* ---------------------------------------------------------------------- */
  /* Location handlers                                                      */
  /* ---------------------------------------------------------------------- */

  /** `is_valid_coordinate`: Python's chained `min_val <= value <= max_val`. */
  function IsValidCoordinate(value: Float, lo: real, hi: real): (ok: bool)
    ensures ok <==> value.Finite? && lo <= value.value <= hi
  {
    AtMost(Finite(lo), value) && AtMost(value, Finite(hi))
  }

  /**
    Fetching the forecast for `target` and showing it, as the city-search and
    auto-location handlers do: retry exactly when the request or the processing
    raised.
  */
  function FetchAndShow(app: WeatherApp.Summary, fetch: Fetch, target: int): (h: Handled)
    ensures h.retry <==> FetchRaises(fetch, target)
    ensures fetch.FetchFailed? ==> h.app == app
    ensures fetch.ListUnreadable? ==> h.app == app.(cityName := fetch.cityName)
    ensures fetch.Responded? ==> h.app.cityName == fetch.resp.cityName
    ensures fetch.Responded? && (h.retry || |WeatherApp.MatchedReadings(fetch.resp.entries, target).value| == 0) ==>
              h.app == app.(cityName := fetch.resp.cityName)
    ensures fetch.Responded? && !h.retry && |WeatherApp.MatchedReadings(fetch.resp.entries, target).value| > 0 ==>
              WeatherApp.IsDailySummary(h.app, fetch.resp.cityName, WeatherApp.MatchedReadings(fetch.resp.entries, target).value)
  {
    match fetch
    case FetchFailed => Handled(app, true)
    case ListUnreadable(cityName) => Handled(app.(cityName := cityName), true)
    case Responded(resp) =>
      var o := WeatherApp.ProcessWeatherData(app, resp, target);
      Handled(o.summary, !o.ok)
  }

  /**
    `handle_manual_coordinates`: fetch only when both coordinates are in range;
    out-of-range coordinates skip the fetch and do not ask for a retry.
  */
  function HandleManualCoordinates(app: WeatherApp.Summary, lat: Float, lon: Float, fetch: Fetch, target: int): (h: Handled)
    ensures !(lat.Finite? && -90.0 <= lat.value <= 90.0 && lon.Finite? && -180.0 <= lon.value <= 180.0) ==>
              h == Handled(app, false)
    ensures h.retry ==> lat.Finite? && lon.Finite?
    ensures lat.Finite? && -90.0 <= lat.value <= 90.0 && lon.Finite? && -180.0 <= lon.value <= 180.0 ==>
              h == FetchAndShow(app, fetch, target)
  {
    if IsValidCoordinate(lat, -90.0, 90.0) && IsValidCoordinate(lon, -180.0, 180.0) then
      FetchAndShow(app, fetch, target)
    else
      Handled(app, false)
  }

  /* ---------------------------------------------------------------------- */
  /* The transition function                                                */
  /* ---------------------------------------------------------------------- */

  /** The two choices that end the program. */
  predicate IsExitChoice(p: Phase, choice: int) {
    (p == SelectDate && choice == 6) || (p.SelectLocation? && choice == 4)
  }

  /**
    The order the menus follow: staying put, date to location, location to the
    AI menu, AI menu back to the date menu, and exiting from the first two.
  */
  predicate Follows(p: Phase, q: Phase) {
    || p == q
    || (p == SelectDate && (q.SelectLocation? || q == Exited))
    || (p.SelectLocation? && (q == SelectAI || q == Exited))
    || (p == SelectAI && q == SelectDate)
  }

  /** One pass through the current menu. */
  function Step(s: Session, i: Input): (r: Session)
    // Menus are only visited in order, and the program ends only by an exit choice.
    ensures Follows(s.phase, r.phase)
    ensures r.phase == Exited <==> s.phase == Exited || IsExitChoice(s.phase, i.choice)
    ensures s.phase == Exited ==> r == s
    // Only a location handler can change the summary.
    ensures r.app != s.app ==> s.phase.SelectLocation? && i.choice in {1, 2, 3}
    // Date menu: choices 1-5 pick today plus 0-4 days; anything but 6 leaves everything as it was.
    ensures s.phase == SelectDate && 1 <= i.choice <= 5 ==>
              r == Session(SelectLocation(i.today + (i.choice - 1)), s.app)
    ensures s.phase == SelectDate && !(1 <= i.choice <= 6) ==> r == s
    // Location menu: an unknown choice or a fetch that raised shows the location menu again.
    ensures s.phase.SelectLocation? && !(1 <= i.choice <= 4) ==> r == s
    ensures s.phase.SelectLocation? && FetchesForecast(i) ==>
              (r.phase == s.phase <==> FetchRaises(i.fetch, s.phase.target))
    ensures s.phase.SelectLocation? && FetchesForecast(i) ==>
              r.app == FetchAndShow(s.app, i.fetch, s.phase.target).app
    ensures s.phase.SelectLocation? && i.choice == 3 && !CoordinatesInRange(i) ==>
              r == Session(SelectAI, s.app)
    // AI menu: 1 and 2 return to the date menu, anything else asks again.
    ensures s.phase == SelectAI ==> r.app == s.app
    ensures s.phase == SelectAI ==> (r.phase == SelectDate <==> i.choice == 1 || i.choice == 2)
  {
    match s.phase
    case Exited => s
    case SelectDate =>
      if 1 <= i.choice <= 5 then Session(SelectLocation(i.today + (i.choice - 1)), s.app)
      else if i.choice == 6 then Session(Exited, s.app)
      else s
    case SelectLocation(target) =>
      if i.choice == 4 then Session(Exited, s.app)
      else if 1 <= i.choice <= 3 then
        var h :=
          if i.choice == 3 then HandleManualCoordinates(s.app, i.lat, i.lon, i.fetch, target)
          else FetchAndShow(s.app, i.fetch, target);
        Session(if h.retry then s.phase else SelectAI, h.app)
      else s
    case SelectAI =>
      if i.choice == 1 || i.choice == 2 then Session(SelectDate, s.app) else s
  }

  /** Both typed coordinates are in range. */
  predicate CoordinatesInRange(i: Input) {
    IsValidCoordinate(i.lat, -90.0, 90.0) && IsValidCoordinate(i.lon, -180.0, 180.0)
  }

  /** The location choice requests a forecast: city search, auto-location, or coordinates in range. */
  predicate FetchesForecast(i: Input) {
    i.choice == 1 || i.choice == 2 || (i.choice == 3 && CoordinatesInRange(i))
  }

  /** The session after a sequence of steps. */
  function Run(s: Session, xs: seq<Input>): Session
    decreases |xs|
  {
    if |xs| == 0 then s else Run(Step(s, xs[0]), xs[1..])
  }

  /* ---------------------------------------------------------------------- */
  /* Properties of runs                                                     */
  /* ---------------------------------------------------------------------- */

  /** Once the program has ended, further input changes nothing. */
  lemma {:induction false} ExitedIsFinal(s: Session, xs: seq<Input>)
    requires s.phase == Exited
    ensures Run(s, xs) == s
    decreases |xs|
  {
    if |xs| > 0 {
      ExitedIsFinal(Step(s, xs[0]), xs[1..]);
    }
  }

  /** A run that ends the program contains an exit choice made in the date or location menu. */
  lemma {:induction false} ExitNeedsExitChoice(s: Session, xs: seq<Input>)
    requires s.phase != Exited
    requires Run(s, xs).phase == Exited
    ensures exists k :: 0 <= k < |xs| && IsExitChoice(Run(s, xs[..k]).phase, xs[k].choice)
    decreases |xs|
  {
    assert |xs| > 0;
    var s' := Step(s, xs[0]);
    if s'.phase == Exited {
      assert xs[..0] == [];
      assert IsExitChoice(Run(s, xs[..0]).phase, xs[0].choice);
    } else {
      ExitNeedsExitChoice(s', xs[1..]);
      var k :| 0 <= k < |xs[1..]| && IsExitChoice(Run(s', xs[1..][..k]).phase, xs[1..][k].choice);
      assert xs[..k + 1][1..] == xs[1..][..k];
      assert Run(s, xs[..k + 1]) == Run(s', xs[1..][..k]);
      assert IsExitChoice(Run(s, xs[..k + 1]).phase, xs[k + 1].choice);
    }
  }

  /**
    Over a run, the summary changes only through a location choice 1, 2 or 3
    made while the location menu was shown.
  */
  lemma {:induction false} SummaryChangesOnlyByLocation(s: Session, xs: seq<Input>)
    requires Run(s, xs).app != s.app
    ensures exists k :: 0 <= k < |xs| && Run(s, xs[..k]).phase.SelectLocation? && xs[k].choice in {1, 2, 3}
    decreases |xs|
  {
    assert |xs| > 0;
    var s' := Step(s, xs[0]);
    if s'.app != s.app {
      assert xs[..0] == [];
      assert Run(s, xs[..0]) == s;
    } else {
      SummaryChangesOnlyByLocation(s', xs[1..]);
      var k :| 0 <= k < |xs[1..]| && Run(s', xs[1..][..k]).phase.SelectLocation? && xs[1..][k].choice in {1, 2, 3};
      assert xs[..k + 1][1..] == xs[1..][..k];
      assert Run(s, xs[..k + 1]) == Run(s', xs[1..][..k]);
    }
  }

  /** Invalid date-menu choices leave the session exactly as it was. */
  lemma {:induction false} InvalidDateChoicesIgnored(s: Session, xs: seq<Input>)
    requires s.phase == SelectDate
    requires forall k :: 0 <= k < |xs| ==> !(1 <= xs[k].choice <= 6)
    ensures Run(s, xs) == s
    decreases |xs|
  {
    if |xs| > 0 {
      InvalidDateChoicesIgnored(Step(s, xs[0]), xs[1..]);
    }
  }

  /** From every menu the program can be ended within two choices. */
  lemma ExitAlwaysReachable(s: Session, today: int, fetch: Fetch)
    requires s.phase != Exited
    ensures
      var quit := Input(if s.phase.SelectLocation? then 4 else 6, today, NaN, NaN, fetch);
      var skip := Input(2, today, NaN, NaN, fetch);
      if s.phase == SelectAI then Run(s, [skip, quit]).phase == Exited
      else Run(s, [quit]).phase == Exited
  {
    var quit := Input(if s.phase.SelectLocation? then 4 else 6, today, NaN, NaN, fetch);
    var skip := Input(2, today, NaN, NaN, fetch);
    if s.phase == SelectAI {
      var s1 := Step(s, skip);
      assert s1.phase == SelectDate;
      assert [skip, quit][1..] == [quit];
      assert Run(s1, [quit]) == Run(Step(s1, quit), []);
    } else {
      assert Run(s, [quit]) == Run(Step(s, quit), []);
    }
  }

  /**
    A full round: choose today, search a city whose forecast has two entries for
    today, decline the AI suggestion. The loop is back at the date menu with the
    day's summary in place.
  */
  lemma OneRound(today: int)
    ensures
      var resp := WeatherApp.Response("Bern", [
        WeatherApp.Entry(today, Some(WeatherApp.Reading(290.0, 285.0, 288.0, 60.0, 800))),
        WeatherApp.Entry(today, Some(WeatherApp.Reading(295.0, 287.0, 291.0, 55.0, 500)))]);
      var xs := [
        Input(1, today, NaN, NaN, FetchFailed),
        Input(1, today, NaN, NaN, Responded(resp)),
        Input(2, today, NaN, NaN, FetchFailed)];
      Run(Initial, xs) == Session(SelectDate, WeatherApp.Summary("Bern", true, 295.0, 285.0, 289.5, 57.5))
  {
    var r1 := WeatherApp.Reading(290.0, 285.0, 288.0, 60.0, 800);
    var r2 := WeatherApp.Reading(295.0, 287.0, 291.0, 55.0, 500);
    var resp := WeatherApp.Response("Bern", [WeatherApp.Entry(today, Some(r1)), WeatherApp.Entry(today, Some(r2))]);
    var x0 := Input(1, today, NaN, NaN, FetchFailed);
    var x1 := Input(1, today, NaN, NaN, Responded(resp));
    var x2 := Input(2, today, NaN, NaN, FetchFailed);
    var es := resp.entries;
    assert es[1..] == [WeatherApp.Entry(today, Some(r2))];
    assert es[1..][1..] == [];
    assert WeatherApp.MatchedReadings(es[1..], today) == Some([r2]) by {
      assert [r2] + [] == [r2];
    }
    var rs := [r1, r2];
    assert WeatherApp.MatchedReadings(es, today) == Some(rs) by {
      assert [r1] + [r2] == rs;
    }
    assert rs[..1] == [r1];
    assert [r1][..0] == [];
    assert WeatherApp.Total([r1], WeatherApp.FeelsLike) == 288.0;
    assert WeatherApp.Total([r1], WeatherApp.Humidity) == 60.0;
    assert WeatherApp.Total(rs, WeatherApp.FeelsLike) == 579.0;
    assert WeatherApp.Total(rs, WeatherApp.Humidity) == 115.0;
    var s1 := Step(Initial, x0);
    assert s1 == Session(SelectLocation(today), WeatherApp.Initial);
    var s2 := Step(s1, x1);
    var sum := s2.app;
    assert s2.phase == SelectAI;
    assert WeatherApp.IsDailySummary(sum, "Bern", rs);
    assert WeatherApp.IsRain(rs[1]);
    var i :| 0 <= i < 2 && rs[i].tempMax == sum.maxTempK;
    var j :| 0 <= j < 2 && rs[j].tempMin == sum.minTempK;
    assert sum == WeatherApp.Summary("Bern", true, 295.0, 285.0, 289.5, 57.5);
    var xs := [x0, x1, x2];
    assert xs[1..] == [x1, x2] && xs[1..][1..] == [x2] && xs[1..][1..][1..] == [];
    var s3 := Step(s2, x2);
    assert s3 == Session(SelectDate, sum);
    assert Run(s3, []) == s3;
    assert Run(s2, [x2]) == s3;
    assert Run(s1, [x1, x2]) == s3;
    assert Run(Initial, xs) == s3;
  }
}
