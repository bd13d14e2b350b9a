/**
  The forecast side of `WeatherApp.py`: turning a forecast response (a city name
  and a list of three-hourly entries) into the daily summary the assistant shows,
  and converting Kelvin temperatures for display.

  Dates are day numbers: an entry carries the calendar day already extracted from
  its `dt_txt` timestamp, and the target date is a day number too.
*/
module WeatherApp {
  import opened Wrappers
  import opened Floats

  /** Condition codes below this value belong to the precipitation groups. */
  const RainCodeLimit: int := 700

  /** The `main` readings and the first `weather` condition code of one forecast entry. */
  datatype Reading = Reading(
    tempMax: real,
    tempMin: real,
    feelsLike: real,
    humidity: real,
    conditionCode: int)

  /**
    One entry of the response's `list`. `main` is `None` when the entry lacks the
    `main` object or a first `weather` element; the source only looks at it for
    entries of the target day.
  */
  datatype Entry = Entry(day: int, main: Option<Reading>)

  /** The parts of a decoded forecast response the aggregation reads. */
  datatype Response = Response(cityName: string, entries: seq<Entry>)

  /** The summary fields of a `WeatherApp` instance. */
  datatype Summary = Summary(
    cityName: string,
    willRain: bool,
    maxTempK: real,
    minTempK: real,
    feelsLikeTempK: real,
    avgHumidity: real)

  /** The summary a fresh instance starts with. */
  const Initial: Summary := Summary("", false, 0.0, 0.0, 0.0, 0.0)

  predicate IsRain(r: Reading) {
    r.conditionCode < RainCodeLimit
  }

  /* ---------------------------------------------------------------------- */
  /* Reference definitions                                                  */
  /* ---------------------------------------------------------------------- */

  /**
    The readings of the entries dated `target`, in order, or `None` when one of
    those entries has no readings (the source then raises a `KeyError`, or an
    `IndexError` for an empty `weather` list).
  */
  function MatchedReadings(es: seq<Entry>, target: int): Option<seq<Reading>>
    decreases |es|
  {
    if |es| == 0 then Some([])
    else if es[0].day != target then MatchedReadings(es[1..], target)
    else match (es[0].main, MatchedReadings(es[1..], target))
      case (Some(r), Some(rest)) => Some([r] + rest)
      case _ => None
  }

  /** The two quantities that are averaged. */
  datatype Measure = FeelsLike | Humidity

  function Value(r: Reading, m: Measure): real {
    match m
    case FeelsLike => r.feelsLike
    case Humidity => r.humidity
  }

  /** The sum of one measure over a sequence of readings. */
  function Total(rs: seq<Reading>, m: Measure): real
    decreases |rs|
  {
    if |rs| == 0 then 0.0 else Total(rs[..|rs| - 1], m) + Value(rs[|rs| - 1], m)
  }

  /** Some reading of `rs` is in a precipitation group. */
  predicate AnyRain(rs: seq<Reading>) {
    exists i :: 0 <= i < |rs| && IsRain(rs[i])
  }

  /** `x` is the largest `tempMax` of the non-empty `rs`. */
  predicate IsMaxTemp(x: real, rs: seq<Reading>) {
    && (forall i :: 0 <= i < |rs| ==> rs[i].tempMax <= x)
    && (exists i :: 0 <= i < |rs| && rs[i].tempMax == x)
  }

  /** `x` is the smallest `tempMin` of the non-empty `rs`. */
  predicate IsMinTemp(x: real, rs: seq<Reading>) {
    && (forall i :: 0 <= i < |rs| ==> x <= rs[i].tempMin)
    && (exists i :: 0 <= i < |rs| && rs[i].tempMin == x)
  }

  /** `s` is the daily summary of the non-empty readings `rs` for city `city`. */
  predicate IsDailySummary(s: Summary, city: string, rs: seq<Reading>) {
    && |rs| > 0
    && s.cityName == city
    && (s.willRain <==> AnyRain(rs))
    && IsMaxTemp(s.maxTempK, rs)
    && IsMinTemp(s.minTempK, rs)
    && s.feelsLikeTempK == Total(rs, FeelsLike) / |rs| as real
    && s.avgHumidity == Total(rs, Humidity) / |rs| as real
  }

  /* ---------------------------------------------------------------------- */
  /* The aggregation loop                                                   */
  /* ---------------------------------------------------------------------- */

  /** The loop's local variables. */
  datatype Acc = Acc(
    tempMax: Float,
    tempMin: Float,
    feelsLikeTotal: real,
    humidityTotal: real,
    count: nat,
    rainDetected: bool)

  /** The values the loop starts from: -inf, +inf, zero sums, no rain. */
  const Start: Acc := Acc(NegInf, PosInf, 0.0, 0.0, 0, false)

  /** The body of the loop for one entry of the target day. */
  function Add(a: Acc, r: Reading): Acc {
    Acc(
      PyMax(a.tempMax, Finite(r.tempMax)),
      PyMin(a.tempMin, Finite(r.tempMin)),
      a.feelsLikeTotal + r.feelsLike,
      a.humidityTotal + r.humidity,
      a.count + 1,
      a.rainDetected || IsRain(r))
  }

  /**
    The loop over the forecast entries: entries of other days are skipped after
    looking at their date only; an entry of the target day without readings
    stops the loop with an error (`None`).
  */
  function Fold(a: Acc, es: seq<Entry>, target: int): Option<Acc>
    decreases |es|
  {
    if |es| == 0 then Some(a)
    else if es[0].day != target then Fold(a, es[1..], target)
    else match es[0].main
      case None => None
      case Some(r) => Fold(Add(a, r), es[1..], target)
  }

  /** `a` holds exactly what the loop has gathered from the readings `rs`. */
  predicate Accounts(a: Acc, rs: seq<Reading>) {
    && a.count == |rs|
    && a.feelsLikeTotal == Total(rs, FeelsLike)
    && a.humidityTotal == Total(rs, Humidity)
    && (a.rainDetected <==> AnyRain(rs))
    && (|rs| == 0 ==> a.tempMax == NegInf && a.tempMin == PosInf)
    && (|rs| > 0 ==>
          && a.tempMax.Finite? && IsMaxTemp(a.tempMax.value, rs)
          && a.tempMin.Finite? && IsMinTemp(a.tempMin.value, rs))
  }

  /** One loop iteration extends what the accumulator accounts for by one reading. */
  lemma AddAccounts(a: Acc, rs: seq<Reading>, r: Reading)
    requires Accounts(a, rs)
    ensures Accounts(Add(a, r), rs + [r])
  {
  }

  /**
    The loop fails exactly when some entry of the target day lacks readings, and
    otherwise accounts for the readings of the target day's entries.
  */
  lemma {:induction false} FoldAccounts(a: Acc, rs: seq<Reading>, es: seq<Entry>, target: int)
    requires Accounts(a, rs)
    ensures Fold(a, es, target).Some? <==> MatchedReadings(es, target).Some?
    ensures Fold(a, es, target).Some? ==>
              Accounts(Fold(a, es, target).value, rs + MatchedReadings(es, target).value)
    decreases |es|
  {
    if |es| == 0 {
      assert rs + [] == rs;
    } else if es[0].day != target {
      FoldAccounts(a, rs, es[1..], target);
    } else if es[0].main.Some? {
      var r := es[0].main.value;
      AddAccounts(a, rs, r);
      FoldAccounts(Add(a, r), rs + [r], es[1..], target);
      if MatchedReadings(es[1..], target).Some? {
        var rest := MatchedReadings(es[1..], target).value;
        assert rs + [r] + rest == rs + ([r] + rest);
      }
    }
  }

  /* ---------------------------------------------------------------------- */
  /* process_weather_data                                                   */
  /* ---------------------------------------------------------------------- */

  /**
    The instance's summary after processing, and whether processing completed
    (`false`: a `KeyError` or `IndexError` escaped the loop).
  */
  datatype Outcome = Outcome(summary: Summary, ok: bool)

  /**
    Processes a forecast response for `target` starting from the summary `app`.
    The city name is replaced first and unconditionally; the other fields are
    replaced only when the loop completed and at least one entry matched.
  */
  function ProcessWeatherData(app: Summary, resp: Response, target: int): (r: Outcome)
    ensures r.summary.cityName == resp.cityName
    ensures r.ok <==> MatchedReadings(resp.entries, target).Some?
    ensures !r.ok || |MatchedReadings(resp.entries, target).value| == 0 ==>
              r.summary == app.(cityName := resp.cityName)
    ensures r.ok && |MatchedReadings(resp.entries, target).value| > 0 ==>
              IsDailySummary(r.summary, resp.cityName, MatchedReadings(resp.entries, target).value)
  {
    var renamed := app.(cityName := resp.cityName);
    FoldAccounts(Start, [], resp.entries, target);
    match Fold(Start, resp.entries, target)
    case None => Outcome(renamed, false)
    case Some(a) =>
      assert [] + MatchedReadings(resp.entries, target).value == MatchedReadings(resp.entries, target).value;
      if a.count > 0 then
        Outcome(
          Summary(
            resp.cityName,
            a.rainDetected,
            a.tempMax.value,
            a.tempMin.value,
            a.feelsLikeTotal / a.count as real,
            a.humidityTotal / a.count as real),
          true)
      else
        Outcome(renamed, true)
  }

  /* ---------------------------------------------------------------------- */
  /* convert_kelvin_to_celsius_fahrenheit                                   */
  /* ---------------------------------------------------------------------- */

  /** Kelvin to the pair (Celsius, Fahrenheit). */
  function KelvinToCelsiusFahrenheit(kelvin: real): (r: (real, real))
    ensures r.0 + 273.15 == kelvin
    ensures (r.1 - 32.0) * 5.0 / 9.0 == r.0
  {
    var celsius := kelvin - 273.15;
    (celsius, celsius * 9.0 / 5.0 + 32.0)
  }

  /** Absolute zero is -273.15 degrees Celsius and -459.67 degrees Fahrenheit. */
  lemma AbsoluteZero()
    ensures KelvinToCelsiusFahrenheit(0.0) == (-273.15, -459.67)
  {
  }

  /** Both converted scales are strictly increasing in the Kelvin value. */
  lemma ConversionStrictlyIncreasing(k1: real, k2: real)
    requires k1 < k2
    ensures KelvinToCelsiusFahrenheit(k1).0 < KelvinToCelsiusFahrenheit(k2).0
    ensures KelvinToCelsiusFahrenheit(k1).1 < KelvinToCelsiusFahrenheit(k2).1
  {
  }
}
