/**
  Properties of `WeatherApp.ProcessWeatherData` that relate several calls:
  entries of other days play no part, the entry order does not matter, and the
  worked examples of a single matching entry and of a two-entry day.
*/
module ForecastProperties {
  import opened Wrappers
  import opened WeatherApp

  /** The entries of `es` dated `target`, in order. */
  function Matches(es: seq<Entry>, target: int): (m: seq<Entry>)
    ensures forall i :: 0 <= i < |m| ==> m[i].day == target && m[i] in es
    ensures forall e :: e in es && e.day == target ==> e in m
    decreases |es|
  {
    if |es| == 0 then []
    else if es[0].day == target then [es[0]] + Matches(es[1..], target)
    else Matches(es[1..], target)
  }

  /* ---------------------------------------------------------------------- */
  /* Entries of other days are read for their date only                     */
  /* ---------------------------------------------------------------------- */

  /** Aggregating over the target day's entries alone gives the same loop result. */
  lemma {:induction false} FoldOverMatchesOnly(a: Acc, es: seq<Entry>, target: int)
    ensures Fold(a, Matches(es, target), target) == Fold(a, es, target)
    ensures MatchedReadings(Matches(es, target), target) == MatchedReadings(es, target)
    decreases |es|
  {
    if |es| > 0 {
      FoldOverMatchesOnly(a, es[1..], target);
      if es[0].day == target {
        var m := [es[0]] + Matches(es[1..], target);
        assert m[1..] == Matches(es[1..], target);
        if es[0].main.Some? {
          FoldOverMatchesOnly(Add(a, es[0].main.value), es[1..], target);
        }
      }
    }
  }

  /** Processing the response restricted to the target day changes nothing. */
  lemma ProcessMatchesOnly(app: Summary, city: string, es: seq<Entry>, target: int)
    ensures ProcessWeatherData(app, Response(city, Matches(es, target)), target)
         == ProcessWeatherData(app, Response(city, es), target)
  {
    FoldOverMatchesOnly(Start, es, target);
  }

  /**
    `es1` and `es2` carry the same dates and differ at most in the readings of
    entries of other days.
  */
  predicate SameOnTarget(es1: seq<Entry>, es2: seq<Entry>, target: int) {
    && |es1| == |es2|
    && forall i :: 0 <= i < |es1| ==>
         es1[i].day == es2[i].day && (es1[i].day == target ==> es1[i] == es2[i])
  }

  /** The readings of entries of other days are never looked at. */
  lemma {:induction false} OtherDaysUnread(a: Acc, es1: seq<Entry>, es2: seq<Entry>, target: int)
    requires SameOnTarget(es1, es2, target)
    ensures Fold(a, es1, target) == Fold(a, es2, target)
    decreases |es1|
  {
    if |es1| > 0 {
      assert SameOnTarget(es1[1..], es2[1..], target) by {
        forall i | 0 <= i < |es1| - 1
          ensures es1[1..][i] == es1[i + 1] && es2[1..][i] == es2[i + 1]
        {
        }
      }
      OtherDaysUnread(a, es1[1..], es2[1..], target);
      if es1[0].day == target && es1[0].main.Some? {
        OtherDaysUnread(Add(a, es1[0].main.value), es1[1..], es2[1..], target);
      }
    }
  }

  /* ---------------------------------------------------------------------- */
  /* The entry order does not matter                                        */
  /* ---------------------------------------------------------------------- */

  /** Processing fails exactly when the response has a target-day entry without readings. */
  lemma {:induction false} MatchedFailsIff(es: seq<Entry>, target: int)
    ensures MatchedReadings(es, target).None? <==> Entry(target, None) in es
    decreases |es|
  {
    if |es| > 0 {
      MatchedFailsIff(es[1..], target);
      assert es == [es[0]] + es[1..];
    }
  }

  /** Each reading occurs among the matched readings as often as a target-day entry carries it. */
  lemma {:induction false} MatchedCounts(es: seq<Entry>, target: int, r: Reading)
    requires MatchedReadings(es, target).Some?
    ensures multiset(MatchedReadings(es, target).value)[r] == multiset(es)[Entry(target, Some(r))]
    decreases |es|
  {
    if |es| > 0 {
      assert es == [es[0]] + es[1..];
      MatchedCounts(es[1..], target, r);
    }
  }

  /** Sums split over concatenation. */
  lemma {:induction false} TotalAppend(s: seq<Reading>, t: seq<Reading>, m: Measure)
    ensures Total(s + t, m) == Total(s, m) + Total(t, m)
    decreases |t|
  {
    if |t| > 0 {
      var t' := t[..|t| - 1];
      assert (s + t)[..|s + t| - 1] == s + t';
      TotalAppend(s, t', m);
    } else {
      assert s + t == s;
    }
  }

  /** Removing the element at `j` takes its value off the sum. */
  lemma TotalRemove(s: seq<Reading>, j: int, m: Measure)
    requires 0 <= j < |s|
    ensures Total(s, m) == Total(s[..j] + s[j + 1..], m) + Value(s[j], m)
  {
    assert s == s[..j] + [s[j]] + s[j + 1..];
    TotalAppend(s[..j] + [s[j]], s[j + 1..], m);
    TotalAppend(s[..j], [s[j]], m);
    TotalAppend(s[..j], s[j + 1..], m);
    assert Total([s[j]], m) == Value(s[j], m) by {
      assert [s[j]][..0] == [];
    }
  }

  /** Removing the element at `j` removes one occurrence of it from the multiset. */
  lemma MultisetRemove(t: seq<Reading>, j: int)
    requires 0 <= j < |t|
    ensures multiset(t[..j] + t[j + 1..]) == multiset(t) - multiset{t[j]}
  {
    assert t == t[..j] + [t[j]] + t[j + 1..];
  }

  /** A sum does not depend on the order of its terms. */
  lemma {:induction false} TotalPermutation(s: seq<Reading>, t: seq<Reading>, m: Measure)
    requires multiset(s) == multiset(t)
    ensures Total(s, m) == Total(t, m)
    decreases |s|
  {
    if |s| > 0 {
      var x := s[|s| - 1];
      var s' := s[..|s| - 1];
      MultisetRemove(s, |s| - 1);
      assert s[..|s| - 1] + s[|s|..] == s';
      assert x in multiset(t);
      var j :| 0 <= j < |t| && t[j] == x;
      var t' := t[..j] + t[j + 1..];
      MultisetRemove(t, j);
      TotalPermutation(s', t', m);
      TotalRemove(t, j, m);
    } else {
      assert |t| == |multiset(t)| == 0;
    }
  }

  /** The daily summary of a multiset of readings is unique. */
  lemma SummaryUnique(s1: Summary, s2: Summary, city: string, rs1: seq<Reading>, rs2: seq<Reading>)
    requires multiset(rs1) == multiset(rs2)
    requires IsDailySummary(s1, city, rs1)
    requires IsDailySummary(s2, city, rs2)
    ensures s1 == s2
  {
    assert |rs1| == |multiset(rs1)| == |multiset(rs2)| == |rs2|;
    TotalPermutation(rs1, rs2, FeelsLike);
    TotalPermutation(rs1, rs2, Humidity);
    assert s1.willRain == s2.willRain by {
      if AnyRain(rs1) {
        var i :| 0 <= i < |rs1| && IsRain(rs1[i]);
        assert rs1[i] in multiset(rs2);
      }
      if AnyRain(rs2) {
        var i :| 0 <= i < |rs2| && IsRain(rs2[i]);
        assert rs2[i] in multiset(rs1);
      }
    }
    var i1 :| 0 <= i1 < |rs1| && rs1[i1].tempMax == s1.maxTempK;
    assert rs1[i1] in multiset(rs2);
    var i2 :| 0 <= i2 < |rs2| && rs2[i2].tempMax == s2.maxTempK;
    assert rs2[i2] in multiset(rs1);
    var j1 :| 0 <= j1 < |rs1| && rs1[j1].tempMin == s1.minTempK;
    assert rs1[j1] in multiset(rs2);
    var j2 :| 0 <= j2 < |rs2| && rs2[j2].tempMin == s2.minTempK;
    assert rs2[j2] in multiset(rs1);
  }

  /** Reordering the forecast entries leaves the processed summary unchanged. */
  lemma ProcessOrderIndependent(app: Summary, city: string, es1: seq<Entry>, es2: seq<Entry>, target: int)
    requires multiset(es1) == multiset(es2)
    ensures ProcessWeatherData(app, Response(city, es1), target)
         == ProcessWeatherData(app, Response(city, es2), target)
  {
    MatchedFailsIff(es1, target);
    MatchedFailsIff(es2, target);
    assert Entry(target, None) in es1 <==> Entry(target, None) in es2 by {
      assert Entry(target, None) in multiset(es1) <==> Entry(target, None) in multiset(es2);
    }
    if MatchedReadings(es1, target).Some? {
      var rs1 := MatchedReadings(es1, target).value;
      var rs2 := MatchedReadings(es2, target).value;
      forall r
        ensures multiset(rs1)[r] == multiset(rs2)[r]
      {
        MatchedCounts(es1, target, r);
        MatchedCounts(es2, target, r);
      }
      assert multiset(rs1) == multiset(rs2);
      assert |rs1| == |multiset(rs1)| == |multiset(rs2)| == |rs2|;
      if |rs1| > 0 {
        SummaryUnique(
          ProcessWeatherData(app, Response(city, es1), target).summary,
          ProcessWeatherData(app, Response(city, es2), target).summary,
          city, rs1, rs2);
      }
    }
  }

  /* ---------------------------------------------------------------------- */
  /* Worked examples                                                        */
  /* ---------------------------------------------------------------------- */

  /** With one matching entry every summary field is that entry's value. */
  lemma SingleMatch(app: Summary, resp: Response, target: int, r: Reading)
    requires MatchedReadings(resp.entries, target) == Some([r])
    ensures ProcessWeatherData(app, resp, target)
         == Outcome(Summary(resp.cityName, IsRain(r), r.tempMax, r.tempMin, r.feelsLike, r.humidity), true)
  {
    var rs := [r];
    assert rs[..0] == [];
    assert AnyRain(rs) <==> IsRain(r) by {
      if IsRain(r) {
        assert IsRain(rs[0]);
      }
    }
    var s := ProcessWeatherData(app, resp, target).summary;
    var i :| 0 <= i < 1 && rs[i].tempMax == s.maxTempK;
    var j :| 0 <= j < 1 && rs[j].tempMin == s.minTempK;
    assert s.willRain == IsRain(r);
    assert s.maxTempK == r.tempMax;
    assert s.minTempK == r.tempMin;
    assert Total(rs, FeelsLike) == r.feelsLike;
    assert s.feelsLikeTempK == r.feelsLike;
    assert Total(rs, Humidity) == r.humidity;
    assert s.avgHumidity == r.humidity;
    assert s.cityName == resp.cityName;
  }

  /** Two entries of the day: rain from code 500, true extremes, and the means of the rest. */
  lemma TwoEntryDay(app: Summary)
    ensures
      var resp := Response("Bern", [
        Entry(1, Some(Reading(290.0, 285.0, 288.0, 60.0, 800))),
        Entry(1, Some(Reading(295.0, 287.0, 291.0, 55.0, 500))),
        Entry(2, None)]);
      ProcessWeatherData(app, resp, 1)
        == Outcome(Summary("Bern", true, 295.0, 285.0, 289.5, 57.5), true)
  {
  }
}
