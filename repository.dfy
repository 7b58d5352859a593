/*
  The weather repository: a read-through cache over the weather store.
  The cache is a map from string keys to cached entities; the store holds
  the locations, readings, forecasts and alerts as sequences. Reads of the
  store are functions of those sequences; the two cached lookups and the
  two creations are methods of the repository object.
*/
module Repository {
  import opened Wrappers
  import opened Config
  import opened Values
  import opened Sequences
  import opened Series
  import opened Entities

  // ---------------------------------------------------------------------
  // Cache keys
  // ---------------------------------------------------------------------

  function DigitChar(d: int): char
    requires 0 <= d < 10
  {
    "0123456789"[d]
  }

  /** Decimal rendering of a natural number, most significant digit first. */
  function NatToString(n: nat): (s: string)
    ensures |s| >= 1
    ensures n < 10 <==> |s| == 1
    ensures forall i :: 0 <= i < |s| ==> '0' <= s[i] <= '9'
    decreases n
  {
    if n < 10 then [DigitChar(n)] else NatToString(n / 10) + [DigitChar(n % 10)]
  }

  lemma {:induction false} NatToStringInjective(a: nat, b: nat)
    requires NatToString(a) == NatToString(b)
    ensures a == b
    decreases a
  {
    if a >= 10 && b >= 10 {
      var sa, sb := NatToString(a), NatToString(b);
      assert sa[|sa| - 1] == DigitChar(a % 10) && sb[|sb| - 1] == DigitChar(b % 10);
      assert a % 10 == b % 10;
      assert sa[..|sa| - 1] == NatToString(a / 10);
      assert sb[..|sb| - 1] == NatToString(b / 10);
      NatToStringInjective(a / 10, b / 10);
    } else if a < 10 && b < 10 {
      assert NatToString(a)[0] == DigitChar(a);
      assert NatToString(b)[0] == DigitChar(b);
    }
  }

  /** Decimal rendering of an integer, with a leading minus when negative. */
  function IntToString(n: int): string {
    if n < 0 then "-" + NatToString(-n) else NatToString(n)
  }

  lemma IntToStringInjective(a: int, b: int)
    requires IntToString(a) == IntToString(b)
    ensures a == b
  {
    IntToStringSign(a);
    IntToStringSign(b);
    if a < 0 && b < 0 {
      assert NatToString(-a) == IntToString(a)[1..];
      assert NatToString(-b) == IntToString(b)[1..];
      NatToStringInjective(-a, -b);
    } else if a >= 0 && b >= 0 {
      NatToStringInjective(a, b);
    } else {
      assert false;
    }
  }

  lemma IntToStringSign(n: int)
    ensures |IntToString(n)| >= 1
    ensures IntToString(n)[0] == '-' <==> n < 0
  {
    if n >= 0 {
      assert '0' <= NatToString(n)[0] <= '9';
    }
  }

  function LocationKey(id: int): string {
    CacheKeyPrefix + "location_" + IntToString(id)
  }

  function CurrentWeatherKey(id: int): string {
    CacheKeyPrefix + "current_weather_" + IntToString(id)
  }

  /** Distinct ids have distinct keys, and location keys never collide with
      current-weather keys. */
  lemma CacheKeysDistinct(a: int, b: int)
    ensures LocationKey(a) == LocationKey(b) ==> a == b
    ensures CurrentWeatherKey(a) == CurrentWeatherKey(b) ==> a == b
    ensures LocationKey(a) != CurrentWeatherKey(b)
  {
    var p := CacheKeyPrefix + "location_";
    var q := CacheKeyPrefix + "current_weather_";
    if LocationKey(a) == LocationKey(b) {
      assert IntToString(a) == LocationKey(a)[|p|..];
      assert IntToString(b) == LocationKey(b)[|p|..];
      IntToStringInjective(a, b);
    }
    if CurrentWeatherKey(a) == CurrentWeatherKey(b) {
      assert IntToString(a) == CurrentWeatherKey(a)[|q|..];
      assert IntToString(b) == CurrentWeatherKey(b)[|q|..];
      IntToStringInjective(a, b);
    }
    assert LocationKey(a)[8] == 'l';
    assert CurrentWeatherKey(b)[8] == 'c';
  }

  // ---------------------------------------------------------------------
  // Store queries
  // ---------------------------------------------------------------------

  function DayOf(timestamp: int): int {
    timestamp / SecondsPerDay
  }

  /** The readings of a location taken at or after `since`. */
  /** The readings of a location taken at or after `since`, every copy kept. */
  function InWindow(observations: seq<Observation>, locationId: int, since: int): (r: seq<Observation>)
    ensures forall o :: o in r <==> o in observations && o.locationId == locationId && o.timestamp >= since
    ensures forall o :: multiset(r)[o] == if o.locationId == locationId && o.timestamp >= since
                                          then multiset(observations)[o] else 0
  {
    var p := (o: Observation) => o.locationId == locationId && o.timestamp >= since;
    forall o ensures multiset(Filter(observations, p))[o] == if p(o) then multiset(observations)[o] else 0 {
      FilterMultiplicity(observations, p, o);
    }
    Filter(observations, p)
  }

  /** The readings taken on `date`, every copy kept. */
  function ReadingsOn(readings: seq<Observation>, date: int): (r: seq<Observation>)
    ensures forall o :: o in r <==> o in readings && DayOf(o.timestamp) == date
    ensures forall o :: multiset(r)[o] == if DayOf(o.timestamp) == date then multiset(readings)[o] else 0
  {
    var p := (o: Observation) => DayOf(o.timestamp) == date;
    forall o ensures multiset(Filter(readings, p))[o] == if p(o) then multiset(readings)[o] else 0 {
      FilterMultiplicity(readings, p, o);
    }
    Filter(readings, p)
  }

  function Dates(readings: seq<Observation>): (r: seq<int>)
    ensures |r| == |readings|
    ensures forall i :: 0 <= i < |r| ==> r[i] == DayOf(readings[i].timestamp)
  {
    seq(|readings|, i requires 0 <= i < |readings| => DayOf(readings[i].timestamp))
  }

  function Temperatures(readings: seq<Observation>): (r: seq<real>)
    ensures |r| == |readings|
    ensures forall i :: 0 <= i < |r| ==> r[i] == readings[i].temperature
  {
    seq(|readings|, i requires 0 <= i < |readings| => readings[i].temperature)
  }

  function Rainfalls(readings: seq<Observation>): (r: seq<real>)
    ensures |r| == |readings|
    ensures forall i :: 0 <= i < |r| ==> r[i] == readings[i].rainfall
  {
    seq(|readings|, i requires 0 <= i < |readings| => readings[i].rainfall)
  }

  function Humidities(readings: seq<Observation>): (r: seq<real>)
    ensures |r| == |readings|
  {
    seq(|readings|, i requires 0 <= i < |readings| => readings[i].humidity)
  }

  function SoilMoistures(readings: seq<Observation>): (r: seq<Option<real>>)
    ensures |r| == |readings|
  {
    seq(|readings|, i requires 0 <= i < |readings| => readings[i].soilMoisture)
  }

  function SoilTemperatures(readings: seq<Observation>): (r: seq<Option<real>>)
    ensures |r| == |readings|
  {
    seq(|readings|, i requires 0 <= i < |readings| => readings[i].soilTemperature)
  }

  /** The average of the values present, absent when none is. */
  function AverageOfPresent(values: seq<Option<real>>): (r: Option<real>)
    ensures r.None? <==> forall i :: 0 <= i < |values| ==> values[i].None?
    ensures r.Some? ==> r.value == Mean(Present(values))
    ensures r.Some? ==> Min(Present(values)) <= r.value <= Max(Present(values))
  {
    var present := Present(values);
    if |present| == 0 then None
    else
      MeanBetweenExtremes(present);
      Some(Mean(present))
  }

  /** A temperature of the series is the temperature of some reading. */
  lemma ReachedBy(readings: seq<Observation>, t: real)
    requires t in Temperatures(readings)
    ensures exists o :: o in readings && o.temperature == t
  {
    var i :| 0 <= i < |readings| && Temperatures(readings)[i] == t;
    assert readings[i] in readings;
  }

  /** The aggregates of one day's readings. */
  function DaySummary(date: int, readings: seq<Observation>): (s: DailySummary)
    requires |readings| > 0
    ensures s.date == date
    ensures s.avgTemp == Mean(Temperatures(readings))
    ensures s.minTemp == Min(Temperatures(readings)) && s.maxTemp == Max(Temperatures(readings))
    ensures s.minTemp <= s.avgTemp <= s.maxTemp
    ensures forall o :: o in readings ==> s.minTemp <= o.temperature <= s.maxTemp
    ensures exists o :: o in readings && o.temperature == s.minTemp
    ensures exists o :: o in readings && o.temperature == s.maxTemp
    ensures s.totalRainfall == Sum(Rainfalls(readings))
    ensures s.avgHumidity == Mean(Humidities(readings))
    ensures s.avgSoilMoisture == AverageOfPresent(SoilMoistures(readings))
    ensures s.avgSoilTemp == AverageOfPresent(SoilTemperatures(readings))
  {
    var temps := Temperatures(readings);
    MeanBetweenExtremes(temps);
    assert forall o :: o in readings ==> o.temperature in temps by {
      forall o | o in readings ensures o.temperature in temps {
        var i :| 0 <= i < |readings| && readings[i] == o;
        assert temps[i] == o.temperature;
      }
    }
    ReachedBy(readings, Min(temps));
    ReachedBy(readings, Max(temps));
    DailySummary(date, Mean(temps), Min(temps), Max(temps), Sum(Rainfalls(readings)),
                 Mean(Humidities(readings)), AverageOfPresent(SoilMoistures(readings)),
                 AverageOfPresent(SoilTemperatures(readings)))
  }

  function DateLe(a: int, b: int): bool {
    a <= b
  }

  lemma DateOrderIsTotalPreorder()
    ensures TotalPreorder(DateLe)
  {
  }

  /** Drops repeated dates from a sorted list, leaving a strictly ascending
      list of the same dates. */
  function DedupSorted(s: seq<int>): (r: seq<int>)
    requires forall i, j :: 0 <= i < j < |s| ==> s[i] <= s[j]
    ensures forall i, j :: 0 <= i < j < |r| ==> r[i] < r[j]
    ensures forall x :: x in r <==> x in s
  {
    if |s| <= 1 then s
    else
      var rest := DedupSorted(s[1..]);
      assert forall x :: x in s <==> x == s[0] || x in s[1..];
      if s[0] == s[1] then rest
      else
        assert forall x :: x in rest ==> s[0] < x;
        var r := [s[0]] + rest;
        forall i, j | 0 <= i < j < |r| ensures r[i] < r[j] {
          assert r[j] == rest[j - 1] && rest[j - 1] in rest;
          if i > 0 {
            assert r[i] == rest[i - 1];
          }
        }
        r
  }

  /** The distinct days of the readings, ascending. */
  function HistoryDates(readings: seq<Observation>): (r: seq<int>)
    ensures forall i, j :: 0 <= i < j < |r| ==> r[i] < r[j]
    ensures forall d :: d in r <==> exists o :: o in readings && DayOf(o.timestamp) == d
  {
    DateOrderIsTotalPreorder();
    var all := Dates(readings);
    var sorted := Sort(all, DateLe);
    forall x ensures x in sorted <==> x in all {
      SortKeepsMembers(all, DateLe, x);
    }
    forall d ensures d in all <==> exists o :: o in readings && DayOf(o.timestamp) == d {
      if d in all {
        var i :| 0 <= i < |all| && all[i] == d;
        assert readings[i] in readings;
      }
      if exists o :: o in readings && DayOf(o.timestamp) == d {
        var o :| o in readings && DayOf(o.timestamp) == d;
        var i :| 0 <= i < |readings| && readings[i] == o;
        assert all[i] == d;
      }
    }
    DedupSorted(sorted)
  }

  lemma DayHasReadings(readings: seq<Observation>, date: int)
    requires exists o :: o in readings && DayOf(o.timestamp) == date
    ensures |ReadingsOn(readings, date)| > 0
  {
    var o :| o in readings && DayOf(o.timestamp) == date;
    assert o in ReadingsOn(readings, date);
  }

  /** One summary per date, of that date's readings. */
  function Summaries(dates: seq<int>, readings: seq<Observation>): (r: seq<DailySummary>)
    requires forall i :: 0 <= i < |dates| ==> |ReadingsOn(readings, dates[i])| > 0
    ensures |r| == |dates|
    ensures forall i :: 0 <= i < |r| ==> r[i] == DaySummary(dates[i], ReadingsOn(readings, dates[i]))
  {
    seq(|dates|, i requires 0 <= i < |dates| => DaySummary(dates[i], ReadingsOn(readings, dates[i])))
  }

  /** The readings of a location taken on `date` at or after `since`. */
  function DayReadings(observations: seq<Observation>, locationId: int, since: int, date: int)
    : (r: seq<Observation>)
    ensures forall o :: o in r <==> (o in observations && o.locationId == locationId
                                    && o.timestamp >= since && DayOf(o.timestamp) == date)
    ensures forall o :: multiset(r)[o] == if o.locationId == locationId && o.timestamp >= since
                                             && DayOf(o.timestamp) == date
                                          then multiset(observations)[o] else 0
  {
    ReadingsOn(InWindow(observations, locationId, since), date)
  }

  /** One summary per day that has readings, in ascending date order. */
  function History(readings: seq<Observation>): (r: seq<DailySummary>)
    ensures forall i, j :: 0 <= i < j < |r| ==> r[i].date < r[j].date
    ensures forall o :: o in readings ==> exists i :: 0 <= i < |r| && r[i].date == DayOf(o.timestamp)
    ensures forall i :: 0 <= i < |r| ==>
              |ReadingsOn(readings, r[i].date)| > 0 && r[i] == DaySummary(r[i].date, ReadingsOn(readings, r[i].date))
  {
    var dates := HistoryDates(readings);
    forall i | 0 <= i < |dates| ensures |ReadingsOn(readings, dates[i])| > 0 {
      assert dates[i] in dates;
      DayHasReadings(readings, dates[i]);
    }
    var r := Summaries(dates, readings);
    forall o | o in readings ensures exists i :: 0 <= i < |r| && r[i].date == DayOf(o.timestamp) {
      var d := DayOf(o.timestamp);
      assert d in dates;
      var i :| 0 <= i < |dates| && dates[i] == d;
      assert r[i].date == d;
    }
    forall i | 0 <= i < |r|
      ensures |ReadingsOn(readings, r[i].date)| > 0
              && r[i] == DaySummary(r[i].date, ReadingsOn(readings, r[i].date))
    {
      var d := dates[i];
      assert r[i] == DaySummary(d, ReadingsOn(readings, d));
      assert r[i].date == d;
    }
    r
  }

  /** The history of a location over the last `days` days: one row per
      calendar day that has readings in the window, in ascending date
      order, each aggregating exactly that day's readings. */
  function WeatherHistory(observations: seq<Observation>, locationId: int, now: int, days: int)
    : (r: seq<DailySummary>)
    ensures forall i, j :: 0 <= i < j < |r| ==> r[i].date < r[j].date
    ensures forall o :: (o in observations && o.locationId == locationId
                         && o.timestamp >= now - days * SecondsPerDay)
                        ==> exists i :: 0 <= i < |r| && r[i].date == DayOf(o.timestamp)
    ensures forall i :: 0 <= i < |r| ==>
              var day := DayReadings(observations, locationId, now - days * SecondsPerDay, r[i].date);
              |day| > 0 && r[i] == DaySummary(r[i].date, day)
  {
    var window := InWindow(observations, locationId, now - days * SecondsPerDay);
    var r := History(window);
    assert forall o :: (o in observations && o.locationId == locationId
                        && o.timestamp >= now - days * SecondsPerDay) ==> o in window;
    r
  }

  /** The forecasts of a location from today for `span` days, in ascending
      date order. */
  function UpcomingForecasts(forecasts: seq<Forecast>, locationId: int, today: int, span: int)
    : (r: seq<Forecast>)
    ensures forall f :: f in r <==> f in forecasts && f.locationId == locationId && today <= f.date < today + span
    ensures forall f :: multiset(r)[f] == if f.locationId == locationId && today <= f.date < today + span
                                          then multiset(forecasts)[f] else 0
    ensures forall i, j :: 0 <= i < j < |r| ==> r[i].date <= r[j].date
  {
    var p := (f: Forecast) => f.locationId == locationId && today <= f.date < today + span;
    var selected := Filter(forecasts, p);
    ForecastOrderIsTotalPreorder();
    var r := Sort(selected, ForecastLe);
    forall f ensures f in r <==> f in selected {
      SortKeepsMembers(selected, ForecastLe, f);
    }
    forall f ensures multiset(r)[f] == if p(f) then multiset(forecasts)[f] else 0 {
      FilterMultiplicity(forecasts, p, f);
    }
    r
  }

  /** The forecasts of a location for today and the following days, at
      most `maxDays` days, in ascending date order. */
  function ForecastWindow(forecasts: seq<Forecast>, locationId: int, today: int, days: int, maxDays: int)
    : (r: seq<Forecast>)
    ensures forall f :: f in r ==> f in forecasts && f.locationId == locationId
                                   && today <= f.date < today + (if days > maxDays then maxDays else days)
    ensures forall f :: (f in forecasts && f.locationId == locationId && today <= f.date < today + days
                         && f.date < today + maxDays) ==> f in r
    ensures forall f :: multiset(r)[f] == if && f.locationId == locationId && today <= f.date
                                             && f.date < today + days && f.date < today + maxDays
                                          then multiset(forecasts)[f] else 0
    ensures forall i, j :: 0 <= i < j < |r| ==> r[i].date <= r[j].date
  {
    UpcomingForecasts(forecasts, locationId, today, if days > maxDays then maxDays else days)
  }

  function ForecastLe(a: Forecast, b: Forecast): bool {
    a.date <= b.date
  }

  lemma ForecastOrderIsTotalPreorder()
    ensures TotalPreorder(ForecastLe)
  {
  }

  /** Asking for more days than allowed is asking for the allowed number. */
  lemma ForecastWindowClamped(forecasts: seq<Forecast>, locationId: int, today: int, days: int, maxDays: int)
    requires days > maxDays
    ensures ForecastWindow(forecasts, locationId, today, days, maxDays)
            == ForecastWindow(forecasts, locationId, today, maxDays, maxDays)
  {
  }

  // ---------------------------------------------------------------------
  // Active alerts
  // ---------------------------------------------------------------------

  /** The alerts of a location that are active and not yet over; a crop id
      other than none or zero further requires the alert to affect it. */
  predicate ActiveFor(a: Alert, locationId: int, now: int, cropId: Option<int>) {
    && a.locationId == locationId
    && a.isActive
    && a.endTime > now
    && (cropId.None? || cropId.value == 0 || cropId.value in a.affectedCrops)
  }

  /** The active alerts of the location in stored order, every copy kept. */
  function ActiveMatches(alerts: seq<Alert>, locationId: int, now: int, cropId: Option<int>): (r: seq<Alert>)
    ensures forall a :: a in r <==> a in alerts && ActiveFor(a, locationId, now, cropId)
    ensures forall a :: multiset(r)[a] == if ActiveFor(a, locationId, now, cropId) then multiset(alerts)[a] else 0
  {
    var p := (a: Alert) => ActiveFor(a, locationId, now, cropId);
    forall a ensures multiset(Filter(alerts, p))[a] == if p(a) then multiset(alerts)[a] else 0 {
      FilterMultiplicity(alerts, p, a);
    }
    Filter(alerts, p)
  }

  /** Descending severity compared as text, then latest start first. */
  function AsWrittenBefore(a: Alert, b: Alert): bool {
    LexLess(b.severity, a.severity) || (a.severity == b.severity && a.startTime >= b.startTime)
  }

  /** Descending severity rank, then latest start first. */
  function RankBefore(a: Alert, b: Alert): bool {
    SeverityLevel(a.severity) > SeverityLevel(b.severity)
    || (SeverityLevel(a.severity) == SeverityLevel(b.severity) && a.startTime >= b.startTime)
  }

  lemma AsWrittenOrderIsTotalPreorder()
    ensures TotalPreorder(AsWrittenBefore)
  {
    forall a: Alert, b: Alert ensures AsWrittenBefore(a, b) || AsWrittenBefore(b, a) {
      LexTrichotomy(a.severity, b.severity);
    }
    forall a: Alert, b: Alert, c: Alert | AsWrittenBefore(a, b) && AsWrittenBefore(b, c)
      ensures AsWrittenBefore(a, c)
    {
      if LexLess(c.severity, b.severity) && LexLess(b.severity, a.severity) {
        LexTransitive(c.severity, b.severity, a.severity);
      }
    }
  }

  lemma RankOrderIsTotalPreorder()
    ensures TotalPreorder(RankBefore)
  {
  }

  /** The active alerts ordered as the query is written: by severity text
      descending, so MEDIUM before LOW before HIGH before EXTREME. */
  function ActiveAlertsAsWritten(alerts: seq<Alert>, locationId: int, now: int, cropId: Option<int>)
    : (r: seq<Alert>)
    ensures forall a :: a in r <==> a in alerts && ActiveFor(a, locationId, now, cropId)
    ensures forall a :: multiset(r)[a] == if ActiveFor(a, locationId, now, cropId) then multiset(alerts)[a] else 0
    ensures SortedBy(r, AsWrittenBefore)
  {
    AsWrittenOrderIsTotalPreorder();
    var matches := ActiveMatches(alerts, locationId, now, cropId);
    var r := Sort(matches, AsWrittenBefore);
    forall a ensures a in r <==> a in matches {
      SortKeepsMembers(matches, AsWrittenBefore, a);
    }
    r
  }

  /** The active alerts, most severe first by severity rank, then latest
      start first. */
  function ActiveAlerts(alerts: seq<Alert>, locationId: int, now: int, cropId: Option<int>)
    : (r: seq<Alert>)
    ensures forall a :: a in r <==> a in alerts && ActiveFor(a, locationId, now, cropId)
    ensures forall a :: multiset(r)[a] == if ActiveFor(a, locationId, now, cropId) then multiset(alerts)[a] else 0
    ensures forall i, j :: 0 <= i < j < |r| ==>
              SeverityLevel(r[i].severity) >= SeverityLevel(r[j].severity)
    ensures forall i, j :: 0 <= i < j < |r| && r[i].severity == r[j].severity ==>
              r[i].startTime >= r[j].startTime
  {
    RankOrderIsTotalPreorder();
    var matches := ActiveMatches(alerts, locationId, now, cropId);
    var r := Sort(matches, RankBefore);
    forall a ensures a in r <==> a in matches {
      SortKeepsMembers(matches, RankBefore, a);
    }
    assert forall i, j :: 0 <= i < j < |r| ==> RankBefore(r[i], r[j]);
    r
  }

  /** As written, a LOW alert is listed before an EXTREME one; ranked, the
      EXTREME one comes first. */
  lemma ExtremeListedLast(alerts: seq<Alert>, locationId: int, now: int, cropId: Option<int>,
                          i: int, j: int)
    requires var r := ActiveAlertsAsWritten(alerts, locationId, now, cropId);
             0 <= i < |r| && 0 <= j < |r| && r[i].severity == "EXTREME" && r[j].severity == "LOW"
    ensures j < i
  {
    var r := ActiveAlertsAsWritten(alerts, locationId, now, cropId);
    if i < j {
      assert AsWrittenBefore(r[i], r[j]);
      assert LexLess("EXTREME", "LOW");
      LexAsymmetric("EXTREME", "LOW");
      assert false;
    }
  }

  lemma ExtremeListedFirst(alerts: seq<Alert>, locationId: int, now: int, cropId: Option<int>,
                           i: int, j: int)
    requires var r := ActiveAlerts(alerts, locationId, now, cropId);
             0 <= i < |r| && 0 <= j < |r| && r[i].severity == "EXTREME" && r[j].severity == "LOW"
    ensures i < j
  {
  }

  /** The text order of the four severities: MEDIUM, LOW, HIGH, EXTREME. */
  lemma SeverityTextOrder()
    ensures LexLess("LOW", "MEDIUM") && LexLess("HIGH", "LOW") && LexLess("EXTREME", "HIGH")
  {
  }

  /** An alert that has been deactivated is not among the active alerts. */
  lemma DeactivatedAlertDisappears(alerts: seq<Alert>, k: int, locationId: int, now: int, cropId: Option<int>,
                                   resolvedAt: int, notes: string, impact: string)
    requires 0 <= k < |alerts|
    ensures Resolved(alerts[k], resolvedAt, notes, impact)
            !in ActiveAlerts(alerts[k := Resolved(alerts[k], resolvedAt, notes, impact)], locationId, now, cropId)
  {
  }

  // ---------------------------------------------------------------------
  // Validation before writing
  // ---------------------------------------------------------------------

  datatype ValidationFailure =
    | OutOfRange(field: string)   // reported as a weather data error
    | NotComparable(field: string) // a value that cannot be compared with a bound

  /** A numeric reading under `key`, zero when absent. */
  function Reading(data: Dict, key: string): Value {
    Get(data, key, Num(0.0))
  }

  /** The value under `key` is a number within [lo, hi]. */
  predicate Within(data: Dict, key: string, lo: real, hi: real) {
    Reading(data, key).Num? && lo <= Reading(data, key).n <= hi
  }

  /** The value under `key` is a number not above `hi`. */
  predicate AtMost(data: Dict, key: string, hi: real) {
    Reading(data, key).Num? && Reading(data, key).n <= hi
  }

  /** Checks, in order, temperature and humidity against their ranges and
      wind speed and rainfall against their maxima; the first failing check
      is reported. */
  function ValidateWeatherData(data: Dict, bounds: Bounds): (r: Result<(), ValidationFailure>)
    ensures r.Ok? <==> && Within(data, "temperature", bounds.minTemperature, bounds.maxTemperature)
                       && Within(data, "humidity", bounds.minHumidity, bounds.maxHumidity)
                       && AtMost(data, "wind_speed", bounds.maxWindSpeed)
                       && AtMost(data, "rainfall", bounds.maxRainfall)
    ensures !Within(data, "temperature", bounds.minTemperature, bounds.maxTemperature) ==>
              r.Err? && r.error.field == "temperature"
    ensures (Within(data, "temperature", bounds.minTemperature, bounds.maxTemperature)
             && !Within(data, "humidity", bounds.minHumidity, bounds.maxHumidity)) ==>
              r.Err? && r.error.field == "humidity"
    ensures (Within(data, "temperature", bounds.minTemperature, bounds.maxTemperature)
             && Within(data, "humidity", bounds.minHumidity, bounds.maxHumidity)
             && !AtMost(data, "wind_speed", bounds.maxWindSpeed)) ==>
              r.Err? && r.error.field == "wind_speed"
    ensures r.Err? ==> (r.error.OutOfRange? <==> Reading(data, r.error.field).Num?)
  {
    var t := Reading(data, "temperature");
    if !t.Num? then Err(NotComparable("temperature"))
    else if !(bounds.minTemperature <= t.n <= bounds.maxTemperature) then Err(OutOfRange("temperature"))
    else
      var h := Reading(data, "humidity");
      if !h.Num? then Err(NotComparable("humidity"))
      else if !(bounds.minHumidity <= h.n <= bounds.maxHumidity) then Err(OutOfRange("humidity"))
      else
        var w := Reading(data, "wind_speed");
        if !w.Num? then Err(NotComparable("wind_speed"))
        else if w.n > bounds.maxWindSpeed then Err(OutOfRange("wind_speed"))
        else
          var rain := Reading(data, "rainfall");
          if !rain.Num? then Err(NotComparable("rainfall"))
          else if rain.n > bounds.maxRainfall then Err(OutOfRange("rainfall"))
          else Ok(())
  }

  /** A missing field is validated as zero: an empty record passes exactly
      when zero lies in the temperature and humidity ranges and the maxima
      are not negative. */
  lemma EmptyRecordValidation(bounds: Bounds)
    ensures ValidateWeatherData(map[], bounds).Ok? <==>
              && bounds.minTemperature <= 0.0 <= bounds.maxTemperature
              && bounds.minHumidity <= 0.0 <= bounds.maxHumidity
              && 0.0 <= bounds.maxWindSpeed && 0.0 <= bounds.maxRainfall
  {
  }

  /** The validated fields of a reading, as the record handed to the store. */
  function ReadingRecord(o: Observation): Dict {
    map["temperature" := Num(o.temperature), "humidity" := Num(o.humidity),
        "wind_speed" := Num(o.windSpeed), "rainfall" := Num(o.rainfall)]
  }

  /** A complete reading fails validation only on a bound. */
  lemma ReadingRecordValidation(o: Observation, bounds: Bounds)
    ensures ValidateWeatherData(ReadingRecord(o), bounds).Ok? <==>
              && bounds.minTemperature <= o.temperature <= bounds.maxTemperature
              && bounds.minHumidity <= o.humidity <= bounds.maxHumidity
              && o.windSpeed <= bounds.maxWindSpeed
              && o.rainfall <= bounds.maxRainfall
    ensures ValidateWeatherData(ReadingRecord(o), bounds).Err? ==>
              ValidateWeatherData(ReadingRecord(o), bounds).error.OutOfRange?
  {
    var d := ReadingRecord(o);
    assert Reading(d, "temperature") == Num(o.temperature);
    assert Reading(d, "humidity") == Num(o.humidity);
    assert Reading(d, "wind_speed") == Num(o.windSpeed);
    assert Reading(d, "rainfall") == Num(o.rainfall);
  }

  // ---------------------------------------------------------------------
  // The repository object
  // ---------------------------------------------------------------------

  datatype Cached = CachedLocation(location: Location) | CachedReading(reading: Observation)

  datatype RepositoryError =
    | InvalidLocation(locationId: int)
    | WeatherDataError(failure: ValidationFailure)

  class WeatherRepository {
    var cache: map<string, Cached>
    var locations: seq<Location>
    var observations: seq<Observation>
    var forecasts: seq<Forecast>
    var alerts: seq<Alert>

    /** Every cached location is the stored location with the key's id, and
        every cached current reading is a stored reading of the key's
        location. */
    ghost predicate Valid()
      reads this
    {
      && (forall id :: LocationKey(id) in cache ==>
            cache[LocationKey(id)].CachedLocation?
            && cache[LocationKey(id)].location in locations
            && cache[LocationKey(id)].location.id == id)
      && (forall id :: CurrentWeatherKey(id) in cache ==>
            cache[CurrentWeatherKey(id)].CachedReading?
            && cache[CurrentWeatherKey(id)].reading in observations
            && cache[CurrentWeatherKey(id)].reading.locationId == id)
    }

    constructor (locations: seq<Location>, observations: seq<Observation>,
                 forecasts: seq<Forecast>, alerts: seq<Alert>)
      ensures Valid()
      ensures cache == map[]
      ensures this.locations == locations && this.observations == observations
      ensures this.forecasts == forecasts && this.alerts == alerts
    {
      cache := map[];
      this.locations := locations;
      this.observations := observations;
      this.forecasts := forecasts;
      this.alerts := alerts;
    }

    /** The location with `id`: from the cache when cached, else from the
        store, caching it; an unknown id is an error and caches nothing. */
    method GetLocation(id: int) returns (r: Result<Location, RepositoryError>)
      requires Valid()
      modifies this`cache
      ensures Valid()
      ensures r.Ok? ==> r.value in locations && r.value.id == id
      ensures r.Err? ==> r == Err(InvalidLocation(id))
                         && (forall l :: l in locations ==> l.id != id)
                         && cache == old(cache)
      ensures LocationKey(id) in old(cache) ==> r == Ok(old(cache)[LocationKey(id)].location)
                                                && cache == old(cache)
      ensures LocationKey(id) !in old(cache) && r.Ok? ==>
                cache == old(cache)[LocationKey(id) := CachedLocation(r.value)]
    {
      var key := LocationKey(id);
      if key in cache {
        return Ok(cache[key].location);
      }
      var found := FindLocation(locations, id);
      match found {
        case None =>
          r := Err(InvalidLocation(id));
        case Some(loc) =>
          forall other | LocationKey(other) == key ensures other == id {
            CacheKeysDistinct(other, id);
          }
          forall other ensures CurrentWeatherKey(other) != key {
            CacheKeysDistinct(id, other);
          }
          cache := cache[key := CachedLocation(loc)];
          r := Ok(loc);
      }
    }

    /** The current reading of a location: the cached one when cached
        (however old), else the latest reading at most `windowHours` old,
        which is cached when there is one. */
    method GetCurrentWeather(locationId: int, now: int, windowHours: int) returns (r: Option<Observation>)
      requires Valid()
      modifies this`cache
      ensures Valid()
      ensures r.Some? ==> r.value in observations && r.value.locationId == locationId
      ensures CurrentWeatherKey(locationId) in old(cache) ==>
                r == Some(old(cache)[CurrentWeatherKey(locationId)].reading) && cache == old(cache)
      ensures CurrentWeatherKey(locationId) !in old(cache) ==>
                r == LatestAtOrAfter(observations, locationId, now - windowHours * SecondsPerHour)
      ensures CurrentWeatherKey(locationId) !in old(cache) && r.None? ==> cache == old(cache)
      ensures CurrentWeatherKey(locationId) !in old(cache) && r.Some? ==>
                cache == old(cache)[CurrentWeatherKey(locationId) := CachedReading(r.value)]
    {
      var key := CurrentWeatherKey(locationId);
      if key in cache {
        return Some(cache[key].reading);
      }
      r := LatestAtOrAfter(observations, locationId, now - windowHours * SecondsPerHour);
      if r.Some? {
        forall other | CurrentWeatherKey(other) == key ensures other == locationId {
          CacheKeysDistinct(other, locationId);
        }
        forall other ensures LocationKey(other) != key {
          CacheKeysDistinct(other, locationId);
        }
        cache := cache[key := CachedReading(r.value)];
      }
    }

    /** Stores a reading after validating its record; a rejected reading
        leaves the store unchanged. */
    method CreateWeatherData(o: Observation, bounds: Bounds) returns (r: Result<Observation, RepositoryError>)
      requires Valid()
      modifies this`observations
      ensures Valid()
      ensures ValidateWeatherData(ReadingRecord(o), bounds).Err? ==>
                r == Err(WeatherDataError(ValidateWeatherData(ReadingRecord(o), bounds).error))
                && observations == old(observations)
      ensures ValidateWeatherData(ReadingRecord(o), bounds).Ok? ==>
                r == Ok(o) && observations == old(observations) + [o]
    {
      var check := ValidateWeatherData(ReadingRecord(o), bounds);
      if check.Err? {
        return Err(WeatherDataError(check.error));
      }
      observations := observations + [o];
      r := Ok(o);
    }

    /** Stores an alert without validation; its affected crops are the given
        ids, none when the list is empty. */
    method CreateWeatherAlert(a: Alert, affectedCropIds: seq<int>) returns (created: Alert)
      requires Valid()
      modifies this`alerts
      ensures Valid()
      ensures created == a.(affectedCrops := set c | c in affectedCropIds)
      ensures |affectedCropIds| == 0 ==> created.affectedCrops == {}
      ensures alerts == old(alerts) + [created]
    {
      created := a.(affectedCrops := {});
      if |affectedCropIds| > 0 {
        created := created.(affectedCrops := set c | c in affectedCropIds);
      }
      alerts := alerts + [created];
    }
  }

  /** The first stored location with `id`. */
  function FindLocation(locations: seq<Location>, id: int): (r: Option<Location>)
    ensures r.Some? ==> r.value in locations && r.value.id == id
    ensures r.None? ==> forall l :: l in locations ==> l.id != id
  {
    if |locations| == 0 then None
    else if locations[0].id == id then Some(locations[0])
    else
      assert forall l :: l in locations ==> l == locations[0] || l in locations[1..];
      FindLocation(locations[1..], id)
  }
}
