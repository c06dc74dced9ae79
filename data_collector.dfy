/**
 * The data collector of the fare-prediction service: turning stored ride
 * history into numeric training rows, and generating synthetic rows from
 * the fare rule it assumes.
 *
 * The database cursor becomes a sequence of records, the clock an instant
 * passed in, and every random draw a field of a per-sample record.
 */
module DataCollector {
  import opened Wrappers
  import opened Text
  import opened Decimal
  import opened FareRates
  import FareQuote

  type Hour = h: nat | h < 24
  /** Day of the week with Monday = 0, as Python's `weekday()`. */
  type Weekday = d: nat | d < 7

  /** The two parts of a timestamp the collector uses. */
  datatype Instant = Instant(hour: Hour, weekday: Weekday)

  /** `is_weekend`: Saturday or Sunday when Monday is 0. */
  predicate IsWeekend(weekday: int) {
    weekday == 5 || weekday == 6
  }

  /** `is_rush_hour`: the same six hours the fare endpoint uses. */
  predicate IsRushHour(hour: int) {
    hour in {7, 8, 9, 17, 18, 19}
  }

  /** A boolean feature stored as 0 or 1. */
  function Flag(b: bool): (n: nat)
    ensures n <= 1 && (n == 1 <==> b)
  {
    if b then 1 else 0
  }

  /** The server numbers days from Sunday = 0, the collector from Monday =
      0; under that shift both call the same days the weekend, and both
      use the same rush hours. */
  lemma FlagsAgreeWithServer(weekday: Weekday, hour: Hour)
    ensures IsWeekend(weekday) <==> FareQuote.IsWeekend((weekday + 1) % 7)
    ensures IsRushHour(hour) <==> FareQuote.IsRushHour(hour)
  {
  }

  // ---------------------------------------------------------------------
  // Parsing one history record
  // ---------------------------------------------------------------------

  /** The values a record without the field is read with. */
  const DefaultDistance: string := "0 km"
  const DefaultDuration: string := "0 mins"

  /** The `distance_km` of a record: the field defaults to `"0 km"`, the
      empty string reads as 0, otherwise the first whitespace token is read
      as a Python float. `None` is the exception the read raises. */
  function ParseDistance(field: Option<string>): (r: Option<real>)
    ensures field == Some([]) ==> r == Some(0.0)
  {
    var text := if field.None? then DefaultDistance else field.value;
    if text == [] then Some(0.0)
    else
      var parts := Split(text);
      if parts == [] then None else PyFloat(parts[0])
  }

  /** The distance is the Python float of the first token, whatever
      follows the blank after it: `"5.2 km"` reads as `float("5.2")`, and
      `"abc km"` fails as `float("abc")` does. */
  lemma DistanceReadsFirstToken(t: string, rest: string)
    requires t != [] && NoSpace(t, Python)
    ensures ParseDistance(Some(t + " " + rest)) == PyFloat(t)
  {
    SplitWordThenBlank(t, rest);
  }

  lemma PyFloatOfFivePointTwo()
    ensures PyFloat("5.2") == Some(5.2)
  {
    var n := Numeral("", "5", true, "2", None);
    assert Value(n) == 5.2 by {
      assert DigitsValue("5") == 5 && DigitsValue("2") == 2;
      assert FractionValue("2") == 0.2;
      assert Pow10Int(0) == 1.0;
    }
    assert Spelling(n) == "5.2";
    PyFloatOfNumeral(n);
  }

  /** The example of the source's comment: `"5.2 km"` reads as 5.2. */
  lemma DistanceOfDecimal()
    ensures ParseDistance(Some("5.2 km")) == Some(5.2)
  {
    assert NoSpace("5.2", Python);
    assert "5.2 km" == "5.2" + " " + "km";
    DistanceReadsFirstToken("5.2", "km");
    PyFloatOfFivePointTwo();
  }

  /** Python splits at the information separators too: `"5\x1ckm"` reads
      as 5. */
  lemma DistanceAfterSeparator()
    ensures ParseDistance(Some("5\U{001C}km")) == Some(5.0)
  {
    assert "5\U{001C}km" == "5" + "\U{001C}km";
    assert NoSpace("5", Python);
    SplitToken("5", "\U{001C}km");
    assert NatToString(5) == "5";
    PyFloatOfNatString(5);
  }

  /** A record without a distance reads as the default `"0 km"`, that is
      0. */
  lemma DistanceOfMissing()
    ensures ParseDistance(None) == Some(0.0)
  {
    var t := NatToString(0);
    assert DefaultDistance == t + " " + "km";
    assert NoSpace(t, Python);
    DistanceReadsFirstToken(t, "km");
    PyFloatOfNatString(0);
  }

  /** A distance made only of blanks has no first token and fails. */
  lemma DistanceOfBlankFails(s: string)
    requires s != [] && AllSpace(s, Python)
    ensures ParseDistance(Some(s)) == None
  {
    SplitEmptyIffBlank(s);
  }

  /** The `duration_mins` of a duration string, or `None` where Python
      raises: when the string has no token, or when it mentions `hour` but
      has no token that is exactly `hour`. */
  function ParseDuration(s: string): (r: Option<nat>)
    ensures r.None? <==> Split(s) == [] || (Contains(s, "hour") && "hour" !in Split(s))
  {
    DurationOfParts(Contains(s, "hour"), Split(s))
  }

  /** The duration read from the tokens of the string, given whether the
      string mentions `hour`: hours from the first token and minutes from
      the token after `hour`, or minutes from the first token; a token that
      is not all digits counts as 0. */
  function DurationOfParts(mentionsHour: bool, parts: seq<string>): (r: Option<nat>)
    ensures r.None? <==> parts == [] || (mentionsHour && "hour" !in parts)
  {
    if parts == [] then None
    else if mentionsHour then
      var hours := if IsDigits(parts[0]) then DigitsValue(parts[0]) else 0;
      match IndexOf(parts, "hour")
      case None => None
      case Some(k) =>
        var mins := if k + 1 < |parts| && IsDigits(parts[k + 1]) then DigitsValue(parts[k + 1]) else 0;
        Some(hours * 60 + mins)
    else
      Some(if IsDigits(parts[0]) then DigitsValue(parts[0]) else 0)
  }

  /** The duration parse as the collector performs it, step by step. */
  method ParseDurationMins(s: string) returns (r: Option<nat>)
    ensures r == ParseDuration(s)
  {
    var durationParts := Split(s);
    var durationMins: nat := 0;
    if durationParts == [] {
      return None;
    }
    if Contains(s, "hour") {
      var hours: nat := if IsDigits(durationParts[0]) then DigitsValue(durationParts[0]) else 0;
      var hourIdx := IndexOf(durationParts, "hour");
      if hourIdx.None? {
        return None;
      }
      var minsIdx := hourIdx.value + 1;
      var mins: nat := 0;
      if |durationParts| > minsIdx && IsDigits(durationParts[minsIdx]) {
        mins := DigitsValue(durationParts[minsIdx]);
      }
      durationMins := hours * 60 + mins;
    } else {
      durationMins := if IsDigits(durationParts[0]) then DigitsValue(durationParts[0]) else 0;
    }
    r := Some(durationMins);
  }

  /** `"<m> mins"` reads as the minutes m; any digit string, leading
      zeros included, is read as its value. */
  lemma DurationOfMins(ms: string)
    requires IsDigits(ms)
    ensures ParseDuration(Join([ms, "mins"], " ")) == Some(DigitsValue(ms))
  {
    var words := [ms, "mins"];
    var s := Join(words, " ");
    assert s == ms + " " + "mins";
    forall i | 0 <= i < |s| ensures s[i] != 'h' {
      if i < |ms| {
        assert s[i] == ms[i];
      }
    }
    NoHour(s);
    SplitWords(words);
  }

  /** `"<h> hour <m> mins"` reads as h·60 + m minutes. */
  lemma DurationOfHourMins(hs: string, ms: string)
    requires IsDigits(hs) && IsDigits(ms)
    ensures ParseDuration(Join([hs, "hour", ms, "mins"], " ")) == Some(DigitsValue(hs) * 60 + DigitsValue(ms))
  {
    var words := [hs, "hour", ms, "mins"];
    HourAfterFirstWord(words);
    MentionWithHourToken(words);
    HourMinsParts(hs, ms);
  }

  lemma HourMinsParts(hs: string, ms: string)
    requires IsDigits(hs) && IsDigits(ms)
    ensures DurationOfParts(true, [hs, "hour", ms, "mins"]) == Some(DigitsValue(hs) * 60 + DigitsValue(ms))
  {
    var words := [hs, "hour", ms, "mins"];
    assert hs != "hour" by { assert IsDigit(hs[0]); }
    assert words[1..][0] == "hour";
    assert IndexOf(words[1..], "hour") == Some(0);
    assert IndexOf(words, "hour") == Some(1);
    assert words[2] == ms;
  }

  /** `"<h> hour"` with nothing after reads as h·60 minutes. */
  lemma DurationOfHour(hs: string)
    requires IsDigits(hs)
    ensures ParseDuration(Join([hs, "hour"], " ")) == Some(DigitsValue(hs) * 60)
  {
    var words := [hs, "hour"];
    HourAfterFirstWord(words);
    MentionWithHourToken(words);
    assert hs != "hour" by { assert IsDigit(hs[0]); }
    assert IndexOf(words, "hour") == Some(1);
  }

  /** `"<h> hours <m> mins"` mentions `hour` but has no `hour` token, so
      the parse fails. */
  lemma DurationOfHoursFails(hs: string, ms: string)
    requires IsDigits(hs) && IsDigits(ms)
    ensures ParseDuration(Join([hs, "hours", ms, "mins"], " ")) == None
  {
    var words := [hs, "hours", ms, "mins"];
    assert "hours"[..4] == "hour";
    HourAfterFirstWord(words);
    assert hs != "hour" by { assert IsDigit(hs[0]); }
    assert ms != "hour" by { assert IsDigit(ms[0]); }
    MentionWithoutToken(words);
  }

  /** Words that mention `hour` are read as hours and minutes. */
  lemma MentionWithHourToken(words: seq<string>)
    requires forall k :: 0 <= k < |words| ==> words[k] != [] && NoSpace(words[k], Python)
    requires Contains(Join(words, " "), "hour")
    ensures ParseDuration(Join(words, " ")) == DurationOfParts(true, words)
  {
    SplitWords(words);
  }

  /** Words that mention `hour` without one being exactly `hour` fail. */
  lemma MentionWithoutToken(words: seq<string>)
    requires forall k :: 0 <= k < |words| ==> words[k] != [] && NoSpace(words[k], Python)
    requires Contains(Join(words, " "), "hour") && "hour" !in words
    ensures ParseDuration(Join(words, " ")) == None
  {
    SplitWords(words);
  }

  /** A second word starting with `hour` puts `hour` in the joined
      string. */
  lemma HourAfterFirstWord(words: seq<string>)
    requires |words| >= 2 && |words[1]| >= 4 && words[1][..4] == "hour"
    ensures Contains(Join(words, " "), "hour")
  {
    var s := Join(words, " ");
    var tail := Join(words[1..], " ");
    assert s == words[0] + " " + tail;
    assert tail[..4] == "hour";
    assert s[|words[0]| + 1..|words[0]| + 5] == tail[..4];
    assert OccursAt(s, "hour", |words[0]| + 1);
  }

  /** Without `hour`, a first word that is not all digits, such as
      `4.5`, reads as 0 minutes. */
  lemma DurationOfNonDigitMins(w: string)
    requires w != [] && NoSpace(w, Python) && !IsDigits(w) && 'h' !in w
    ensures ParseDuration(Join([w, "mins"], " ")) == Some(0)
  {
    var words := [w, "mins"];
    var s := Join(words, " ");
    assert s == w + " " + "mins";
    forall i | 0 <= i < |s| ensures s[i] != 'h' {
      if i < |w| {
        assert s[i] == w[i];
      }
    }
    NoHour(s);
    SplitWords(words);
  }

  lemma DurationOfDecimalMins()
    ensures ParseDuration("4.5 mins") == Some(0)
  {
    assert !IsDigits("4.5") by { assert "4.5"[1] == '.'; }
    assert "4.5 mins" == Join(["4.5", "mins"], " ");
    DurationOfNonDigitMins("4.5");
  }

  /** A blank duration has no first token and fails. */
  lemma DurationOfBlankFails(s: string)
    requires AllSpace(s, Python)
    ensures ParseDuration(s) == None
  {
    SplitEmptyIffBlank(s);
  }

  /** `avg_speed` in km/h; dividing by a zero duration gives an infinity,
      except 0/0, which `fillna(0)` turns into 0. */
  datatype Speed = Kmh(value: real) | Infinite(positive: bool)

  function AvgSpeed(distance: real, mins: nat): (v: Speed)
    ensures mins > 0 ==> v.Kmh? && v.value * (mins as real / 60.0) == distance
    ensures mins == 0 && distance == 0.0 ==> v == Kmh(0.0)
    ensures mins == 0 && distance != 0.0 ==> v == Infinite(distance > 0.0)
  {
    if mins > 0 then Kmh(distance / (mins as real / 60.0))
    else if distance == 0.0 then Kmh(0.0)
    else Infinite(distance > 0.0)
  }

  /** One stored history record; a missing field is `None`. */
  datatype HistoryRecord = HistoryRecord(
    distance: Option<string>,
    duration: Option<string>,
    createdAt: Option<Instant>,
    source: Option<string>,
    destination: Option<string>,
    userId: Option<string>)

  /** What the loop keeps of one record. */
  datatype Ride = Ride(
    distanceKm: real,
    durationMins: nat,
    timestamp: Instant,
    source: string,
    destination: string,
    userId: string)

  /** A training row: the ride plus the derived time features. */
  datatype HistoryRow = HistoryRow(
    ride: Ride,
    hour: Hour,
    dayOfWeek: Weekday,
    isWeekend: nat,
    isRushHour: nat,
    avgSpeed: Speed)

  function OrElse(x: Option<string>, d: string): string {
    if x.Some? then x.value else d
  }

  /** One record read into a ride, or `None` when reading it raises. */
  function ParseRide(rec: HistoryRecord, now: Instant): (r: Option<Ride>)
    ensures r.None? <==> ParseDistance(rec.distance).None? || ParseDuration(OrElse(rec.duration, DefaultDuration)).None?
    ensures r.Some? ==>
      && Some(r.value.distanceKm) == ParseDistance(rec.distance)
      && Some(r.value.durationMins) == ParseDuration(OrElse(rec.duration, DefaultDuration))
      && r.value.timestamp == (if rec.createdAt.Some? then rec.createdAt.value else now)
  {
    match ParseDistance(rec.distance)
    case None => None
    case Some(distance) =>
      match ParseDuration(OrElse(rec.duration, DefaultDuration))
      case None => None
      case Some(mins) =>
        Some(Ride(distance, mins,
                  if rec.createdAt.Some? then rec.createdAt.value else now,
                  OrElse(rec.source, ""), OrElse(rec.destination, ""), OrElse(rec.userId, "")))
  }

  /** The time features and the speed column. */
  function WithFeatures(ride: Ride): (row: HistoryRow)
    ensures row.ride == ride
    ensures row.hour == ride.timestamp.hour && row.dayOfWeek == ride.timestamp.weekday
    ensures row.isWeekend == 1 <==> IsWeekend(ride.timestamp.weekday)
    ensures row.isRushHour == 1 <==> IsRushHour(ride.timestamp.hour)
    ensures row.avgSpeed == AvgSpeed(ride.distanceKm, ride.durationMins)
  {
    HistoryRow(ride, ride.timestamp.hour, ride.timestamp.weekday,
               Flag(IsWeekend(ride.timestamp.weekday)), Flag(IsRushHour(ride.timestamp.hour)),
               AvgSpeed(ride.distanceKm, ride.durationMins))
  }

  /** `fetch_historical_data`: one row per record, in order, or no rows at
      all when any record fails to read. */
  method FetchHistoricalData(records: seq<HistoryRecord>, now: Instant) returns (rows: seq<HistoryRow>)
    ensures (forall k :: 0 <= k < |records| ==> ParseRide(records[k], now).Some?) ==>
      |rows| == |records| && forall k :: 0 <= k < |records| ==> rows[k] == WithFeatures(ParseRide(records[k], now).value)
    ensures (exists k :: 0 <= k < |records| && ParseRide(records[k], now).None?) ==> rows == []
  {
    var data := ReadEach(records, r => ParseRide(r, now));
    if data.None? {
      return [];
    }
    rows := seq(|data.value|, k requires 0 <= k < |data.value| => WithFeatures(data.value[k]));
  }

  /** The loop over the cursor: every record read in order, or nothing
      once one read raises. */
  method ReadEach<R, T>(xs: seq<R>, read: R -> Option<T>) returns (out: Option<seq<T>>)
    ensures out.Some? <==> forall k :: 0 <= k < |xs| ==> read(xs[k]).Some?
    ensures out.Some? ==> |out.value| == |xs| && forall k :: 0 <= k < |xs| ==> out.value[k] == read(xs[k]).value
  {
    var data: seq<T> := [];
    for i := 0 to |xs|
      invariant |data| == i
      invariant forall k :: 0 <= k < i ==> read(xs[k]) == Some(data[k])
    {
      var x := read(xs[i]);
      if x.None? {
        return None;
      }
      data := data + [x.value];
    }
    out := Some(data);
  }

  // ---------------------------------------------------------------------
  // Synthetic data
  // ---------------------------------------------------------------------

  /** The synthetic generator's own rate table, in dictionary order. */
  const BaseRates: seq<(string, RateEntry)> :=
    [("bike", RateEntry(10.0, 5.0)), ("auto", RateEntry(20.0, 10.0)), ("cab", RateEntry(30.0, 15.0))]

  /** The synthetic rates are the local rates of the middle provider. */
  lemma BaseRatesAreLocalRadipoo()
    ensures |BaseRates| == |Categories|
    ensures forall k :: 0 <= k < |BaseRates| ==>
      BaseRates[k].0 == Categories[k] && BaseRates[k].1 == Rate(false, Categories[k], "radipoo")
  {
  }

  /** The random draws of one sample: uniform draws in [0,1) for the
      distance and the surge, the day and hour offsets, the normal noises
      of the duration and of each fare, and the provider index of each
      row. */
  datatype SampleDraws = SampleDraws(
    distanceU: real,
    randomDays: nat,
    randomHours: nat,
    durationNoise: real,
    surgeU: real,
    fareNoise: seq<real>,
    providers: seq<nat>)

  predicate DrawsOk(d: SampleDraws) {
    && 0.0 <= d.distanceU < 1.0
    && d.randomDays < 90 && d.randomHours < 24
    && 0.0 <= d.surgeU < 1.0
    && |d.fareNoise| == 3
    && |d.providers| == 3 && (forall k :: 0 <= k < 3 ==> d.providers[k] < 3)
  }

  /** The sample's timestamp: the start plus whole days and hours. */
  function SampleInstant(start: Instant, d: SampleDraws): (t: Instant)
    ensures (t.weekday * 24 + t.hour) % 168
         == (start.weekday * 24 + start.hour + d.randomDays * 24 + d.randomHours) % 168
  {
    var hours := start.hour + d.randomHours;
    var t := Instant(hours % 24, (start.weekday + d.randomDays + hours / 24) % 7);
    HourOfWeek(start.weekday + d.randomDays, hours);
    t
  }

  /** Hour-of-week arithmetic behind `SampleInstant`. */
  lemma HourOfWeek(days: nat, hours: nat)
    ensures ((days + hours / 24) % 7 * 24 + hours % 24) % 168 == (days * 24 + hours) % 168
  {
    var q := hours / 24;
    var w := (days + q) % 7;
    var c := (days + q) / 7;
    assert hours == q * 24 + hours % 24;
    assert days + q == c * 7 + w;
    assert days * 24 + hours == c * 168 + (w * 24 + hours % 24);
  }

  function UniformDistance(u: real): (distance: real)
    requires 0.0 <= u < 1.0
    ensures 1.0 <= distance < 30.0
  {
    1.0 + 29.0 * u
  }

  /** Minutes for the trip: three per km, half as long again at rush hour,
      a tenth less on weekends, plus noise, and never under five. */
  function SyntheticDuration(distance: real, rush: bool, weekend: bool, noise: real): (m: real)
    ensures m >= 5.0
    ensures m == 5.0 || m == distance * 3.0 * (if rush then 1.5 else 1.0) * (if weekend then 0.9 else 1.0) + noise
  {
    var duration := distance * 3.0 * (if rush then 1.5 else 1.0) * (if weekend then 0.9 else 1.0) + noise;
    if 5.0 >= duration then 5.0 else duration
  }

  /** Rush hour never makes a trip shorter. */
  lemma RushHourNotShorter(distance: real, weekend: bool, noise: real)
    requires distance >= 0.0
    ensures SyntheticDuration(distance, true, weekend, noise) >= SyntheticDuration(distance, false, weekend, noise)
  {
  }

  /** The surge: a draw in [1.2, 2.0) at rush hour, otherwise 1, then a
      tenth off on weekends. */
  function Surge(rush: bool, weekend: bool, u: real): (s: real)
    requires 0.0 <= u < 1.0
    ensures !rush && !weekend ==> s == 1.0
    ensures !rush && weekend ==> s == 0.9
    ensures rush && !weekend ==> 1.2 <= s < 2.0
    ensures rush && weekend ==> 1.08 <= s < 1.8
  {
    var s := if rush then 1.2 + 0.8 * u else 1.0;
    if weekend then s * 0.9 else s
  }

  /** The weekend discount compounds with the rush-hour surge, whereas the
      fare endpoint applies it only outside rush hour. */
  lemma SurgeCompounds(u: real, hour: int, jsDay: int, r: real)
    requires 0.0 <= u < 1.0 && 0.0 <= r < 1.0
    requires IsRushHour(hour) && FareQuote.IsWeekend(jsDay)
    ensures Surge(true, true, u) == 0.9 * Surge(true, false, u)
    ensures FareQuote.TimeFactor(FareQuote.Clock(hour, jsDay), r) >= 1.1
  {
  }

  /** One synthetic fare: the rate times the surge, plus noise, never
      under the base. */
  function SyntheticFare(rate: RateEntry, distance: real, surge: real, noise: real): (f: real)
    ensures f >= rate.baseFare
    ensures f >= (rate.baseFare + distance * rate.perKm) * surge + noise
    ensures f == rate.baseFare || f == (rate.baseFare + distance * rate.perKm) * surge + noise
  {
    var fare := (rate.baseFare + distance * rate.perKm) * surge + noise;
    if rate.baseFare >= fare then rate.baseFare else fare
  }

  /** One generated training row. */
  datatype SyntheticRow = SyntheticRow(
    distanceKm: real,
    durationMins: real,
    hour: Hour,
    dayOfWeek: Weekday,
    isWeekend: nat,
    isRushHour: nat,
    avgSpeed: real,
    transportType: string,
    serviceProvider: string,
    fare: real,
    surgeMultiplier: real)

  /** What the rows of one sample share. */
  datatype Features = Features(
    distance: real,
    hour: Hour,
    dayOfWeek: Weekday,
    isWeekend: nat,
    isRushHour: nat,
    durationMins: real,
    avgSpeed: real,
    surge: real)

  /** The per-sample quantities: a distance in [1, 30), the sample's time
      and flags, a duration of at least five minutes, the speed that
      duration gives, and the surge. */
  function SampleFeatures(start: Instant, d: SampleDraws): (f: Features)
    requires DrawsOk(d)
    ensures 1.0 <= f.distance < 30.0
    ensures f.hour == SampleInstant(start, d).hour && f.dayOfWeek == SampleInstant(start, d).weekday
    ensures f.isWeekend == 1 <==> IsWeekend(f.dayOfWeek)
    ensures f.isRushHour == 1 <==> IsRushHour(f.hour)
    ensures f.durationMins == SyntheticDuration(f.distance, IsRushHour(f.hour), IsWeekend(f.dayOfWeek), d.durationNoise)
    ensures f.durationMins >= 5.0
    ensures f.avgSpeed * (f.durationMins / 60.0) == f.distance
    ensures f.surge == Surge(IsRushHour(f.hour), IsWeekend(f.dayOfWeek), d.surgeU)
  {
    var distance := UniformDistance(d.distanceU);
    var t := SampleInstant(start, d);
    var rush := IsRushHour(t.hour);
    var weekend := IsWeekend(t.weekday);
    var duration := SyntheticDuration(distance, rush, weekend, d.durationNoise);
    Features(distance, t.hour, t.weekday, Flag(weekend), Flag(rush),
             duration, distance / (duration / 60.0), Surge(rush, weekend, d.surgeU))
  }

  /** Row `k` of a sample: the shared features with transport type `k` of
      the generator's table, the drawn provider, and the fare that type's
      rates, the sample's distance and surge, and the row's noise give,
      which is at least the type's base fare. */
  function SampleRow(start: Instant, d: SampleDraws, k: nat): (row: SyntheticRow)
    requires DrawsOk(d) && k < 3
    ensures row.transportType == Categories[k]
    ensures row.serviceProvider == Services[d.providers[k]]
    ensures row.fare >= BaseFare(Categories[k])
    ensures var f := SampleFeatures(start, d);
      && row.distanceKm == f.distance && row.durationMins == f.durationMins
      && row.hour == f.hour && row.dayOfWeek == f.dayOfWeek
      && row.isWeekend == f.isWeekend && row.isRushHour == f.isRushHour
      && row.avgSpeed == f.avgSpeed && row.surgeMultiplier == f.surge
      && row.fare == SyntheticFare(BaseRates[k].1, f.distance, f.surge, d.fareNoise[k])
  {
    var f := SampleFeatures(start, d);
    SyntheticRow(f.distance, f.durationMins, f.hour, f.dayOfWeek, f.isWeekend, f.isRushHour,
                 f.avgSpeed, BaseRates[k].0, Services[d.providers[k]],
                 SyntheticFare(BaseRates[k].1, f.distance, f.surge, d.fareNoise[k]), f.surge)
  }

  /** The per-sample part of the loop, as the generator performs it. */
  method ComputeFeatures(start: Instant, d: SampleDraws) returns (f: Features)
    requires DrawsOk(d)
    ensures f == SampleFeatures(start, d)
  {
    var distance := 1.0 + 29.0 * d.distanceU;
    var timestamp := SampleInstant(start, d);
    var hour := timestamp.hour;
    var dayOfWeek := timestamp.weekday;
    var isWeekend := if dayOfWeek == 5 || dayOfWeek == 6 then 1 else 0;
    var isRushHour := if hour in {7, 8, 9, 17, 18, 19} then 1 else 0;

    var baseDuration := distance * 3.0;
    var trafficMultiplier := if isRushHour == 1 then 1.5 else 1.0;
    var weekendMultiplier := if isWeekend == 1 then 0.9 else 1.0;
    var durationMins := baseDuration * trafficMultiplier * weekendMultiplier;
    durationMins := durationMins + d.durationNoise;
    durationMins := if 5.0 >= durationMins then 5.0 else durationMins;
    var avgSpeed := distance / (durationMins / 60.0);

    var surgeMultiplier := 1.0;
    if isRushHour == 1 {
      surgeMultiplier := 1.2 + 0.8 * d.surgeU;
    }
    if isWeekend == 1 {
      surgeMultiplier := surgeMultiplier * 0.9;
    }
    f := Features(distance, hour, dayOfWeek, isWeekend, isRushHour, durationMins, avgSpeed, surgeMultiplier);
  }

  /** The fare steps of the inner loop. */
  method PriceRow(rates: RateEntry, distance: real, surge: real, noise: real) returns (fare: real)
    ensures fare == SyntheticFare(rates, distance, surge, noise)
  {
    fare := (rates.baseFare + distance * rates.perKm) * surge;
    fare := fare + noise;
    fare := if rates.baseFare >= fare then rates.baseFare else fare;
  }

  /** One pass of the sample loop: the shared features, then one row per
      transport type. */
  method GenerateSample(start: Instant, d: SampleDraws) returns (rows: seq<SyntheticRow>)
    requires DrawsOk(d)
    ensures |rows| == 3 && forall k :: 0 <= k < 3 ==> rows[k] == SampleRow(start, d, k)
  {
    var f := ComputeFeatures(start, d);
    rows := [];
    for k := 0 to 3
      invariant |rows| == k && forall j :: 0 <= j < k ==> rows[j] == SampleRow(start, d, j)
    {
      var fare := PriceRow(BaseRates[k].1, f.distance, f.surge, d.fareNoise[k]);
      rows := rows + [SyntheticRow(f.distance, f.durationMins, f.hour, f.dayOfWeek, f.isWeekend, f.isRushHour,
                                   f.avgSpeed, BaseRates[k].0, Services[d.providers[k]], fare, f.surge)];
    }
  }

  /** `generate_synthetic_data`: three rows per sample, in sample order and
      then in transport-type order. */
  method GenerateSyntheticData(start: Instant, draws: seq<SampleDraws>) returns (data: seq<SyntheticRow>)
    requires forall i :: 0 <= i < |draws| ==> DrawsOk(draws[i])
    ensures |data| == 3 * |draws|
    ensures forall k :: 0 <= k < |data| ==> data[k] == SampleRow(start, draws[k / 3], k % 3)
  {
    data := [];
    for i := 0 to |draws|
      invariant |data| == 3 * i
      invariant forall k :: 0 <= k < |data| ==> data[k] == SampleRow(start, draws[k / 3], k % 3)
    {
      var rows := GenerateSample(start, draws[i]);
      data := data + rows;
    }
  }
}
