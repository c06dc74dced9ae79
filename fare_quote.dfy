/**
 * The fare route: validate the distance, pick local or intercity rates by a
 * fixed 50 km threshold, and price every (category, provider) pair through
 * a fixed pipeline of random variation, a time-of-day factor, noise and a
 * floor at the base fare.
 *
 * `Math.random` becomes a stream of draws in [0, 1) consumed in the order
 * the route consumes them, and the clock becomes one (hour, weekday) pair
 * per request. Fares are exact reals before the route formats them.
 */
module FareQuote {
  import opened Wrappers
  import opened Text
  import opened Decimal
  import opened FareRates

  const IntercityThresholdKm: real := 50.0

  /** The local time of the request: `getHours()` and `getDay()`, with
      Sunday as day 0. */
  datatype Clock = Clock(hour: int, day: int)

  predicate IsRushHour(hour: int) {
    hour == 7 || hour == 8 || hour == 9 || hour == 17 || hour == 18 || hour == 19
  }

  predicate IsWeekend(day: int) {
    day == 0 || day == 6
  }

  predicate IsDraw(r: real) {
    0.0 <= r < 1.0
  }

  predicate AreDraws(rs: seq<real>) {
    forall i :: 0 <= i < |rs| ==> IsDraw(rs[i])
  }

  /** Draws one quote takes from the stream: the provider multiplier, the
      time factor when there is one, and the noise. */
  function DrawsPerQuote(clock: Clock): (k: nat)
    ensures k == 2 || k == 3
    ensures k == 3 <==> IsRushHour(clock.hour) || IsWeekend(clock.day)
  {
    if IsRushHour(clock.hour) || IsWeekend(clock.day) then 3 else 2
  }

  /** The provider variation: within 5% either way. */
  function ProviderMultiplier(r: real): (m: real)
    requires IsDraw(r)
    ensures 0.95 <= m < 1.05
  {
    0.95 + r * 0.10
  }

  /** The time factor: a 10-20% surge at rush hour whatever the day, else a
      5-10% weekend discount, else nothing. */
  function TimeFactor(clock: Clock, r: real): (m: real)
    requires IsDraw(r)
    ensures IsRushHour(clock.hour) ==> 1.1 <= m < 1.2
    ensures !IsRushHour(clock.hour) && IsWeekend(clock.day) ==> 0.9 <= m < 0.95
    ensures !IsRushHour(clock.hour) && !IsWeekend(clock.day) ==> m == 1.0
  {
    if IsRushHour(clock.hour) then 1.1 + r * 0.1
    else if IsWeekend(clock.day) then 0.9 + r * 0.05
    else 1.0
  }

  /** The additive noise, in [-5, 5). */
  function Noise(r: real): (n: real)
    requires IsDraw(r)
    ensures -5.0 <= n < 5.0
  {
    r * 10.0 - 5.0
  }

  /** The undiscounted distance price `baseFare + perKm * d`. */
  function BasePrice(e: RateEntry, d: real): real {
    e.baseFare + e.perKm * d
  }

  /** The fare before the floor, from the draws of one quote. */
  function PreClampFare(e: RateEntry, d: real, clock: Clock, draws: seq<real>): real
    requires |draws| == DrawsPerQuote(clock) && AreDraws(draws)
  {
    var varied := BasePrice(e, d) * ProviderMultiplier(draws[0]);
    var timed := if |draws| == 3 then varied * TimeFactor(clock, draws[1]) else varied;
    timed + Noise(draws[|draws| - 1])
  }

  /** The quoted fare: the pre-floor fare, raised to the base fare when it
      falls below it. */
  function Fare(e: RateEntry, d: real, clock: Clock, draws: seq<real>): (r: real)
    requires |draws| == DrawsPerQuote(clock) && AreDraws(draws)
    ensures r >= e.baseFare && r >= PreClampFare(e, d, clock, draws)
    ensures r == e.baseFare || r == PreClampFare(e, d, clock, draws)
  {
    var pre := PreClampFare(e, d, clock, draws);
    if e.baseFare >= pre then e.baseFare else pre
  }

  /** The body of the route's per-provider callback, step by step. */
  method PriceService(rates: RateEntry, distInKm: real, clock: Clock, draws: seq<real>) returns (fare: real)
    requires |draws| == DrawsPerQuote(clock) && AreDraws(draws)
    ensures fare == Fare(rates, distInKm, clock, draws)
    ensures fare >= rates.baseFare
  {
    var randomMultiplier := 0.95 + draws[0] * 0.10;
    fare := (rates.baseFare + rates.perKm * distInKm) * randomMultiplier;
    var isRushHour := IsRushHour(clock.hour);
    var isWeekend := IsWeekend(clock.day);
    if isRushHour {
      fare := fare * (1.1 + draws[1] * 0.1);
    } else if isWeekend {
      fare := fare * (0.9 + draws[1] * 0.05);
    }
    fare := fare + (draws[|draws| - 1] * 10.0 - 5.0);
    if rates.baseFare >= fare {
      fare := rates.baseFare;
    }
  }

  /** Lowest and highest time factor for a clock. */
  function LowFactor(clock: Clock): real {
    if IsRushHour(clock.hour) then 1.1 else if IsWeekend(clock.day) then 0.9 else 1.0
  }

  function HighFactor(clock: Clock): real {
    if IsRushHour(clock.hour) then 1.2 else if IsWeekend(clock.day) then 0.95 else 1.0
  }

  lemma MulNonneg(x: real, y: real)
    requires x >= 0.0 && y >= 0.0
    ensures x * y >= 0.0
  {
  }

  lemma MulPos(x: real, y: real)
    requires x > 0.0 && y > 0.0
    ensures x * y > 0.0
  {
  }

  /** Multiplying by a non-negative factor keeps `x <= y`. */
  lemma MulMonotone(b: real, x: real, y: real)
    requires b >= 0.0 && x <= y
    ensures b * x <= b * y
  {
    MulNonneg(b, y - x);
    assert b * (y - x) == b * y - b * x;
  }

  /** Multiplying by a positive factor keeps `x < y`; by a negative one it
      reverses it. */
  lemma MulStrict(b: real, x: real, y: real)
    requires b != 0.0 && x < y
    ensures b > 0.0 ==> b * x < b * y
    ensures b < 0.0 ==> b * y < b * x
  {
    if b > 0.0 {
      MulPos(b, y - x);
    } else {
      MulPos(-b, y - x);
      assert (-b) * (y - x) == b * x - b * y;
    }
    assert b * (y - x) == b * y - b * x;
  }

  /** The provider multiplier times the time factor lies in
      [0.95 * low, 1.05 * high). */
  lemma CombinedFactorBounds(m: real, t: real, lo: real, hi: real)
    requires 0.95 <= m < 1.05 && 0.0 < lo <= t <= hi
    ensures 0.95 * lo <= m * t < 1.05 * hi
  {
    MulMonotone(lo, 0.95, m);
    assert 0.95 * lo <= m * lo;
    MulMonotone(m, lo, t);
    assert m * lo <= m * t;
    MulMonotone(m, t, hi);
    assert m * t <= m * hi;
    MulStrict(hi, m, 1.05);
    assert m * hi < 1.05 * hi;
    assert 0.95 * lo <= m * t;
    assert m * t < 1.05 * hi;
  }

  /** The three pipeline steps on plain numbers: a base price `b` times the
      provider multiplier `m` times a time factor `t` in [lo, hi], plus noise
      `n` in [-5, 5). */
  lemma PipelineBounds(b: real, m: real, t: real, n: real, lo: real, hi: real)
    requires 0.95 <= m < 1.05 && 0.0 < lo <= t <= hi && -5.0 <= n < 5.0
    ensures b >= 0.0 ==> b * 0.95 * lo - 5.0 <= b * m * t + n < b * 1.05 * hi + 5.0
    ensures b < 0.0 ==> b * 1.05 * hi - 5.0 < b * m * t + n < b * 0.95 * lo + 5.0
  {
    CombinedFactorBounds(m, t, lo, hi);
    var mt, low, high := m * t, 0.95 * lo, 1.05 * hi;
    assert b * m * t == b * mt;
    assert b * 0.95 * lo == b * low;
    assert b * 1.05 * hi == b * high;
    if b >= 0.0 {
      MulMonotone(b, low, mt);
      MulMonotone(b, mt, high);
      assert b * mt <= b * high;
      assert b * mt + n < b * high + 5.0;
      assert b * m * t + n < b * 1.05 * hi + 5.0;
    } else {
      MulStrict(-b, mt, high);
      MulMonotone(-b, low, mt);
      assert (-b) * mt == -(b * mt);
      assert (-b) * low == -(b * low);
      assert (-b) * high == -(b * high);
    }
  }

  /** The pre-floor fare lies between the base price scaled by the smallest
      and by the largest combined multiplier, widened by the noise range; for
      a negative base price (a negative distance) the roles swap. */
  lemma PreClampBounds(e: RateEntry, d: real, clock: Clock, draws: seq<real>)
    requires |draws| == DrawsPerQuote(clock) && AreDraws(draws)
    ensures var b, pre := BasePrice(e, d), PreClampFare(e, d, clock, draws);
      b >= 0.0 ==> b * 0.95 * LowFactor(clock) - 5.0 <= pre < b * 1.05 * HighFactor(clock) + 5.0
    ensures var b, pre := BasePrice(e, d), PreClampFare(e, d, clock, draws);
      b < 0.0 ==> b * 1.05 * HighFactor(clock) - 5.0 < pre < b * 0.95 * LowFactor(clock) + 5.0
  {
    var b := BasePrice(e, d);
    var m := ProviderMultiplier(draws[0]);
    var t := if |draws| == 3 then TimeFactor(clock, draws[1]) else 1.0;
    var n := Noise(draws[|draws| - 1]);
    assert PreClampFare(e, d, clock, draws) == b * m * t + n;
    PipelineBounds(b, m, t, n, LowFactor(clock), HighFactor(clock));
  }

  /** With the same provider and noise draws, a rush-hour quote is never
      cheaper than an off-peak weekday quote (for a non-negative base price). */
  lemma RushHourNotCheaper(e: RateEntry, d: real, rush: Clock, offPeak: Clock, r: seq<real>, s: seq<real>)
    requires IsRushHour(rush.hour) && !IsRushHour(offPeak.hour) && !IsWeekend(offPeak.day)
    requires |r| == 3 && |s| == 2 && AreDraws(r) && AreDraws(s)
    requires r[0] == s[0] && r[2] == s[1]
    requires BasePrice(e, d) >= 0.0
    ensures Fare(e, d, rush, r) >= Fare(e, d, offPeak, s)
  {
    var m := ProviderMultiplier(r[0]);
    var v := BasePrice(e, d) * m;
    MulNonneg(BasePrice(e, d), m);
    var t := TimeFactor(rush, r[1]);
    MulMonotone(v, 1.0, t);
    assert v * 1.0 <= v * t;
    var n := Noise(r[2]);
    assert PreClampFare(e, d, rush, r) == v * t + n;
    assert PreClampFare(e, d, offPeak, s) == v + n;
  }

  /** One quote of the response. `fare` is the number before
      `toFixed(1)` formats it. */
  datatype Quote = Quote(service: string, fare: real, intercity: bool)

  datatype FareResponse =
    | BadRequest(error: string)
    | Estimates(estimates: map<string, seq<Quote>>, intercity: bool)

  /** The draws of the `n`-th quote of the request (quotes are numbered
      category by category, provider by provider). */
  function QuoteDraws(rng: seq<real>, clock: Clock, n: nat): (r: seq<real>)
    requires n < 9 && |rng| >= 9 * DrawsPerQuote(clock)
    ensures |r| == DrawsPerQuote(clock)
    ensures AreDraws(rng) ==> AreDraws(r)
  {
    var k := DrawsPerQuote(clock);
    assert n * k + k <= 9 * k;
    rng[n * k..n * k + k]
  }

  /** The quote for category `ci` and provider `si` of a request. */
  function QuoteAt(d: real, clock: Clock, rng: seq<real>, ci: nat, si: nat): (q: Quote)
    requires ci < 3 && si < 3 && |rng| >= 9 * DrawsPerQuote(clock) && AreDraws(rng)
    ensures q.service == Services[si] && q.intercity == (d > IntercityThresholdKm)
    ensures q.fare >= BaseFare(Categories[ci])
  {
    var rates := Rate(d > IntercityThresholdKm, Categories[ci], Services[si]);
    Quote(Services[si], Fare(rates, d, clock, QuoteDraws(rng, clock, 3 * ci + si)), d > IntercityThresholdKm)
  }

  /** The three quotes of category `ci`, in provider order. */
  function CategoryQuotes(d: real, clock: Clock, rng: seq<real>, ci: nat): (qs: seq<Quote>)
    requires ci < 3 && |rng| >= 9 * DrawsPerQuote(clock) && AreDraws(rng)
    ensures |qs| == 3
    ensures forall si :: 0 <= si < 3 ==>
      && qs[si].service == Services[si]
      && qs[si].intercity == (d > IntercityThresholdKm)
      && qs[si].fare >= BaseFare(Categories[ci])
  {
    [QuoteAt(d, clock, rng, ci, 0), QuoteAt(d, clock, rng, ci, 1), QuoteAt(d, clock, rng, ci, 2)]
  }

  /** What the route promises of a priced response. */
  predicate WellShaped(estimates: map<string, seq<Quote>>, intercity: bool) {
    && estimates.Keys == {"bike", "auto", "cab"}
    && forall ci :: 0 <= ci < 3 ==>
         && |estimates[Categories[ci]]| == 3
         && forall si :: 0 <= si < 3 ==>
              && estimates[Categories[ci]][si].service == Services[si]
              && estimates[Categories[ci]][si].intercity == intercity
              && estimates[Categories[ci]][si].fare >= BaseFare(Categories[ci])
  }

  /** The `grouped` object after the first `n` categories are priced. */
  ghost function Grouping(d: real, clock: Clock, rng: seq<real>, n: nat): map<string, seq<Quote>>
    requires n <= 3 && |rng| >= 9 * DrawsPerQuote(clock) && AreDraws(rng)
  {
    if n == 0 then map[]
    else Grouping(d, clock, rng, n - 1)[Categories[n - 1] := CategoryQuotes(d, clock, rng, n - 1)]
  }

  /** Filling one key per category, in order, gives exactly those keys. */
  lemma FillCategories<V>(v0: V, v1: V, v2: V)
    ensures var g := map[][Categories[0] := v0][Categories[1] := v1][Categories[2] := v2];
      && g.Keys == {"bike", "auto", "cab"}
      && g[Categories[0]] == v0 && g[Categories[1]] == v1 && g[Categories[2]] == v2
  {
  }

  lemma GroupingComplete(d: real, clock: Clock, rng: seq<real>)
    requires |rng| >= 9 * DrawsPerQuote(clock) && AreDraws(rng)
    ensures Grouping(d, clock, rng, 3).Keys == {"bike", "auto", "cab"}
    ensures forall ci :: 0 <= ci < 3 ==> Grouping(d, clock, rng, 3)[Categories[ci]] == CategoryQuotes(d, clock, rng, ci)
  {
    var v0, v1, v2 := CategoryQuotes(d, clock, rng, 0), CategoryQuotes(d, clock, rng, 1), CategoryQuotes(d, clock, rng, 2);
    assert Grouping(d, clock, rng, 1) == map[][Categories[0] := v0];
    assert Grouping(d, clock, rng, 2) == Grouping(d, clock, rng, 1)[Categories[1] := v1];
    assert Grouping(d, clock, rng, 3) == Grouping(d, clock, rng, 2)[Categories[2] := v2];
    FillCategories(v0, v1, v2);
  }

  /** Quotes built category by category make a well-shaped response. */
  lemma GroupedWellShaped(grouped: map<string, seq<Quote>>, d: real, clock: Clock, rng: seq<real>)
    requires AreDraws(rng) && |rng| >= 9 * DrawsPerQuote(clock)
    requires grouped.Keys == {"bike", "auto", "cab"}
    requires forall ci :: 0 <= ci < 3 ==> grouped[Categories[ci]] == CategoryQuotes(d, clock, rng, ci)
    ensures WellShaped(grouped, d > IntercityThresholdKm)
  {
  }

  /** The route's `services.map(...)` for one category: one quote per
      provider, in provider order. */
  method PriceCategory(ci: nat, distInKm: real, isIntercity: bool, clock: Clock, rng: seq<real>)
    returns (quotes: seq<Quote>)
    requires ci < 3 && AreDraws(rng) && |rng| >= 9 * DrawsPerQuote(clock)
    requires isIntercity == (distInKm > IntercityThresholdKm)
    ensures quotes == CategoryQuotes(distInKm, clock, rng, ci)
  {
    var category := Categories[ci];
    quotes := [];
    for si := 0 to |Services|
      invariant |quotes| == si
      invariant forall sj :: 0 <= sj < si ==> quotes[sj] == QuoteAt(distInKm, clock, rng, ci, sj)
    {
      var service := Services[si];
      var rates := Rate(isIntercity, category, service);
      var fare := PriceService(rates, distInKm, clock, QuoteDraws(rng, clock, 3 * ci + si));
      quotes := quotes + [Quote(service, fare, isIntercity)];
    }
  }

  /** The route's `for (const category of categories)` loop: the quotes of
      every category, keyed by category name. */
  method GroupByCategory(distInKm: real, isIntercity: bool, clock: Clock, rng: seq<real>)
    returns (grouped: map<string, seq<Quote>>)
    requires AreDraws(rng) && |rng| >= 9 * DrawsPerQuote(clock)
    requires isIntercity == (distInKm > IntercityThresholdKm)
    ensures grouped.Keys == {"bike", "auto", "cab"}
    ensures forall ci :: 0 <= ci < 3 ==> grouped[Categories[ci]] == CategoryQuotes(distInKm, clock, rng, ci)
  {
    grouped := map[];
    for ci := 0 to |Categories|
      invariant grouped == Grouping(distInKm, clock, rng, ci)
    {
      var quotes := PriceCategory(ci, distInKm, isIntercity, clock, rng);
      grouped := grouped[Categories[ci] := quotes];
    }
    GroupingComplete(distInKm, clock, rng);
  }

  /** `GET /api/fare?distance=...`. A missing or empty distance and one
      `parseFloat` reads as NaN are the only rejections; anything else,
      zero and negative distances included, is priced. */
  method EstimateFares(distance: Option<string>, clock: Clock, rng: seq<real>) returns (res: FareResponse)
    requires AreDraws(rng) && |rng| >= 9 * DrawsPerQuote(clock)
    ensures distance.None? || distance.value == "" ==> res == BadRequest("Distance is required")
    ensures distance.Some? && distance.value != "" && ParseFloat(distance.value).None? ==>
      res == BadRequest("Invalid distance value")
    ensures distance.Some? && distance.value != "" && ParseFloat(distance.value).Some? ==>
      var d := ParseFloat(distance.value).value;
      && res.Estimates?
      && res.intercity == (d > IntercityThresholdKm)
      && WellShaped(res.estimates, res.intercity)
      && forall ci :: 0 <= ci < 3 ==> res.estimates[Categories[ci]] == CategoryQuotes(d, clock, rng, ci)
  {
    if distance.None? || distance.value == "" {
      return BadRequest("Distance is required");
    }
    var parsed := ParseFloat(distance.value);
    if parsed.None? {
      return BadRequest("Invalid distance value");
    }
    var distInKm := parsed.value;
    var isIntercity := distInKm > IntercityThresholdKm;
    var grouped := GroupByCategory(distInKm, isIntercity, clock, rng);
    GroupedWellShaped(grouped, distInKm, clock, rng);
    res := Estimates(grouped, isIntercity);
  }

  lemma ParseFifty()
    ensures ParseFloat("50") == Some(50.0)
  {
    assert "50"[..1] == "5";
    assert DigitsValue("50") == 50;
    var whole := Numeral("", "50", false, "", None);
    assert Spelling(whole) + "" == "50";
    ValueOfWhole(whole);
    ParseFloatOfNumeral(whole, "");
  }

  lemma ParseJustOverFifty()
    ensures ParseFloat("50.01") == Some(50.01)
  {
    assert "50"[..1] == "5";
    assert DigitsValue("50") == 50;
    var frac := Numeral("", "50", true, "01", None);
    assert Spelling(frac) + "" == "50.01";
    assert "01"[..1] == "0";
    assert DigitsValue("01") == 1;
    assert FractionValue("01") == 0.01 by {
      assert Power10(2) == 100;
    }
    assert Pow10Int(0) == 1.0;
    ParseFloatOfNumeral(frac, "");
  }

  /** `distance=50` reads as 50 km and is still local; `distance=50.01`
      reads as 50.01 km and is intercity. */
  lemma ThresholdBoundary()
    ensures ParseFloat("50") == Some(50.0) && !(50.0 > IntercityThresholdKm)
    ensures ParseFloat("50.01") == Some(50.01) && 50.01 > IntercityThresholdKm
  {
    ParseFifty();
    ParseJustOverFifty();
  }
}
