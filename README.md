# RideWise core rules in Dafny

This project models the three self-contained rule sets of the RideWise ride-fare
comparison app, and proves properties about them.

- **Fare quote engine.** This is the `GET /api/fare` handler of the Node server,
  with its static rate table. The handler checks the `distance` query parameter,
  then chooses local or intercity rates by a fixed 50 km threshold. It prices
  every (category, provider) pair in four steps:
  1. a provider variation;
  2. a rush-hour surge, or else a weekend discount;
  3. additive noise;
  4. a floor at the base fare.

  It returns the quotes grouped by category.
- **Favorite locations.** This is the favorite-location document with its schema
  constraints and display label. It also covers the `POST /add` (add-or-update),
  `DELETE /:id` and `GET /label/:label` routes, over an in-memory collection.
  The collection's unique (user, label) index is an invariant of the store, and
  every route keeps it.
- **Data collector.** This is the Python collector of the fare-prediction service:
  - it reads stored ride history into training rows, parsing strings such as
    `"5.2 km"` and `"1 hour 20 mins"` token by token;
  - it derives the weekend and rush-hour flags and the average speed;
  - it generates synthetic training rows by its own fare rule.

Inputs that change from run to run become explicit parameters:
- randomness (`Math.random`, `np.random`) becomes a sequence of draws in [0, 1),
  or a record of the draws for one sample;
- the clock becomes one (hour, weekday) pair per request;
- the database cursor becomes a sequence of records.

Money, distances and durations are exact `real`s.

The modules follow the program's structure:

| file | module | models |
|---|---|---|
| `wrappers.dfy` | `Wrappers` | `Option` and `Result` |
| `text.dfy` | `Text` | JavaScript and Python whitespace, trimming, ASCII case, whitespace splitting, digit strings, joining, UTF-16 lengths |
| `decimal.dfy` | `Decimal` | JavaScript `parseFloat` and Python `float` on decimal literals |
| `fare_rates.dfy` | `FareRates` | `server/constants/fareRates.js` |
| `fare_quote.dfy` | `FareQuote` | the `/api/fare` handler of `server/index.js` |
| `favorite_location.dfy` | `FavoriteLocation` | `server/models/FavoriteLocation.js` |
| `favorites_routes.dfy` | `FavoritesRoutes` | `server/routes/favorites.js` |
| `data_collector.dfy` | `DataCollector` | `ml-service/utils/data_collector.py` |

Two behaviours of the fare handler are easy to miss:
- The handler rejects only a missing or empty distance and one that
  `parseFloat` reads as NaN (server/index.js:124-131). Zero and negative
  distances are priced, and the hour and weekday it reads are used without a
  range check. `FareQuote.EstimateFares` does the same, and
  `FareQuote.PreClampBounds` also covers a negative base price.
- `Math.random()` is in [0, 1), so the provider multiplier is in [0.95, 1.05),
  the surge in [1.1, 1.2), the discount in [0.9, 0.95) and the noise in
  [-5, 5) (server/index.js:147-166). The lower end of each range is reached, so
  the lower bound on the fare before the floor is not strict.

Literals are given their value through `Decimal.Numeral`, a literal spelled out
as sign, integer digits, point, fraction digits and exponent. `Decimal.Value`
is the number it denotes in the usual positional reading. `Decimal.Stops(n, rest)`
says that `rest` cannot continue the literal `n`: it does not start with a digit,
and, when `n` has no exponent, it does not start with a complete exponent
(a marker, an optional sign and a digit) or, when `n` has no point either, with a
point. So in `"1.5.3"` the literal is `1.5`, in `"1e5e3"` it is `1e5`, and in
`"1ex"` it is `1`. The scanning lemmas show both directions: a literal followed
by such a rest is read as its value, and whatever is read is such a literal.

## Model

| member | source | states |
|---|---|---|
| Text.Trim | server/routes/favorites.js:59 | the result is a slice of the input with only whitespace cut from both ends, and it neither starts nor ends with whitespace |
| Text.TrimIdempotent | server/models/FavoriteLocation.js:16-25 | trimming twice is trimming once, so the schema's own `trim` does not change an address or custom label the route has already trimmed |
| Text.ToLower | server/routes/favorites.js:38 | the result has the input's length; each upper-case ASCII letter becomes its lower-case letter (code point plus 32) and every other character stays, so the result has no upper-case letter |
| Text.ToLowerOfLower | server/models/FavoriteLocation.js:14 | lower-casing a string that is already lower case leaves it unchanged |
| Text.Split | ml-service/utils/data_collector.py:37 | every token of `str.split()` is non-empty and contains no Python whitespace |
| Text.SplitToken | ml-service/utils/data_collector.py:33 | a whitespace-free token followed by nothing or by whitespace is the first token, and the split goes on with what follows |
| Text.SplitAfterBlanks | ml-service/utils/data_collector.py:33 | whitespace in front does not change the tokens; with `SplitToken` this fixes the tokens of every string |
| Text.LeadingSpaceAppend | ml-service/utils/data_collector.py:33 | a run of whitespace in front adds its length to the whitespace skipped |
| Text.SplitEmptyIffBlank | ml-service/utils/data_collector.py:33 | `split()` gives no tokens exactly when the string is all whitespace |
| Text.SplitWords | ml-service/utils/data_collector.py:37 | splitting words joined by single spaces gives the words back |
| Text.SplitWordThenBlank | ml-service/utils/data_collector.py:33 | a word followed by a space is the first token, whatever follows |
| Text.IndexOf | ml-service/utils/data_collector.py:43 | `list.index`: the first position that holds the token, and `None` exactly when the token is absent |
| Text.NatToString | ml-service/utils/data_collector.py:42 | a printed natural is all digits, without a leading zero |
| Text.DigitsValue | ml-service/utils/data_collector.py:42 | `int` of a digit string: the value of k digits is below ten to the k |
| Text.DigitsValueZero | ml-service/utils/data_collector.py:42 | a digit string is worth 0 exactly when every digit is `0` |
| Text.DigitsValueOfNatToString | ml-service/utils/data_collector.py:42 | `int`, applied to a printed natural, gives the natural back |
| Text.NatToStringOfDigits | ml-service/utils/data_collector.py:42 | printing the value of a digit string without leading zeros gives the string back |
| Text.Join | server/routes/favorites.js:97-99 | joining no messages gives the empty string, and joining one gives that message |
| Text.Utf16Length | server/models/FavoriteLocation.js:19 | the length JavaScript reports lies between the number of characters and twice it |
| Text.Utf16LengthOfAstral | server/models/FavoriteLocation.js:19 | a string of characters beyond the Basic Multilingual Plane, such as emoji, is twice as long as its character count |
| Text.Utf16LengthOfBmp | server/models/FavoriteLocation.js:25 | for characters of the Basic Multilingual Plane the two lengths agree |
| Decimal.ScanDecimal | server/index.js:128 | a literal is found at the front exactly when the string starts with an optional sign and then a digit or a point followed by a digit; the literal read is never empty |
| Decimal.ParseFloat | server/index.js:128-131 | `parseFloat` gives NaN exactly when the string, after leading whitespace, does not start a numeric literal |
| Decimal.PyFloat | ml-service/utils/data_collector.py:33 | `float` succeeds only on a trimmed string that starts a numeric literal (the exact condition is `PyFloatExact`) |
| Decimal.ScanNumeral | server/index.js:128 | a literal followed by text that cannot continue it (`Stops`) is read whole, and its value is `Value`: sign, integer digits, fraction digits over ten to their count, times ten to the signed exponent |
| Decimal.ScanDecimalSound | server/index.js:128 | the other direction: whatever is read from the front of a string is the spelling of a well-formed literal, followed by text that cannot continue it, and the value read is that literal's `Value` |
| Decimal.ScanExponentStarts | server/index.js:128 | an exponent part is read exactly when the text starts with a marker, an optional sign and a digit |
| Decimal.ScanMantissaPointAt | server/index.js:128 | digits, a point and digits followed by a non-digit are read whole, worth the integer digits plus the fraction digits over ten to their count |
| Decimal.ScanMantissaIntegerAt | server/index.js:128 | digits followed by neither a digit nor a point are read whole, worth their value |
| Decimal.ScanExponentAt | server/index.js:128 | a marker, an optional sign and digits followed by a non-digit are read whole as the signed exponent |
| Decimal.ScanMantissaOf | server/index.js:128 | the digits-and-fraction part of a literal is read whole, worth `MantissaValue` |
| Decimal.ScanExponentOf | server/index.js:128 | the exponent part of a literal is read whole, worth `ExponentValue`; without one nothing is read |
| Decimal.ValueOfWhole | server/index.js:128 | a literal without point or exponent is worth its digits' value, negated after a minus sign |
| Decimal.ParseFloatOfNumeral | server/index.js:128 | `parseFloat` reads a literal at the front of the string as the number it denotes, whatever follows that cannot continue it |
| Decimal.PyFloatOfNumeral | ml-service/utils/data_collector.py:33 | `float` reads a literal with nothing around it as the number it denotes |
| Decimal.PyFloatRejectsTrailing | ml-service/utils/data_collector.py:33 | `float` fails on a literal followed by anything that is neither whitespace nor a continuation, e.g. `"5.2abc"` |
| Decimal.PyFloatKeepsSeparator | ml-service/utils/data_collector.py:33 | `float` does not strip the information separators, so `"5\x1c"` is rejected |
| Decimal.PyFloatOfToken | ml-service/utils/data_collector.py:33 | on a token of `split()`, as line 33 passes it, `float` strips nothing |
| Decimal.PyFloatExact | ml-service/utils/data_collector.py:33 | `float` succeeds exactly when the whitespace-stripped string is the spelling of one well-formed literal, and then gives that literal's `Value` |
| Decimal.ParseFloatSound | server/index.js:128 | whatever `parseFloat` reads is a literal, after the leading whitespace, followed by text that cannot continue it, and the result is that literal's `Value` |
| Decimal.ScanNatString | server/index.js:128 | a printed natural is read whole, as its own value |
| Decimal.PyFloatOfNatString | ml-service/utils/data_collector.py:33 | `float` reads a printed natural as that number |
| Decimal.ParseFloatSuffix | server/index.js:128 | `parseFloat` ignores text after a numeral that does not continue the literal, e.g. `"12km"` reads as 12 |
| Decimal.ParseFloatOfZero | server/index.js:124-131 | `"0"` passes the presence check and reads as 0, so a zero distance is priced |
| Decimal.ParseFloatRejectsWord | server/index.js:128-131 | a word such as `"abc"` reads as NaN |
| Decimal.ParseFloatOfFraction | server/index.js:128 | `"12.5"` reads as 12.5 |
| Decimal.ParseFloatOfNegative | server/index.js:128 | `"-3"` reads as -3 |
| Decimal.ParseFloatOfExponent | server/index.js:128 | `"1e2"` reads as 100 |
| Decimal.ParseFloatOfBareFraction | server/index.js:128 | `".5km"` reads as 0.5 |
| Decimal.ParseFloatOfSecondPoint | server/index.js:128 | `"1.5.3"` reads as 1.5: a second point ends the literal |
| Decimal.ParseFloatOfBareMarker | server/index.js:128 | `"1ex"` reads as 1: an exponent marker without digits is not taken |
| FareRates.TableCoverage | server/constants/fareRates.js:3-34 | the local and the intercity table each have an entry for every category and every provider |
| FareRates.Rate | server/constants/fareRates.js:3-34 | the base fare an entry has depends only on its category (10, 20, 30), and every base fare and per-km rate is positive |
| FareRates.IntercityCheaper | server/constants/fareRates.js:4-32 | for every (category, provider), the intercity per-km rate is strictly below the local one |
| FareRates.PerKmRisesAlongServices | server/constants/fareRates.js:4-32 | within a category and mode, per-km rises strictly from obeer to radipoo to yela |
| FareRates.PerKmRisesAlongCategories | server/constants/fareRates.js:3-33 | for a provider and mode, per-km rises strictly from bike to auto to cab |
| FareQuote.DrawsPerQuote | server/index.js:147-166 | a quote takes three random draws when it is rush hour or a weekend, otherwise two |
| FareQuote.ProviderMultiplier | server/index.js:147 | the provider multiplier lies in [0.95, 1.05) |
| FareQuote.TimeFactor | server/index.js:153-163 | at rush hour a surge in [1.1, 1.2) whatever the day; otherwise a discount in [0.9, 0.95) on weekends; otherwise 1 |
| FareQuote.Noise | server/index.js:166 | the noise lies in [-5, 5) |
| FareQuote.Fare | server/index.js:150-169 | the fare is at least the base fare and at least the fare before the floor, and it equals one of the two |
| FareQuote.PriceService | server/index.js:145-171 | the step-by-step fare computation equals `Fare` and is at least the base fare |
| FareQuote.PreClampBounds | server/index.js:147-166 | the fare before the floor lies between the base price times 0.95 times the lowest time factor, minus 5, and the base price times 1.05 times the highest time factor, plus 5; the bounds swap for a negative base price |
| FareQuote.RushHourNotCheaper | server/index.js:157-163 | with the same provider and noise draws, a rush-hour quote is never below the off-peak weekday quote |
| FareQuote.QuoteDraws | server/index.js:142-166 | each quote gets a slice of the stream of exactly the length it consumes, and every draw in it is in [0, 1) |
| FareQuote.QuoteAt | server/index.js:141-171 | a quote names its provider, carries the request's intercity flag, and has a fare at least its category's base fare |
| FareQuote.CategoryQuotes | server/index.js:142-172 | a category has exactly three quotes, in the order obeer, radipoo, yela, each with the intercity flag and at least the base fare |
| FareQuote.GroupingComplete | server/index.js:139-173 | after the category loop, the keys are exactly bike, auto and cab, each holding that category's quotes |
| FareQuote.GroupedWellShaped | server/index.js:135-175 | such a grouping has the response shape: three keys, three ordered quotes each, each with the top-level intercity flag and at least the base fare |
| FareQuote.PriceCategory | server/index.js:142-172 | the `services.map` loop produces exactly that category's three quotes |
| FareQuote.GroupByCategory | server/index.js:137-173 | the loop over categories fills exactly the three keys, each with that category's quotes |
| FareQuote.EstimateFares | server/index.js:121-176 | a missing or empty distance gives "Distance is required"; a NaN distance gives "Invalid distance value"; anything else, negative distances included, gives a well-shaped response whose intercity flag is `distance > 50` |
| FareQuote.ParseFifty | server/index.js:128 | `"50"` reads as 50 |
| FareQuote.ParseJustOverFifty | server/index.js:128 | `"50.01"` reads as 50.01 |
| FareQuote.ThresholdBoundary | server/index.js:128-134 | `distance=50` reads as 50 and is local; `distance=50.01` reads as 50.01 and is intercity |
| FavoriteLocation.ValidationErrors | server/models/FavoriteLocation.js:10-26 | the validators report nothing exactly when the record conforms to the schema (label in the enum, custom label at most 50 UTF-16 units, address non-empty and at most 300 UTF-16 units), and they report at most one message per path |
| FavoriteLocation.PinLabelLimit | server/models/FavoriteLocation.js:16-19 | a custom label of k pushpin emoji is reported too long exactly when k exceeds 25 |
| FavoriteLocation.DisplayLabel | server/models/FavoriteLocation.js:47-52 | a custom favorite with non-empty custom text shows that text; any other shows its label with the first character upper-cased and the rest unchanged |
| FavoriteLocation.DisplayLabelRoundTrip | server/models/FavoriteLocation.js:10-15 | for a stored favorite that shows its label, lower-casing the display label gives the stored label back |
| FavoriteLocation.LabelsAreLower | server/models/FavoriteLocation.js:13-14 | every label of the enum is in lower case |
| FavoriteLocation.DisplayLabelExamples | server/models/FavoriteLocation.js:47-52 | `home` shows as "Home"; custom text "Gym" shows as "Gym"; a custom favorite with empty custom text shows as "Custom" |
| FavoritesRoutes.DefaultEmoji | server/routes/favorites.js:170-178 | for the enum labels the route passes it, home, office and college get their own emoji and custom gets the pushpin |
| FavoritesRoutes.DefaultEmojiDistinct | server/routes/favorites.js:170-178 | home, office, college and custom get four different emoji |
| FavoritesRoutes.CheckRequest | server/routes/favorites.js:30-49 | no error exactly when the label and address are truthy, the lower-cased label is in the enum, and custom comes with truthy custom text; a missing label or address gives "Label and address are required" |
| FavoritesRoutes.NewFavorite | server/routes/favorites.js:76-84 | a new record has the lower-cased label, the trimmed address, the trimmed custom text only for custom, the given coordinates, and the request's emoji when truthy, else the label's default |
| FavoritesRoutes.UpdatedFavorite | server/routes/favorites.js:59-65 | an update keeps the id, user and label, sets the trimmed address, replaces coordinates and emoji only with truthy values (a latitude of 0 is ignored), and replaces the custom text only for custom |
| FavoritesRoutes.WriteKeepsUnique | server/models/FavoriteLocation.js:44 | writing a record that replaces the holder of its (user, label), or that takes a free (user, label), keeps that pair unique |
| FavoritesRoutes.RemoveKeepsUnique | server/models/FavoriteLocation.js:44 | removing a record keeps (user, label) unique |
| FavoritesRoutes.FavoriteStore.constructor | server/models/FavoriteLocation.js:44 | a new store is empty and valid |
| FavoritesRoutes.FavoriteStore.FindByLabel | server/routes/favorites.js:52-55 | finds a record of that user with that label exactly when one exists |
| FavoritesRoutes.FavoriteStore.GetByLabel | server/routes/favorites.js:150-158 | returns a stored record of the user whose label is the lower-cased request label, and none exactly when there is no such record |
| FavoritesRoutes.FavoriteStore.ApplyUpdate | server/routes/favorites.js:59-65 | the field-by-field edits of the loaded record give `UpdatedFavorite` |
| FavoritesRoutes.FavoriteStore.UpdateExisting | server/routes/favorites.js:57-73 | the record is rewritten in place under its id when the updated record passes the validators; otherwise the joined validator messages are returned and nothing changes; the store stays valid and gains no record |
| FavoritesRoutes.FavoriteStore.CreateNew | server/routes/favorites.js:76-91 | a new record is filed under the next id when it passes the validators; otherwise the joined validator messages are returned and nothing changes; the store stays valid |
| FavoritesRoutes.FavoriteStore.Add | server/routes/favorites.js:26-101 | a request failing the route's checks is rejected with the first failing check's message and the store is unchanged; otherwise the user's record with that label is updated if there is one, else a record is created; any success leaves exactly that record stored under (user, label), and the store stays valid, so (user, label) stays unique |
| FavoritesRoutes.FavoriteStore.Delete | server/routes/favorites.js:122-135 | removes the record only when it exists and belongs to the requesting user; otherwise the result is "Favorite location not found" and nothing changes |
| DataCollector.Flag | ml-service/utils/data_collector.py:64-65 | a flag is 0 or 1, and 1 exactly when the condition holds |
| DataCollector.FlagsAgreeWithServer | ml-service/utils/data_collector.py:63-65 | the collector's Monday-based weekend {5, 6} is the server's Sunday-based weekend {0, 6}, and both use the same rush hours |
| DataCollector.ParseDistance | ml-service/utils/data_collector.py:32-33 | an empty distance string reads as 0 |
| DataCollector.DistanceReadsFirstToken | ml-service/utils/data_collector.py:32-33 | a distance whose first part is any non-empty whitespace-free token followed by a blank reads exactly as `float` of that token, whatever follows |
| DataCollector.PyFloatOfFivePointTwo | ml-service/utils/data_collector.py:31-33 | `float("5.2")` is 5.2 |
| DataCollector.DistanceAfterSeparator | ml-service/utils/data_collector.py:33 | `split()` also breaks at the information separator U+001C, so `"5\x1ckm"` reads as 5 |
| DataCollector.DistanceOfDecimal | ml-service/utils/data_collector.py:31-33 | the source's own example: `"5.2 km"` reads as 5.2 |
| DataCollector.DistanceOfMissing | ml-service/utils/data_collector.py:32 | a record without a distance reads as the default "0 km", that is 0 |
| DataCollector.DistanceOfBlankFails | ml-service/utils/data_collector.py:33 | a non-empty all-blank distance has no first token, so reading it fails |
| DataCollector.ParseDuration | ml-service/utils/data_collector.py:36-47 | the parse fails exactly when the string has no token, or mentions "hour" without a token that is exactly "hour" |
| DataCollector.DurationOfParts | ml-service/utils/data_collector.py:40-47 | from the tokens, the parse fails exactly when there are none, or "hour" is mentioned but is not a token |
| DataCollector.ParseDurationMins | ml-service/utils/data_collector.py:36-47 | the step-by-step parse equals `ParseDuration` |
| DataCollector.DurationOfMins | ml-service/utils/data_collector.py:46-47 | "<m> mins" reads as m minutes, e.g. "45 mins" reads as 45 |
| DataCollector.DurationOfHourMins | ml-service/utils/data_collector.py:41-45 | "<h> hour <m> mins" reads as h·60 + m, e.g. "1 hour 20 mins" reads as 80 |
| DataCollector.HourMinsParts | ml-service/utils/data_collector.py:42-45 | the tokens h, hour, m, mins give h·60 + m |
| DataCollector.DurationOfHour | ml-service/utils/data_collector.py:43-45 | "<h> hour" with nothing after reads as h·60 |
| DataCollector.DurationOfHoursFails | ml-service/utils/data_collector.py:41-43 | "<h> hours <m> mins" mentions "hour" but has no "hour" token, so the parse fails |
| DataCollector.MentionWithHourToken | ml-service/utils/data_collector.py:41-45 | words that mention "hour" take the hours-and-minutes branch |
| DataCollector.MentionWithoutToken | ml-service/utils/data_collector.py:41-43 | words that mention "hour", none of them exactly "hour", fail |
| DataCollector.HourAfterFirstWord | ml-service/utils/data_collector.py:41 | a second word starting with "hour" makes the string mention "hour" |
| DataCollector.DurationOfNonDigitMins | ml-service/utils/data_collector.py:46-47 | without "hour", a first token that is not all digits reads as 0 minutes |
| DataCollector.DurationOfDecimalMins | ml-service/utils/data_collector.py:47 | "4.5 mins" reads as 0 |
| DataCollector.DurationOfBlankFails | ml-service/utils/data_collector.py:37-47 | a blank duration has no first token, so the parse fails |
| DataCollector.AvgSpeed | ml-service/utils/data_collector.py:68 | with a positive duration, speed times hours is the distance; 0 km in 0 minutes gives 0, and any other distance in 0 minutes gives an infinity of the distance's sign |
| DataCollector.ParseRide | ml-service/utils/data_collector.py:30-56 | a record fails exactly when its distance or its duration (default "0 mins") fails; otherwise the ride carries both parsed values and the record's timestamp, or the current time when it has none |
| DataCollector.WithFeatures | ml-service/utils/data_collector.py:60-68 | a row keeps the ride, takes its hour and weekday, flags the weekend and rush hour exactly when they hold, and carries the ride's average speed |
| DataCollector.ReadEach | ml-service/utils/data_collector.py:29-56 | the loop succeeds exactly when every record reads, and then gives one value per record, in order |
| DataCollector.FetchHistoricalData | ml-service/utils/data_collector.py:19-74 | when every record reads, one row per record in order, each with its features; when any record fails, no rows at all |
| DataCollector.BaseRatesAreLocalRadipoo | ml-service/utils/data_collector.py:83-88 | the generator's rate table lists bike, auto and cab in order, with the radipoo provider's local rates |
| DataCollector.SampleInstant | ml-service/utils/data_collector.py:97-103 | the sample's hour of the week is the start's hour of the week, plus the drawn days and hours, modulo a week |
| DataCollector.HourOfWeek | ml-service/utils/data_collector.py:100-103 | carrying whole hours into days preserves the hour of the week |
| DataCollector.UniformDistance | ml-service/utils/data_collector.py:95 | the drawn distance lies in [1, 30) |
| DataCollector.SyntheticDuration | ml-service/utils/data_collector.py:107-115 | the duration is at least 5 minutes, and it is either 5 or three minutes per km, ×1.5 at rush hour and ×0.9 on weekends, plus the noise |
| DataCollector.RushHourNotShorter | ml-service/utils/data_collector.py:108-111 | with the same noise, rush hour never gives a shorter trip |
| DataCollector.Surge | ml-service/utils/data_collector.py:119-124 | the surge is 1 off-peak, 0.9 at a weekend off-peak, in [1.2, 2.0) at a weekday rush hour, and in [1.08, 1.8) at a weekend rush hour |
| DataCollector.SurgeCompounds | ml-service/utils/data_collector.py:120-124 | at a weekend rush hour the generator compounds the discount with the surge, whereas the fare endpoint applies only the surge |
| DataCollector.SyntheticFare | ml-service/utils/data_collector.py:126-129 | a synthetic fare is the larger of the base fare and the surged distance price plus noise: at least both, and equal to one of them |
| DataCollector.SampleFeatures | ml-service/utils/data_collector.py:93-124 | a sample's distance is in [1, 30), its flags hold exactly when its time is a weekend or a rush hour, its duration is at least 5 minutes, its speed times its hours is its distance, and its surge follows the surge rule |
| DataCollector.SampleRow | ml-service/utils/data_collector.py:126-144 | row k of a sample has transport type k, the drawn provider, the sample's shared features, and as its fare `SyntheticFare` of type k's rates, the sample's distance and surge, and the row's noise, so at least that type's base fare |
| DataCollector.ComputeFeatures | ml-service/utils/data_collector.py:94-124 | the step-by-step computation of a sample's features equals `SampleFeatures` |
| DataCollector.PriceRow | ml-service/utils/data_collector.py:127-129 | the step-by-step fare computation equals `SyntheticFare` |
| DataCollector.GenerateSample | ml-service/utils/data_collector.py:93-144 | one pass of the sample loop appends exactly three rows, one per transport type, in order |
| DataCollector.GenerateSyntheticData | ml-service/utils/data_collector.py:76-147 | n samples give 3·n rows, row k being row k mod 3 of sample k / 3 |

## Left out

- `toFixed(1)` and Python's `round`: binary floating point and decimal formatting are not modelled. Fares are the exact reals before formatting, so the bounds hold for the value that gets formatted.
- `parseFloat` also accepts a signed `Infinity`. Python's `float` also accepts `inf`, `infinity` and `nan` in any case, and underscores between digits. The model reads finite decimal literals only. On `"1_000"` the model's `parseFloat` reads 1, as JavaScript does, and its `float` fails, where Python gives 1000.
- Case mapping is ASCII only. `toLowerCase` also maps other upper-case letters, but none of them lower-cases to a string of the label enum except the Kelvin sign, which becomes `k`, and no label contains `k`. So the enum check accepts the same labels. A custom label or address that is case-mapped elsewhere is not.
- Digits are ASCII only. Python's `str.isdigit`, `int` and `float` also accept other Unicode decimal digits, and the model does not. `str.isdigit` also accepts digits that are not decimal, such as the superscript `²`. On them `int` raises (ml-service/utils/data_collector.py:42, 44, 47), so the whole history fetch returns the empty frame. The model treats such a token as a non-digit and counts it as 0 minutes.
- Whitespace is exact for both languages. JavaScript `trim` and `parseFloat` skip the Unicode space separators, tab to carriage return, the line and paragraph separators and the byte-order mark. Python `split` and `isspace` use the same set without the byte-order mark, plus U+001C to U+001F and U+0085. Python's `float` strips the `isspace` set without U+001C to U+001F: it turns non-ASCII whitespace into a space, keeps the other characters below U+0080, and then strips only the space and tab to carriage return. The model gives `float` that set (`Dialect.PythonFloat`).
- An Express query parameter or body field that is an array or object, rather than a string, is not modelled.
- FavoritesRoutes.AddRequest: `latitude` and `longitude` are optional numbers, so a JSON string in those fields is not modelled. A string such as `"abc"` fails `save` with a cast error, and the route answers 400 with a "Cast to Number failed" message. A string such as `"0"` is truthy, so on update it replaces the stored coordinate (server/routes/favorites.js:60-61), where the number 0 does not. Neither is a history record whose field holds a non-string value, such as `None.split()`.
- Database I/O: the connection, `save`, `findOne`, `deleteOne` and the 90-day `createdAt` cutoff of the history query are not modelled. The collection is an in-memory map, and the cursor is the sequence of records it would yield.
- The 409 duplicate-key answer (server/routes/favorites.js:104-108) is not modelled. It needs two concurrent requests. In the model, the unique (user, label) pair is an invariant that no single request can break.
- The 500 answers (server/routes/favorites.js:110-112, 140-142, 163-165) are not modelled. They come from three causes:
  - an `:id` that is not a valid ObjectId, which makes `findOne` throw a CastError (server/routes/favorites.js:122-125);
  - a `label`, `address` or `customLabel` that is truthy but not a string, which throws at `toLowerCase` or `trim` (server/routes/favorites.js:38, 59, 64, 79-80);
  - a database failure.
  Ids are naturals in the model, and the label, address and custom label are strings, so neither of the first two can arise.
- `GET /all` of the favorites routes is left out: it is a plain query sorted by creation time, and creation timestamps are not modelled.
- Mongoose timestamps and the `userId` required validator are left out. The route always supplies `userId` from the signed-in user.
- FavoritesRoutes.FavoriteStore.UpdateExisting: the 400 answer joins Mongoose's messages in the order its validation error recorded them (server/routes/favorites.js:96-99). The model takes that order to be the order in which `ValidationErrors` lists the paths, which is the schema's order. On the update branch, Mongoose may instead list the paths the route modified in the order it modified them, `address` (server/routes/favorites.js:59) before `customLabel` (:64). The model does not promise which of the two orders the joined message has when both fail. On the create branch the constructor object lists `customLabel` before `address` (server/routes/favorites.js:76-84), as the schema does, so both readings give the same order there.
- The `Label is required` path cannot be reached after the route's own checks, but it is modelled anyway.
- The `timestamp` column of the synthetic rows is not kept: rows carry the hour and weekday derived from it.
- EstimateFares: the handler reads the clock afresh for every quote, twice (server/index.js:153, 155). A request that crosses an hour or midnight can therefore mix rush-hour and off-peak quotes, and quotes can take different numbers of draws. The model reads one `Clock` for the whole request and gives every quote the same number of draws, so it does not capture such a request.
- DefaultEmoji: `emojiMap[label]` on a key that names an `Object.prototype` member, such as `constructor` or `__proto__`, gives that member, not the pushpin. The route only calls it with an enum label, and the model gives the pushpin for every other label.
- The wall clock (`new Date()`, `datetime.now()`), `Math.random` and numpy's seeded stream (seed 42) are parameters. The model does not fix which numbers they produce, or the order in which numpy draws them.
- `np.random.uniform(1.2, 2.0)` is taken as half-open, [1.2, 2.0), like every other uniform draw. `np.random.normal` is any real.
- A timestamp is modelled by its hour and its Monday-based weekday. Calendar arithmetic beyond whole days and hours, and pandas' `.dt` accessors, are not modelled.
- The pandas DataFrame is a sequence of rows. The `len(df) > 0` guard adds no columns to an empty frame, which is the empty sequence here. `save_data`, CSV writing and the `__main__` script are left out.
- The other routes and services of the repository are not part of this model:
  - the alternative rate table `server/constants/fareRate.js`, which nothing imports;
  - the distance, geocoding and directions proxies;
  - authentication;
  - ride history;
  - the ML prediction routes, `app.py` and `train_model.py`.
- DataCollector.ParseDistance: its own contract states only the empty-string case. The default, the first-token reading for every token, and the blank failure are stated by DistanceOfMissing, DistanceReadsFirstToken and DistanceOfBlankFails. A distance that is a single token with no blank after it, or that starts with whitespace, is read by the same `Split` and `PyFloat` but has no lemma of its own.
- DataCollector.DurationOfMins and DataCollector.DurationOfHourMins are stated for strings built as digit tokens joined by single spaces, not for every spacing that `split()` would accept.
