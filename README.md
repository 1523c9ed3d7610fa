# Technical-analysis indicators and AEMET client helpers, in Dafny

This project models two parts of a small Python repository.

- `fibo_chart.py` is a stock-chart generator. Its indicator engine adds
  derived columns to a table of daily bars:
  - Bollinger Bands (`BB_Middle`, `BB_Std`, `BB_Upper`, `BB_Lower`);
  - the 90- and 200-bar simple moving averages (`SMA90`, `SMA200`);
  - MACD with its signal line and histogram;
  - the 14-bar RSI.

  It also computes seven Fibonacci retracement levels between the highest
  High and the lowest Low, coloured by a fixed map.
- `aemet_client.py` is a client for the Spanish weather service's OpenData
  API. Only its pure helpers are modelled:
  - the sky-description-to-emoji classifier;
  - the autonomous-community (CCAA) code check in front of the four CCAA
    forecast endpoints;
  - the code-to-name lookup and the code-table listing;
  - the name filter of the municipality search.

Prices are exact `real`s. A derived column is a `seq<Option<real>>` of the
same length as Close, and `None` stands for pandas' NaN. The bar table is
the class `Indicators.Frame`. Its price columns are immutable. Its derived
columns form a map from name to column, and the indicator methods reassign
that map, as `df['RSI'] = ...` does.

Files:
- `wrappers.dfy`: `Option` and `Result`.
- `series.dfy`: sum, mean, extremes, sample variance and their lemmas.
- `indicators.dfy`: the indicator engine and the `Frame` class.
- `text.dfy`: ASCII lower-casing and Python's substring test.
- `aemet.dfy`: the client helpers.

The code differs from the textbook definitions on three points; the
model follows the code.
- **RSI start.** `delta.where(delta > 0, 0)` replaces the NaN first
  difference by 0. The gain and loss means therefore exist from index
  `period - 1`, one bar earlier than a textbook RSI.
- **RSI on a flat window.** A window with no change gives 0/0, which is
  NaN, so RSI is undefined there, not 100. A window with gains and no
  losses gives 100.
- **EMA seed.** The EMA uses α = 2/(span+1) and is seeded with the first
  observation (`adjust=False`). It is defined at every index and has no
  warm-up.

## Model

| member | source | states |
|---|---|---|
| Series.Sum | fibo_chart.py:38 | the empty sum is 0 and a one-element sum is that element |
| Series.Mean | fibo_chart.py:38 | the mean times the number of observations is the total |
| Series.SampleVariance | fibo_chart.py:39 | the sample variance (divisor n-1) is never negative |
| Series.MaxOf | fibo_chart.py:47 | the maximum is an element of the series and bounds every element from above |
| Series.MinOf | fibo_chart.py:48 | the minimum is an element of the series and bounds every element from below |
| Series.SumBounds | fibo_chart.py:38 | elements within [lo, hi] give a sum within [n·lo, n·hi] |
| Series.SumZeroIffAllZero | fibo_chart.py:83-84 | a sum of non-negative terms is 0 exactly when every term is 0 |
| Series.MeanBounds | fibo_chart.py:38 | the mean of values within [lo, hi] lies within [lo, hi] |
| Series.MeanConstant | fibo_chart.py:38 | the mean of a constant series is that constant |
| Series.MeanZeroIffAllZero | fibo_chart.py:83-84 | a mean of non-negative values is ≥ 0, and it is 0 exactly when all values are 0 |
| Series.SumSquaredDeviationsNonNegative | fibo_chart.py:39 | the sum of squared deviations is never negative |
| Series.SampleVarianceProperties | fibo_chart.py:39 | the sample variance (divisor n-1) is ≥ 0 and is 0 on a constant window |
| Series.NonIncreasingFromSteps | fibo_chart.py:51-59 | a sequence that never rises from one position to the next never rises between any two positions |
| Indicators.Window | fibo_chart.py:38 | the window has `w` elements and ends at index `i`; element k is xs[i+1-w+k] |
| Indicators.RollingMean | fibo_chart.py:38 | `rolling(window).mean()` has one entry per bar |
| Indicators.RollingStd | fibo_chart.py:39 | `rolling(window).std()` has one entry per bar |
| Indicators.RollingMeanAt | fibo_chart.py:38 | defined exactly from index window-1; there, value · window = sum of the last `window` closes |
| Indicators.RollingMeanShortSeries | fibo_chart.py:38 | with fewer bars than the window, every position is NaN and nothing fails |
| Indicators.RollingMeanWithin | fibo_chart.py:38 | a defined rolling mean lies within any bounds of its window |
| Indicators.RollingMeanNonNegative | fibo_chart.py:83-84 | the rolling means of a non-negative column are non-negative |
| Indicators.Plus | fibo_chart.py:40 | keeps the length; a position is defined exactly when both operands are, and then holds their sum (NaN propagates) |
| Indicators.Minus | fibo_chart.py:41 | keeps the length; a position is defined exactly when both operands are, and then holds their difference (NaN propagates) |
| Indicators.Scale | fibo_chart.py:40-41 | `std * num_std` keeps the length and the NaN positions, and scales every defined value |
| Indicators.BollingerUpper | fibo_chart.py:40 | BB_Upper has one entry per bar |
| Indicators.BollingerLower | fibo_chart.py:41 | BB_Lower has one entry per bar |
| Indicators.BollingerBandsAt | fibo_chart.py:38-41 | std and both bands are defined exactly when 2 ≤ window ≤ i+1; std ≥ 0; Upper − Middle = Middle − Lower = std·num_std; Lower ≤ Middle ≤ Upper when num_std ≥ 0 |
| Indicators.BollingerConstantWindow | fibo_chart.py:38-41 | on a constant window all three bands equal the constant and std is 0 |
| Indicators.Sma | fibo_chart.py:63-65 | the SMA column has one entry per bar |
| Indicators.SmaAt | fibo_chart.py:63-65 | defined exactly from index period-1, with value · period = sum of the last `period` closes; a series shorter than the period is all NaN |
| Indicators.Alpha | fibo_chart.py:71-72 | α = 2/(span+1) lies in (0, 1] for every span ≥ 1 |
| Indicators.EmaStep | fibo_chart.py:71-72 | one step moves the value α of the way from the previous value to the observation; an observation equal to the previous value, or α = 1, gives the observation |
| Indicators.EmaStepIncremental | fibo_chart.py:71-72 | one step (1-α)·prev + α·x equals prev + α·(x - prev) |
| Indicators.EmaStepWithin | fibo_chart.py:71-72 | one step stays within any bounds of the previous value and the new observation |
| Indicators.Ema | fibo_chart.py:71-74 | the EMA has one value per observation and no warm-up |
| Indicators.EmaPrefix | fibo_chart.py:71-72 | the EMA of a prefix is the prefix of the EMA: later bars never change earlier values |
| Indicators.EmaPrefixAt | fibo_chart.py:71-72 | the EMA of the prefix ending at i agrees with the EMA of the whole series at i |
| Indicators.EmaRecurrence | fibo_chart.py:71-74 | ema[0] = x[0]; ema[i] = (1-α)·ema[i-1] + α·x[i] |
| Indicators.EmaWithin | fibo_chart.py:71-74 | every EMA value lies within any bounds of the inputs |
| Indicators.EmaBetweenPrefixExtremes | fibo_chart.py:71-72 | ema[i] lies between the minimum and the maximum of x[0..i] |
| Indicators.EmaConstant | fibo_chart.py:71-74 | the EMA of a constant series is that series |
| Indicators.ExponentialMovingAverage | fibo_chart.py:71-74 | a loop carrying the previous value computes exactly `Ema`: ema[0] = x[0], then the recurrence at every later index |
| Indicators.Difference | fibo_chart.py:73 | `ema_fast - ema_slow` keeps the length and subtracts position by position |
| Indicators.MacdLine | fibo_chart.py:73 | the MACD line has one value per bar |
| Indicators.SignalLine | fibo_chart.py:74 | the signal line has one value per bar |
| Indicators.Histogram | fibo_chart.py:75 | the histogram has one entry per bar |
| Indicators.HistogramIsMacdMinusSignal | fibo_chart.py:73-75 | at every index the histogram is defined and equals MACD − Signal |
| Indicators.MacdConstant | fibo_chart.py:73-75 | for a constant Close, MACD, Signal and Histogram are all 0 |
| Indicators.Delta | fibo_chart.py:82 | `diff()` has one entry per bar |
| Indicators.Gains | fibo_chart.py:83 | `delta.where(delta > 0, 0)` has one entry per bar |
| Indicators.Losses | fibo_chart.py:84 | `-delta.where(delta < 0, 0)` has one entry per bar |
| Indicators.GainsLossesNonNegative | fibo_chart.py:82-84 | gains and losses are ≥ 0; at most one of them is non-zero at each bar; both are 0 at bar 0; later, gain − loss is the change from the previous bar, so gain = max(change, 0) and loss = max(−change, 0) |
| Indicators.RsiOf | fibo_chart.py:85-86 | `100 - 100/(1 + gain/loss)` read as IEEE division: undefined exactly when gain and loss are both 0 (0/0); every defined value lies in [0, 100] |
| Indicators.RsiOfNoGain | fibo_chart.py:85-86 | zero gain over a positive loss gives RSI 0 |
| Indicators.Rsi | fibo_chart.py:79-87 | the RSI column has one entry per bar |
| Indicators.RsiOfClosedForm | fibo_chart.py:85-86 | `100 - 100/(1 + gain/loss)` is undefined exactly when gain + loss = 0, otherwise it equals 100·gain/(gain+loss) and lies in [0, 100] |
| Indicators.WindowsNonNegative | fibo_chart.py:83-84 | every gain and loss in an RSI window is ≥ 0 |
| Indicators.RsiAt | fibo_chart.py:83-86 | from index period-1 on, RSI is the closed form applied to the window means of gains and losses |
| Indicators.RsiBounded | fibo_chart.py:82-86 | RSI is NaN before index period-1, and every defined value lies in [0, 100] |
| Indicators.MovingWindowNotFlat | fibo_chart.py:82-84 | a bar where Close moves has a non-zero gain or loss in the window |
| Indicators.GainOrLossAt | fibo_chart.py:82-84 | a bar where Close changes has a non-zero gain or a non-zero loss |
| Indicators.StillWindowFlat | fibo_chart.py:82-84 | where Close does not move, every gain and loss of the window is 0 |
| Indicators.FlatWindowMeans | fibo_chart.py:83-84 | both window means are 0 exactly when Close does not move in the window |
| Indicators.MovingWindowMeans | fibo_chart.py:83-84 | a move inside the window makes one of the two means non-zero |
| Indicators.StillWindowMeans | fibo_chart.py:83-84 | without a move inside the window both means are 0 |
| Indicators.RsiDefinedIff | fibo_chart.py:82-86 | RSI[i] is defined exactly when i ≥ period-1 and Close changes somewhere in the window |
| Indicators.RsiRisingWindow | fibo_chart.py:83-86 | a window with only rises gives RSI 100 (gain over a zero loss) |
| Indicators.RsiFallingWindow | fibo_chart.py:83-86 | a window with only falls gives RSI 0 |
| Indicators.RsiStrictlyIncreasing | fibo_chart.py:79-87 | strictly increasing Close gives RSI 100 from index max(period-1, 1) on |
| Indicators.RsiStrictlyDecreasing | fibo_chart.py:79-87 | strictly decreasing Close gives RSI 0 from index max(period-1, 1) on |
| Indicators.RsiConstant | fibo_chart.py:79-87 | constant Close gives an RSI that is NaN everywhere (0/0) |
| Indicators.FibonacciLevels | fibo_chart.py:45-60 | the keys are exactly the seven level names; Fib_0 is the highest High and Fib_100 the lowest Low |
| Indicators.FibonacciColors | fibo_chart.py:90-100 | the keys are exactly the seven level names; the seven colours are pairwise different, each seven characters long and starting with '#' |
| Indicators.FibonacciExtremes | fibo_chart.py:45-59 | Fib_0 is the highest High, Fib_100 the lowest Low, and Fib_500 their midpoint |
| Indicators.FibonacciValues | fibo_chart.py:51-59 | there are seven level values, one per level name |
| Indicators.FibonacciLevelsByPosition | fibo_chart.py:51-59 | each level name is a key, and its level is the value at that name's position |
| Indicators.FibonacciOrdered | fibo_chart.py:45-59 | when High ≥ Low on every bar, the levels do not increase in the order 0, 236, 382, 500, 618, 786, 100 |
| Indicators.FibonacciLevelNames | fibo_chart.py:51-59 | the level map's keys are exactly the seven level names |
| Indicators.FibonacciColorNames | fibo_chart.py:90-100 | the colour map's keys are exactly the seven level names |
| Indicators.FibonacciColorsCoverLevels | fibo_chart.py:92-100 | levels and colours have the same keys, so the colour lookup at fibo_chart.py:166 never fails |
| Indicators.Frame.constructor | fibo_chart.py:37 | a table of Close/High/Low of equal length with no derived columns |
| Indicators.Frame.SetColumn | fibo_chart.py:121-122 | `df[name] = column` adds or replaces one column and keeps every column one entry per bar |
| Indicators.Frame.CalculateBollingerBands | fibo_chart.py:35-42 | adds BB_Middle, BB_Std, BB_Upper and BB_Lower, leaves the other columns alone, and keeps the table well formed |
| Indicators.Frame.CalculateMacd | fibo_chart.py:68-76 | computes three EMAs by the loop and adds MACD, MACD_Signal and MACD_Histogram exactly as the reference definitions give |
| Indicators.Frame.CalculateRsi | fibo_chart.py:79-87 | adds RSI and leaves the other columns alone |
| Indicators.ComputeIndicators | fibo_chart.py:115-125 | an empty table returns None and is left unchanged; otherwise every indicator is added with the defaults (20, 2, 90, 200, 12/26/9, 14) and the Fibonacci levels are returned with the colour map's keys |
| Text.LowerChar | aemet_client.py:267 | an ASCII capital becomes its own lower-case letter (the same distance from 'a' as from 'A'); every other character is unchanged |
| Text.Lower | aemet_client.py:267 | same length, character-wise lower-casing, and no ASCII capital remains |
| Text.LowerIdempotent | aemet_client.py:267 | lower-casing twice is lower-casing once |
| Text.Contains | aemet_client.py:268 | a pattern that is a prefix of the text is contained in it; a contained pattern is no longer than the text |
| Text.ContainsIffOccurs | aemet_client.py:268 | Python's `pat in text` holds exactly when `pat` occurs at some position of `text` |
| Text.ContainsEmpty | aemet_client.py:333 | the empty string occurs in every string |
| Text.ContainsSelf | aemet_client.py:268 | every string contains itself |
| Text.ContainsTransitive | aemet_client.py:268-275 | whatever occurs in a substring occurs in the whole |
| Text.ContainsPieces | aemet_client.py:268-275 | both pieces of a concatenation occur in it |
| Aemet.ClassifySky | aemet_client.py:268-291 | the result is one of the fixed emoji strings; "despejado" always gives the sun |
| Aemet.WeatherEmoji | aemet_client.py:264-291 | total; the result is always one of the fixed emoji strings; no description gives 🌤️ |
| Aemet.WeatherEmojiEmpty | aemet_client.py:267-291 | None and "" both give 🌤️ |
| Aemet.WeatherEmojiCaseInsensitive | aemet_client.py:267 | descriptions with the same lower-cased text get the same emoji, and lower-casing the input first changes nothing |
| Aemet.WeatherEmojiClear | aemet_client.py:268-269 | "despejado" in any letter case gives ☀️, whatever else the text contains |
| Aemet.WeatherEmojiFewClouds | aemet_client.py:270-271 | without "despejado", "poco nuboso" gives ⛅ |
| Aemet.WeatherEmojiCloudy | aemet_client.py:272-273 | "nuboso" without "muy" (and without "despejado") gives ⛅ |
| Aemet.WeatherEmojiVeryCloudy | aemet_client.py:272-275 | "muy nuboso" without the two earlier keywords gives ☁️, because the "nuboso" branch excludes "muy" |
| Aemet.CcaaCodeOrderDistinct | aemet_client.py:18-36 | no code of `CcaaCodeOrder` (the constant holding `list(CCAA_CODES.keys())`) is listed twice |
| Aemet.CcaaCodeOrderIsKeys | aemet_client.py:18-36 | `list(CCAA_CODES.keys())` lists every code of the table and nothing else |
| Aemet.DistinctCardinality | aemet_client.py:18-36 | a list without repetitions has as many distinct elements as positions |
| Aemet.CcaaCount | aemet_client.py:18-36 | the constant `CcaaCodes` (`CCAA_CODES`) has 17 communities |
| Aemet.CcaaNamed | aemet_client.py:18-36 | every listed code is in the table, and its name is not "Desconocido" |
| Aemet.ListRepr | aemet_client.py:162 | Python's repr of a list of strings starts with `[`, ends with `]`, and is `[]` exactly for the empty list |
| Aemet.QuotedItems | aemet_client.py:162 | the items are empty exactly for the empty list; otherwise they start and end with a single quote |
| Aemet.QuotedItemsMention | aemet_client.py:162 | every listed code appears in single quotes in the items of the list's repr |
| Aemet.ListReprMentions | aemet_client.py:162 | every element appears, quoted, in Python's repr of the list |
| Aemet.InvalidCcaaMessageListsCodes | aemet_client.py:161-162 | the constant `InvalidCcaaMessage`, the ValueError text, names every valid code in single quotes |
| Aemet.PeriodSegment | aemet_client.py:154-181 | each forecast horizon has a non-empty path segment |
| Aemet.PredCcaaEndpoint | aemet_client.py:154-181 | the request goes ahead exactly for the 17 known codes, with path `/api/prediccion/ccaa/<horizon>/<code>`; any other code gives the ValueError message and no request |
| Aemet.CcaaCodeLength | aemet_client.py:18-36 | every valid code has three letters |
| Aemet.PredCcaaEndpointInjective | aemet_client.py:154-181 | two accepted requests with the same path have the same horizon and code |
| Aemet.CcaaName | aemet_client.py:335-337 | a known code gives its name; any other code gives "Desconocido" |
| Aemet.CcaaNameKnownIff | aemet_client.py:335-337 | the result is "Desconocido" exactly for unknown codes |
| Aemet.ListCcaa | aemet_client.py:339-342 | the listing equals the code table |
| Aemet.ListCcaaAgreesWithName | aemet_client.py:335-342 | the listing and the name lookup agree on every code |
| Aemet.NombreOf | aemet_client.py:333 | `m.get("nombre", "")`: the "nombre" field when present, "" otherwise |
| Aemet.NameMatches | aemet_client.py:333 | the empty query matches every record; a match needs a query no longer than the name |
| Aemet.FindMunicipio | aemet_client.py:324-333 | the result keeps exactly the records whose lower-cased "nombre" (missing counts as "") contains the lower-cased query, and is no longer than the input |
| Aemet.FindMunicipioInOrder | aemet_client.py:333 | the result is an in-order subsequence of the input |
| Aemet.FindMunicipioAppend | aemet_client.py:333 | filtering a concatenation is the concatenation of the filtered parts |
| Aemet.FindMunicipioEmptyQuery | aemet_client.py:332-333 | the empty query keeps every record |
| Aemet.FindMunicipioCaseInsensitive | aemet_client.py:332-333 | the letter case of the query does not matter |

## Left out

- Downloading bars from Yahoo Finance, all Matplotlib plotting and the PNG
  buffer of `create_chart` (fibo_chart.py:106-110,127-247) are network
  access and rendering. So are `save_chart` and the command-line entry
  point (fibo_chart.py:250-289).
- The error print at fibo_chart.py:116 is left out; only the `None`
  result is modelled.
- `normalize_columns` (fibo_chart.py:28-32) only flattens pandas column
  labels. The model's table already has one level of names.
- The percentage change in the chart title (fibo_chart.py:177-180) is
  display-only floating point.
- IEEE-754 rounding is not modelled; arithmetic is exact over `real`. The
  rolling sums pandas keeps can leave rounding residue that exact
  arithmetic does not have.
- Indicators.RollingStd: Dafny has no square root on reals. The root is a
  parameter. The ghost predicate `Series.IsSqrt` constrains it to be
  non-negative, to square back to its argument, and to map 0 to 0.
- Every windowed function (Indicators.RollingMean, Indicators.RollingStd,
  Indicators.Sma, Indicators.Rsi, Indicators.BollingerUpper,
  Indicators.BollingerLower, Indicators.MacdLine, Indicators.SignalLine,
  Indicators.Histogram), Indicators.Alpha, Indicators.ExponentialMovingAverage
  and the three `Calculate*` methods require window and span ≥ 1;
  Indicators.Ema takes α itself and requires nothing.
  pandas raises for a span below 1, and no caller
  passes a window of 0.
- Indicators.FibonacciLevels requires non-empty High and Low. Its only
  caller returns early on an empty table (fibo_chart.py:115-117), so pandas'
  NaN for the maximum of an empty column is never reached.
- Indicators.Frame: the derived columns are a map of sequences, not
  pandas' shared column buffers. Writing a column that already exists
  replaces it, and no aliasing between columns is modelled.
- The AEMET HTTP layer: the requests session, `_make_request` with its
  two-step fetch, the network call of every `get_*` endpoint, and loading
  credentials from file (aemet_client.py:76-119). The CCAA methods are
  modelled up to the endpoint path they would request.
- `get_pred_horaria_formatted` (aemet_client.py:197-262) formats nested
  network JSON into a chat message.
- Text.Lower: only ASCII letters are lower-cased; Python's full Unicode
  `str.lower()` is not modelled.
- Aemet.FindMunicipio: a record is a map from field name to text. A
  non-string "nombre" in the network JSON is not modelled. The municipality
  list is an input; the `get_all_municipios` request is left out.
- Aemet.ListCcaa: Dafny maps are values, so the copy that keeps
  `CCAA_CODES` safe from the caller holds by construction.
