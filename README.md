# huh: Ḥuqúqu'lláh helper — verified model of the calculation core

`huh` works out the Ḥuqúqu'lláh levy. It takes a gold price and a wealth figure and computes three amounts:

- the **basic** sum: the value of 19 mithqals of gold, that is, the price times the number of weight units in 19 mithqals;
- the **remainder**: the part of the wealth below the last whole multiple of the basic sum;
- the **payable** levy: 19 per cent of the wealth less the remainder, and nothing while the wealth is below one basic sum.

The price is either supplied by the user or looked up at two web services. goldprice.org gives a spot price for gold and silver. gold.org gives a gold price chart for a time window. For gold, the program takes the observation nearest a configured "fiscal moment".

This project models, in Dafny, four parts of that program:

- `huquq.dfy`, module `Huquq`, from `huh/huquq.py`. It holds the levy calculator, a class `Huququllah` whose methods fill `basic`, `remainder` and `payable` in order. It also holds the caller's override of `basic`, which recomputes the later two fields. The pure functions `BasicSum`, `RemainderOf` and `PayableOf` specify those methods. Lemmas prove the bounds and the uniqueness of the remainder and the facts about the payable amount.
- `spacetime.dfy`, module `SpaceTime`, from `huh/spacetime.py`. It holds the query window around a target moment (`TimeRange`). It also holds the nearest-observation search (`NearestIndex`, `NearestTime`), which models Python's `min` with a key, where the first element at the least distance wins.
- `metal.dfy`, module `Metal`, from `huh/metal.py`. It holds the `MetalPrice` record, the mapping from each service's decoded response to records, and the selection rule of `metal_price`. A silver request short-circuits to the spot silver record. Any other request gets the nearest pooled record, and that record is never the silver one.
- `settings.dfy`, module `Settings`, from `huh/settings.py`. It holds the configuration check: no empty values outside LOCATION, an address or coordinates, a FISCAL time and a FISCAL date. It also holds a hand-written recogniser for the `--price currency,price,weight` pattern, proved equal to the regular expression's language.

`wrappers.dfy` defines the `Option`, `Result` and `Outcome` types. Exceptions and `sys.exit` calls are modelled as `Failure`/`Fail` values of these types.

Modelling choices:

- Amounts are exact `real`s. Python's float `%` and `//` are floor-based, so `RemainderOf` is `wealth - basic * ⌊wealth / basic⌋` and `WholeUnits` is `⌊wealth / basic⌋`.
- Moments are epoch milliseconds (`int`). The clock reading `datetime.now()` is passed in as `now`.
- The two web services are parameters of `MetalPriceAt`. `goldPrice` maps a currency to the decoded goldprice.org response, and `goldOrg` maps a chart request to the decoded gold.org response.
- A parsed configuration is a sequence of sections in file order. Each section is a sequence of key/value entries in file order. A missing section or key is configparser's `KeyError` (`NoSection`, `NoOption`), raised at the point where the source looks the key up. Python's `or` short-circuits, so this includes its lazy lookups.

Behaviour worth knowing:

- Weight labels are matched exactly and case-sensitively. Only `troy oz`, `t oz`, `toz`, `oz`, `gram`, `grams`, `g`, `mithqal`, `mithqals` and `mq` are accepted. `oz troy`, `troy ounce` and any change of case are refused.
- gold.org data without the requested currency raises a `KeyError` (`MissingCurrency`).
- A zero price is refused (`MissingPrice`). A negative price is accepted.
- The troy-ounce factor 2.22457446 is the gram factor 69.192 over 31.1034768 grams per troy ounce, rounded to eight places. Converted back it overshoots by 0.000000106482528 g, so an ounce price and the gram price of the same gold give basic sums that differ by less than two parts in a billion.
- A FISCAL time or date can fail in two ways. A value that does not match the pattern raises `IncorrectConfigValue`. A value that matches the pattern but is not a real time or day prints a message and exits (`InvalidValueExit`).

## Model

| member | source | states |
|---|---|---|
| `Huquq.WeightFactor` | huh/huquq.py:105-113 | a factor exists exactly for the ten accepted labels, and it is positive; every troy-ounce label gets 2.22457446, every gram label 69.192 and every mithqal label 19 |
| `Huquq.BasicSum` | huh/huquq.py:101-116 | a missing or zero price fails with `MissingPrice` before the weight is looked at; with a price, an unknown label fails with `UnrecognizedWeight`; otherwise basic = price × factor, which is non-zero and has the sign of the price |
| `Huquq.WholeUnits` | huh/huquq.py:155 | `wealth // basic` as the floor of the quotient; its meaning is stated by `RemainderUnique` (the unique whole-unit count) and `FloorSplitPos`/`FloorSplitNeg` |
| `Huquq.FloorSplitPos` | huh/huquq.py:120 | for a positive basic, basic·⌊wealth/basic⌋ ≤ wealth < basic·⌊wealth/basic⌋ + basic |
| `Huquq.FloorSplitNeg` | huh/huquq.py:120 | for a negative basic, basic·⌊wealth/basic⌋ + basic < wealth ≤ basic·⌊wealth/basic⌋ |
| `Huquq.RemainderOf` | huh/huquq.py:120 | `wealth % basic` with Python's floor rule; its bounds are stated by `RemainderBounds` and its uniqueness by `RemainderUnique` |
| `Huquq.RemainderBounds` | huh/huquq.py:118-123 | for a positive basic, 0 ≤ remainder < basic, and remainder ≤ wealth when the wealth is non-negative; for a negative basic, basic < remainder ≤ 0 (Python's sign-of-divisor rule) |
| `Huquq.RemainderUnique` | huh/huquq.py:120 | any split wealth = basic·n + rest with integer n and 0 ≤ rest < basic is the computed one: n is the whole-unit count and rest the remainder |
| `Huquq.PayableOf` | huh/huquq.py:143-146 | `_payable`'s value on the fields it reads; stated by `PayableFacts` |
| `Huquq.PayableFacts` | huh/huquq.py:140-148 | below one basic sum the levy is 0; otherwise it is 0.19·basic·⌊wealth/basic⌋ with at least one whole unit, and exactly 0.19·basic when wealth equals basic; it is never negative and never above 19 per cent of a non-negative wealth |
| `Huquq.CrossUnitConsistency` | huh/huquq.py:105-115 | for any two accepted labels, prices of value/factor per unit both give the basic sum value, and hence the same remainder and payable for every wealth: the basic sum depends only on the value of 19 mithqals |
| `Huquq.TroyOzRounded` | huh/huquq.py:52-55 | the troy-ounce factor times 31.1034768 g per troy ounce exceeds the gram factor by exactly 0.000000106482528, less than two parts in a billion of it |
| `Huquq.OneUnitExample` | huh/huquq.py:115-146 | price 500 per troy ounce with wealth 2000: basic 1112.28723, remainder 887.71277, payable 211.3345737 |
| `Huquq.BelowOneUnitExample` | huh/huquq.py:143-144 | wealth 1000 under a basic of 1112.28723: the remainder is the whole wealth and the payable is 0 |
| `Huquq.Huququllah.Init` | huh/huquq.py:57-65 | the object stores wealth, price and weight as given (weight defaults to `toz`), and the three derived fields start as None |
| `Huquq.Huququllah.New` | huh/huquq.py:62-70 | construction (weight defaulting to `toz`) fails exactly when `_basicSum` does, with its error; otherwise the new object holds the inputs, basic = `BasicSum`, and remainder and payable agree with it (`Settled`) |
| `Huquq.Huququllah.BasicStep` | huh/huquq.py:101-116 | the result is `BasicSum` of the stored price and weight; `basic` is set only on success and nothing else changes |
| `Huquq.Huququllah.RemainderStep` | huh/huquq.py:118-123 | a missing basic fails, a zero basic fails with `ZeroBasic` (the exit), otherwise `remainder` becomes `RemainderOf(wealth, basic)` |
| `Huquq.Huququllah.PayableStep` | huh/huquq.py:140-148 | a missing basic raises; below the basic the levy is 0 whatever the remainder; otherwise it is `PayableOf` of the stored remainder, which must be set |
| `Huquq.Huququllah.OverrideBasic` | huh/__main__.py:81-84 | a non-zero override replaces `basic` and leaves remainder and payable recomputed from it (`Settled`), with wealth, price and weight unchanged; a zero override changes nothing |
| `Huquq.Huququllah.Report` | huh/huquq.py:154-156 | the whole-unit count is ⌊wealth/basic⌋, the eligible amount wealth − remainder equals that many basic sums and is within one basic of the wealth, and the payable is 19 per cent of it once the wealth reaches the basic |
| `SpaceTime.TimeRange` | huh/spacetime.py:114-122 | the window ends at min(target + 30 min, now), so never after now; it starts before the target and at least 30 min before it; it is non-inverted exactly when target ≤ now + 1 h; a past target lies inside it |
| `SpaceTime.TimeRangeCases` | huh/spacetime.py:114-122 | with target + 30 min ≤ now the window is exactly target ± 30 min (one hour long); otherwise it is (target − 1 h, now) |
| `SpaceTime.NearestIndex` | huh/spacetime.py:139 | the chosen index is in range, no element is nearer the target, and every earlier element is strictly farther (first-seen wins) |
| `SpaceTime.NearestTime` | huh/spacetime.py:125-139 | an empty list fails (`min` raises); otherwise the result is a member of the list at the least distance from the target |
| `SpaceTime.NearestIndexUnique` | huh/spacetime.py:139 | an index that is as near as every element and strictly nearer than every earlier one is the index chosen |
| `SpaceTime.TieGoesToEarlier` | huh/spacetime.py:139 | of two elements at equal distance the later one is never chosen |
| `SpaceTime.ExactHitIsDistanceZero` | huh/spacetime.py:136-139 | if some element is stamped at the target, the search succeeds with a result at distance 0 |
| `Metal.MetalPriceDefaults` | huh/metal.py:26-36 | a record given only a timestamp has price 0.0, currency USD, weight oz, element au and no site |
| `Metal.FetchGoldPriceNow` | huh/metal.py:89-96 | a falsy response or empty `items` fails with `ErrorAcquireMetalData`; otherwise exactly two records, gold then silver, priced from the first item and sharing its currency and the response timestamp |
| `Metal.FetchGoldOrg` | huh/metal.py:108-112 | a falsy response fails with `ErrorAcquireMetalData`, a missing currency with a `KeyError`; otherwise one gold record per chart point in order, stamped and priced from the point and labelled with the requested currency and weight |
| `Metal.ChartRequestFor` | huh/metal.py:55-57 | the gold.org request window ends no later than now and starts before the target |
| `Metal.Pool` | huh/metal.py:55-58 | the pool is goldprice.org's two records followed by gold.org's, when both fetches succeed; otherwise the first failure, goldprice.org's checked first |
| `Metal.MetalPriceAt` | huh/metal.py:41-65 | `metal_price`; its behaviour is stated by `MetalPriceErrors`, `SilverShortCircuit` and `GoldRequestIsNearestGold` |
| `Metal.MetalPriceErrors` | huh/metal.py:55-58 | `metal_price` fails exactly when a fetch fails, goldprice.org's failure first; a silver request also fails when gold.org fails |
| `Metal.SilverShortCircuit` | huh/metal.py:60-61 | a silver or ag request returns goldprice.org's silver record, priced at its `xagPrice` |
| `Metal.GoldRequestIsNearestGold` | huh/metal.py:58-65 | any other request returns a member of the pool (goldprice.org then gold.org) at the least distance from the target, the first such in pool order (every earlier record is strictly farther), and it is a gold record, never the silver one |
| `Settings.FirstBlank` | huh/settings.py:55-60 | there is no result exactly when every value outside LOCATION is non-empty; otherwise it is the first empty value outside LOCATION in reading order |
| `Settings.EmptyValueReportedFirst` | huh/settings.py:55-60 | the first empty value outside LOCATION is what `validateConfig` reports, before any other check |
| `Settings.CheckLocation` | huh/settings.py:63-66 | a failure is either the missing-address error or configparser's KeyError for a LOCATION key; the rule itself is stated by `LocationRule` |
| `Settings.LocationRule` | huh/settings.py:63-66 | with the four keys present, LOCATION passes exactly when city and country, or latitude and longitude, are both non-empty; otherwise it raises `MissingConfigValue` |
| `Settings.CheckTime` | huh/settings.py:69-79 | a named period always passes; a failure is either the pattern error or the range exit, for the `time` key; the accepted language is stated by `TimeAccepted` |
| `Settings.TimeAccepted` | huh/settings.py:69-79 | a FISCAL time passes exactly when it is one of the six named periods or the two-digit text HH:MM of an hour below 24 and a minute below 60; failing the pattern is the raised error, failing the range the exit |
| `Settings.CheckDate` | huh/settings.py:81-90 | a passing date is on the `MM-DD` pattern; a failure is either the pattern error or the calendar exit, for the `date` key; the accepted language is stated by `DateAccepted` |
| `Settings.DateAccepted` | huh/settings.py:81-90 | a FISCAL date passes exactly when it is the two-digit text MM-DD of a day of 1900; failing the pattern is the raised error, failing the calendar the exit |
| `Settings.DateExamples` | huh/settings.py:81-90 | 02-29 exits (1900 is not a leap year), 02-28 passes, 13-01 exits, 2-28 fails the pattern |
| `Settings.ValidateConfig` | huh/settings.py:52-90 | the first failure is reported, in the order empty values, LOCATION, FISCAL time, FISCAL date: an empty value outside LOCATION always fails with `MissingConfigValue`; with every value filled a failing LOCATION check is the result; with LOCATION passing a failing time is the result; with the time passing the result is the date check; a pass means every value outside LOCATION is filled, LOCATION passes, and the FISCAL time and date are present and pass their checks |
| `Settings.ValidateConfigAccepts` | huh/settings.py:52-90 | with its keys present, a configuration is accepted exactly when no value outside LOCATION is empty, LOCATION passes, and the time and date are real |
| `Settings.PriceTextCorrect` | huh/settings.py:109 | the greedy scan of the price part accepts exactly the language of `[0-9]+.?[0-9]{0,2}` |
| `Settings.MatchesOverride` | huh/settings.py:109 | an accepted text has at least six characters, a comma fourth, a digit fifth and no comma last; that it accepts exactly the pattern's language is stated by `MatchesOverrideCorrect` |
| `Settings.MatchesOverrideCorrect` | huh/settings.py:109 | the recogniser, which splits at the last comma, accepts exactly the strings the whole pattern fully matches |
| `Settings.PriceOverride` | huh/settings.py:108-112 | an absent or empty value passes unchanged; any other passes, unchanged, exactly when it fully matches the pattern, and otherwise raises |
| `Settings.OverrideWeightsVersusCalculator` | huh/settings.py:109 | the pattern accepts "troy\toz", which the calculator refuses, and refuses "mithqal", which the calculator accepts |

## Left out

- HTTP requests and JSON decoding in `fetchGoldPriceNow` and `fetchGoldOrg`. The decoded responses are input datatypes. A response without `items`, `tsj` or `chartData`, and chart entries that are not pairs, are not modelled. In Python these are `KeyError`/`TypeError`.
- `round(..., 2)` on fetched prices and all printed rounding (`__str__`, `report`'s printed lines, `floatFmt`). These are display-only float formatting, so prices are used as given and the model keeps the full-precision values that `report` rounds.
- Floating-point arithmetic in general. The model uses exact reals, so it does not capture float rounding in `price * factor`, `%` or `//`.
- `datetimeToEpoch`: datetimes are their epoch-millisecond value here, so the conversion is the identity and has no member. Its truncation of sub-millisecond parts is not modelled. `epochToDatetime` is string formatting and is left out.
- The wall clock (`datetime.now()`). It is the `now` parameter. `timeRange` reads the clock twice, once for the test and once for the end of the window; the model uses one reading for both, so a clock that moves between the two reads is not captured.
- The default `timestamp` of `MetalPrice`, which is the moment the class was defined. `MetalPrice` has no default for it.
- The `currency` argument of `fetchGoldPriceNow`, and the `start` and `end` of `fetchGoldOrg` beyond building the request. They only form the URL, so the response is whatever the service function returns for them.
- The stray `self` parameter of `metal_price`: the model takes the five real arguments.
- Geocoding, time-zone lookup and solar-event times (`addressToLatLong`, `getSolarTime`, `getSunPeriodTerms`). These call foreign libraries.
- Loading the configuration file, configparser's `DEFAULT` section inheritance and its lower-casing of keys. The model starts from the parsed sections. A `DEFAULT` section, if present, is checked like any other section.
- The `print` before each exit, the logger, argparse wiring and the `setattr` in `MetalPriceAction`, the CSV `record`, `HuququLabels`, and `run` in `huh/__main__.py` (apart from the basic override at lines 81-84). These are I/O or display.
- `Huquq.Huququllah.New`: the `weight='toz'` default of `__init__` is kept, but `wealth` is a number, not optional. The default `wealth=None` reaches `None % basic` in `_remainder`, a `TypeError` the model does not have, because every caller passes a wealth.
- Duplicate sections, and duplicate keys within a section, are assumed absent: configparser's strict loader refuses them when it reads the file. On such input `FirstBlank` would scan every copy while `Get` reads the first.
- configparser interpolation on each `cfg[section][key]` read in `validateConfig`. Values are taken literally. A lone `%` (an `InterpolationSyntaxError` in Python) and `%(key)s` substitution before the empty-value test are not modelled, because they belong to the configuration loader, not to the checks.
- `Huquq.Huququllah.RemainderStep`: a missing `basic` is a `TypeError` in Python, while `_payable` raises `ValueError` for the same state. Both are modelled as `MissingBasic`.
- `Huquq.Huququllah.OverrideBasic`: it models the `if args.basic:` guard, so a zero override is skipped. A `None` override is not a separate input.
