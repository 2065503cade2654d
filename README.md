# XRP market-intelligence scoring core, in Dafny

This project models the deterministic core of an XRP market-intelligence service
and proves properties of it. The service gathers trades, derivatives metrics,
exchange flows, order-book depth and news headlines. It turns them into five
sub-scores and one composite score in [0, 100].

The model covers:

- **Signal and scoring engine** (`signals.dfy`, module `Signals`):
  - the windowed z-score over the last 30 observations;
  - the three-way regime classifier;
  - the volume and flow signals;
  - the leverage score from open interest, funding and long/short ratio;
  - the manipulation hint from order-book imbalance and a volume-spike flag;
  - the regulatory sentiment score;
  - the weighted composite, including its weight lookup and `KeyError` path.
- **Order-book summary** (`order_book.dfy`, module `OrderBook`): bid volume, ask volume and
  depth imbalance of a depth snapshot. Python raises `ZeroDivisionError` when the denominator
  is exactly 0, and the model returns it as an error.
- **Ingestion record shaping** (`inflow_worker.dfy`, module `InflowWorker`):
  - the OHLCV bar built from a batch of trades;
  - the derivatives metric with its truthiness fallbacks;
  - one exchange-flow row per flow entry, or nothing when an entry fails to convert or
    leaves a NOT NULL column empty. This is a loop, modelled as a method proved against
    the per-entry function.
- **News tagging rule** (`news_worker.dfy`, module `NewsWorker`):
  - type, subtype, tags, source and severity of the event stored for each article;
  - the per-article loop.
- **Analytics wiring** (`analytics_worker.dfy`, module `AnalyticsWorker`): from the loaded
  rows and the order book to the stored composite-score row.
- **`pct_change`** (`utils.dfy`, module `Utils`).
- **`_coalesce_env`** (`config.dfy`, module `Config`), including Python's `str.strip`
  whitespace set.

The shared modules are:

- `common.dfy`: `Option`, `Result`, the exceptions the core can raise (`KeyError`, `ZeroDivisionError`, `AttributeError`, `TypeError`, `ValueError`, and the database's `IntegrityError`), and
  `dict.get` with a default.
- `numeric.dfy`: the numpy and builtin reductions used: `sum`, `mean`, `std(ddof=1)` up to
  the square root, `clip`, `abs`, `max`, `min` and the slice `s[-n:]`.

All numbers are exact reals. The square root is a parameter `sqrt` that must satisfy
`IsSquareRoot`: it is non-negative and squares back to its argument. The headline
classifier is a parameter `classify`. Clocks, the database, the cache and HTTP are
not part of the model.

## Model

| member | source | states |
|---|---|---|
| `Numeric.LastN` | core/signals.py:28 | for a positive `n` (the source slices with 30 and 24), the window `s[-n:]` has `min(n, len(s))` elements, which are the last ones of `s` in order |
| `Numeric.Abs` | core/signals.py:78-79 | non-negative and equal to x or -x |
| `Numeric.Clip` | core/signals.py:73 | `np.clip` lands in [lo, hi], is the identity inside and saturates at each end |
| `Numeric.MaxOf` | workers/inflow_worker.py:32 | `max` is attained by some element and bounds every element |
| `Numeric.MinOf` | workers/inflow_worker.py:33 | `min` is attained by some element and is below every element |
| `Numeric.SampleVariance` | core/signals.py:32 | the `ddof=1` variance is never negative |
| `Numeric.SampleVarianceOfConstant` | core/signals.py:32 | a constant window has sample variance 0 |
| `Numeric.MeanBetweenMinAndMax` | core/signals.py:49 | a mean lies between the smallest and the largest element averaged |
| `Signals.EffectiveStd` | core/signals.py:32-33 | the divisor is always positive: 1 for a single element, 1 when the deviation is 0, otherwise a root whose square is the sample variance |
| `Numeric.SumAppend` | core/signals.py:31 | appending an element adds it to the sum |
| `Numeric.SumBounds` | core/signals.py:31 | elements in [lo, hi] give a sum between n lo and n hi |
| `Numeric.SumStrictlyBelow` | core/signals.py:31 | elements all below x give a sum below n x |
| `Numeric.MeanBounds` | core/signals.py:31 | the mean lies within any bounds of the elements |
| `Numeric.MeanOfConstant` | core/signals.py:31 | the mean of equal elements is that element |
| `Numeric.MeanBelowNewHigh` | core/signals.py:31-33 | a last element above all others lies above the mean |
| `Signals.ZScore` | core/signals.py:27-33 | 0 for an empty or one-element series; otherwise the z-score times the effective deviation is the last element minus the mean of the last 30, so its sign (positive, negative, zero) is exactly the sign of that difference |
| `Signals.ZScoreOfConstantWindow` | core/signals.py:31-33 | a window of equal values has z-score 0 |
| `Signals.ZScoreIgnoresHistory` | core/signals.py:28 | history before the last 30 observations never changes the z-score |
| `Signals.ZScorePositiveAtNewHigh` | core/signals.py:31-33 | a last value above every other value in the window has a positive z-score |
| `Signals.VolumeSpikeExample` | tests/test_signals.py:10-14 | ten volumes of 100 then 200 give a positive volume z-score |
| `Signals.FlowSignalExample` | tests/test_signals.py:17-21 | flows -50, -20, 10, 80 give net flow 80, a positive z-score and a regime named "normal" or "high" |
| `Signals.ClassifyRegime` | core/signals.py:36-41 | "high" iff z >= high; "low" iff z < high and z <= low; "normal" iff strictly between: high is tested first and both bounds are inclusive |
| `Signals.RegimeNameIdentifies` | core/signals.py:36-41 | the stored regime string is one of "low", "normal", "high", and equal strings mean equal regimes |
| `Signals.ClassifyRegimeMonotone` | core/signals.py:36-41 | a larger z-score never gets a lower regime, for any thresholds |
| `Signals.DefaultRegimeBoundaries` | core/signals.py:36-41 | with the defaults, 0.8 is "high", -0.8 is "low", 0, 0.79 and -0.79 are "normal" |
| `Signals.ComputeVolumeSignal` | core/signals.py:44-50 | empty input gives (0, normal, 0, 0); otherwise z-score of the series, latest is the last volume, baseline is the mean of the last 24 (or all); regime always agrees with the stored z-score |
| `Signals.VolumeBaselineBounds` | core/signals.py:49 | the baseline lies between the min and max of the volumes it averages |
| `Signals.ComputeFlowSignal` | core/signals.py:53-58 | empty input gives (0, 0, normal); otherwise net flow is the last value and the z-score that of the series; regime agrees with the z-score |
| `Signals.OIChangePct` | core/signals.py:66-69 | 0 without a previous point or when the previous open interest is 0; otherwise the change times the previous OI is 100 times the difference |
| `Signals.FundingBias` | core/signals.py:70 | 0 without a funding rate; otherwise 100 times it; positive iff a positive rate is present |
| `Signals.LsSkew` | core/signals.py:71 | 0 without a ratio or with ratio 0; otherwise 100 times (ratio - 1); positive iff ratio > 1, negative iff 0 < ratio < 1 or ratio < 0 |
| `Signals.RawLeverage` | core/signals.py:72 | at least 50 when all three terms are non-negative, at most 50 when all are non-positive |
| `Signals.OILeverageScore` | core/signals.py:61-73 | always in [0, 100]; 50 on empty input; otherwise the clamp of 50 + 0.2 OI change + 0.3 funding bias + 0.1 skew |
| `Signals.LeverageSinglePoint` | core/signals.py:65-69 | a single observation has no OI-change term |
| `Signals.LeverageZeroGuards` | core/signals.py:69-71 | a previous open interest of 0 gives OI change 0; a long/short ratio of 0 gives skew 0 |
| `Signals.LeverageExample` | tests/test_signals.py:24-30 | OI 1000 -> 1200, funding 0.02, ratio 1.2 give exactly 56.6 |
| `Signals.LeverageMonotoneInFunding` | core/signals.py:70-73 | raising the latest funding rate never lowers the score |
| `Signals.ComputeManipulationHint` | core/signals.py:76-87 | imbalance is the stats entry or 0; wall change iff abs(imbalance) > 0.5 strictly; risk in [0, 1]: half the absolute imbalance without a spike (up to 2), that plus 0.5 with one (up to 1), and 1 beyond those ranges; note by priority "Depth skew + spike", "Skewed depth", "Calm", each iff its condition |
| `Signals.HintNote` | core/signals.py:80 | "Depth skew + spike" iff wall change and spike, "Skewed depth" iff wall change alone, "Calm" iff no wall change |
| `Signals.SpikeWithoutWallIsCalm` | core/signals.py:78-80 | a spike without wall change reads "Calm" with risk at least 0.5, exactly 0.5 above the no-spike risk |
| `Signals.ManipulationHintDefault` | core/signals.py:77-87 | empty stats and no spike give imbalance 0, no wall change, risk 0, "Calm" |
| `Signals.ManipulationRiskMonotone` | core/signals.py:79-85 | the risk never decreases with a larger imbalance or an added spike |
| `Signals.Column` | core/signals.py:93-94 | one entry per event: its score under the key, or 0 when missing |
| `Signals.ComputeRegulatoryScore` | core/signals.py:90-96 | always in [0, 100]; 25 on an empty list; otherwise exactly 50 when mean threat equals mean support, above 50 iff support dominates, below iff threat dominates |
| `Signals.RegulatoryNeutralEvents` | core/signals.py:93-95 | events without either key give 50 |
| `Signals.RegulatoryUnclampedForUnitScores` | core/signals.py:95-96 | with scores in [0, 1] the clamp never acts: the score is 50 + (support - threat) * 50 |
| `Signals.ResolveWeights` | core/signals.py:105-119 | no map or an empty map gives the defaults; otherwise success iff all five keys are present, with those values, else a `KeyError` naming a missing key |
| `Signals.AggregateScores` | core/signals.py:99-121 | fails exactly when the weight lookup fails; otherwise the result is in [0, 100] and is the clamped weighted sum with the manipulation score inverted |
| `Signals.WeightedTotal` | core/signals.py:114-120 | manipulation enters inverted: when every other score equals 100 minus the manipulation score, the total is that score times the weight total |
| `Signals.DefaultWeightsSumToOne` | core/signals.py:107-113 | the default weights are non-negative and sum to 1 |
| `Signals.AggregateExample` | tests/test_signals.py:33-41 | (60, 55, 50, 20, 40) with the defaults give exactly 57.75 |
| `Signals.ConvexCombinationInRange` | core/signals.py:114-121 | non-negative weights summing to 1 and sub-scores in [0, 100] make the weighted sum land in [0, 100] before clamping |
| `Signals.AggregateManipulationAntitone` | core/signals.py:118 | with a non-negative manipulation weight, a higher manipulation score never raises the composite |
| `OrderBook.LevelQuantities` | core/binance_client.py:83-84 | the quantity column: one entry per level, the level's second component |
| `OrderBook.SideVolume` | core/binance_client.py:83-84 | an empty side has volume 0; non-negative quantities give a non-negative volume |
| `OrderBook.SideVolumeIsSum` | core/binance_client.py:83-84 | the side volume is exactly the sum of the quantity column |
| `OrderBook.Side` | core/binance_client.py:81-82 | the list stored under the key, or no levels when the key is missing |
| `OrderBook.SummarizeOrderBook` | core/binance_client.py:80-90 | fails with `ZeroDivisionError` iff bid + ask + 1e-9 is 0; otherwise exactly the three keys, the two side totals (missing side = empty), and the difference over that denominator as imbalance |
| `OrderBook.ImbalanceTimesDenominator` | core/binance_client.py:85 | the imbalance times bid + ask + 1e-9 is bid volume minus ask volume |
| `OrderBook.EmptyBook` | core/binance_client.py:81-85 | an empty book summarizes to three zeros |
| `OrderBook.ImbalanceStrictlyInside` | core/binance_client.py:85 | with non-negative quantities the summary exists and the imbalance is strictly between -1 and 1 |
| `OrderBook.SwapNegatesImbalance` | core/binance_client.py:85 | exchanging bids and asks negates the imbalance and swaps the volumes |
| `OrderBook.ImbalanceSign` | core/binance_client.py:85 | with non-negative quantities the imbalance is positive, zero or negative exactly as bid volume exceeds, equals or is below ask volume |
| `OrderBook.OneLevelEachSide` | tests/test_clients.py:16-24 | one bid of 100 against one ask of 50: bid volume 100 > 0, imbalance present and in (0, 1) |
| `Utils.PctChange` | core/utils.py:33-36 | 0 when the previous value is 0; otherwise the result times the previous value is 100 times the difference |
| `Utils.PctChangeOfEqual` | core/utils.py:36 | no change gives 0 |
| `Utils.PctChangeRoundTrip` | core/utils.py:36 | applying the change to a non-zero previous value gives back the current value |
| `Utils.PctChangeSign` | core/utils.py:36 | from a positive previous value, the change is positive iff the value rose and negative iff it fell |
| `Utils.OIChangeIsPctChange` | core/signals.py:67-69 | the leverage score's OI-change term is `pct_change` of the last two open interests |
| `Config.StripLeft` | core/config.py:20 | removes exactly a leading run of whitespace and stops at a non-space |
| `Config.StripRight` | core/config.py:20 | removes exactly a trailing run of whitespace and stops at a non-space |
| `Config.Strip` | core/config.py:20 | the stripped value has no whitespace at either end and is no longer than the input |
| `Config.StripDecomposes` | core/config.py:20 | the input is the stripped value padded on both sides with whitespace only |
| `Config.StripOfPadded` | core/config.py:20 | padding a string without edge whitespace and stripping gives the string back |
| `Config.StripIdempotent` | core/config.py:20 | stripping twice is stripping once |
| `Config.CoalesceEnv` | core/config.py:6-24 | unset gives the default; a blank value or the variable's own `${NAME}` after stripping gives the default; otherwise the stripped value, so the result is the default or non-empty, edge-trimmed and not the template |
| `Config.PaddedPlaceholderFallsBack` | core/config.py:20-22 | whitespace around the template or a whitespace-only value still falls back |
| `Config.CoalesceStable` | core/config.py:16-24 | when the default is non-empty, has no leading or trailing whitespace and is not the variable's own placeholder, coalescing a coalesced value again returns it unchanged (a padded default would coalesce to its stripped form) |
| `Config.DoubleBraceTemplateIsKept` | core/config.py:21-22 | the doubled-brace form `${{Postgres.DATABASE_URL}}` is returned as is, not replaced by the default |
| `InflowWorker.TradePrices` | workers/inflow_worker.py:27 | one price per trade, in trade order |
| `InflowWorker.TradeQuantities` | workers/inflow_worker.py:28 | one quantity per trade, in trade order |
| `InflowWorker.BarFromTrades` | workers/inflow_worker.py:24-36 | no bar iff there are no trades; open is the first price, close the last, volume the sum of quantities, source "binance-trades"; every price lies in [low, high] and both are attained |
| `InflowWorker.BarIsOrdered` | workers/inflow_worker.py:31-34 | low <= open, close <= high |
| `InflowWorker.SingleTradeBar` | workers/inflow_worker.py:27-36 | one trade gives a flat bar with that trade's quantity |
| `InflowWorker.Or` | workers/inflow_worker.py:50 | Python `a or b`: the first operand if truthy, else the second |
| `InflowWorker.DerivativesMetricFrom` | workers/inflow_worker.py:47-54 | exchange "binance"; funding defaults to 0, ratio to 1; volume is `sumOpenInterestValue` if truthy, else 0 |
| `InflowWorker.OpenInterest` | workers/inflow_worker.py:50 | OI is `sumOpenInterest` when present and truthy, else `sumOpenInterestValue` when present and truthy, else 0 |
| `InflowWorker.ZeroStringIsNotAFallback` | workers/inflow_worker.py:50 | the string "0" is truthy and is kept as OI 0; the number 0 falls through to the value field |
| `InflowWorker.EmptyPayloadsAreNeutral` | workers/inflow_worker.py:50-53 | empty payloads give (0, 0, 1, 0), whose leverage score is 50 |
| `InflowWorker.FlowsOf` | workers/inflow_worker.py:61-66 | a non-dict answer or a dict without `exchange_flows` gives no flows; a dict with them gives exactly its list |
| `InflowWorker.TextOr` | workers/inflow_worker.py:72-73 | a missing field gives the default, a string itself, and a JSON null stays NULL |
| `InflowWorker.ToFloat` | workers/inflow_worker.py:74-75 | `float` of the field or default: a null raises `TypeError`, a non-numeric string `ValueError`; a number or numeric string gives its value |
| `InflowWorker.NetFlowValue` | workers/inflow_worker.py:75 | a missing net flow converts the amount field again; otherwise the net flow field is converted |
| `InflowWorker.FlowRecord` | workers/inflow_worker.py:70-76 | raises iff the amount or the net flow fails to convert, the amount's error first; otherwise exchange defaults to "unknown", direction to "in", amount to 0, and net flow falls back to the amount |
| `InflowWorker.SaveExchangeFlows` | workers/inflow_worker.py:60-77 | stores iff every entry converts and has non-null exchange and direction, then exactly one row per entry, in order, each its entry's record; otherwise nothing, with the first conversion error in entry order, or `IntegrityError` (core/db.py:37-38) when every entry converts |
| `InflowWorker.EmptyFlowEntry` | workers/inflow_worker.py:72-75 | an entry with no fields gives ("unknown", "in", 0, 0) |
| `InflowWorker.BadAmountRaises` | workers/inflow_worker.py:74-75 | a null amount raises `TypeError` even beside a valid net flow; a non-numeric amount with no net flow raises `ValueError` |
| `InflowWorker.NullTextIsNotStorable` | workers/inflow_worker.py:72-73 | an entry with a null exchange or direction never yields a storable row |
| `NewsWorker.LowerChar` | workers/news_worker.py:27 | each ASCII capital becomes its lower-case letter (code + 32); every other character is unchanged |
| `NewsWorker.Lower` | workers/news_worker.py:27 | same length; each character lower-cased |
| `NewsWorker.Contains` | workers/news_worker.py:27 | the substring test holds iff the pattern occurs at some position |
| `NewsWorker.MaxScore` | workers/news_worker.py:31 | `max(scores.values())` is attained by some key and bounds every score |
| `NewsWorker.MentionsRegulation` | workers/news_worker.py:27 | holds iff "regulat" occurs at some position of the lower-cased headline, which is then at least 7 characters long |
| `NewsWorker.SourceName` | workers/news_worker.py:22 | a null source raises `AttributeError`; a missing source or one without `name` gives "news"; otherwise its `name` |
| `NewsWorker.TagArticle` | workers/news_worker.py:20-32 | raises `AttributeError` iff the source is null; otherwise type "regulatory" iff the lower-cased headline (title or "") contains "regulat", else "news"; subtype "regulatory" iff the threat score (missing = 0) > 0.3, else "macro"; tags are the scores; severity the max score or 0 when there are none; source the stored source name |
| `NewsWorker.RunOnce` | workers/news_worker.py:16-33 | raises `AttributeError`, storing nothing, iff some article has a null source; otherwise exactly one event per article, in order, each the tagged event of its article |
| `NewsWorker.UntitledArticleIsNews` | workers/news_worker.py:21-27 | a missing title reads as "" and is never regulatory |
| `NewsWorker.TypeIgnoresCase` | workers/news_worker.py:27 | a headline and its lower-cased form get the same type |
| `NewsWorker.MarkerMakesRegulatory` | workers/news_worker.py:27 | any headline containing "regulat" in any letter case is regulatory |
| `NewsWorker.TypeAndSubtypeIndependent` | workers/news_worker.py:24-27 | a regulatory headline with a low threat score gets subtype "macro" |
| `NewsWorker.NeutralClassification` | core/hf_client.py:16-18 | the classifier's neutral answer gives subtype "macro" and severity 1 |
| `NewsWorker.SeverityBounds` | workers/news_worker.py:31 | scores in [0, 1] give a severity in [0, 1] |
| `AnalyticsWorker.SubScore` | workers/analytics_worker.py:39-41 | the sub-score is above 50 iff the z-score is positive and below 50 iff negative |
| `AnalyticsWorker.DefaultWeightsResolve` | workers/analytics_worker.py:38-44 | calling the aggregator without weights uses the defaults and never fails |
| `AnalyticsWorker.SaveScore` | workers/analytics_worker.py:37-53 | the stored row holds 50 + 10 z for flow and volume, the OI and regulatory scores, 100 times the risk, and an overall score that is the aggregate of exactly those five stored values, in [0, 100] |
| `AnalyticsWorker.FlowScoreIsUnclamped` | workers/analytics_worker.py:47-53 | a flow z-score of 6 stores a flow score of 110 while the overall stays <= 100 |
| `AnalyticsWorker.NetFlows` | workers/analytics_worker.py:73 | one net flow per row, in row order |
| `AnalyticsWorker.Volumes` | workers/analytics_worker.py:74 | one volume per bar, in bar order |
| `AnalyticsWorker.RegulatoryTags` | workers/analytics_worker.py:87 | at most one entry per event, none when no event is regulatory |
| `AnalyticsWorker.RegulatoryEventCounts` | workers/analytics_worker.py:87 | one event contributes its tags (or `{}`) iff it is regulatory, nothing otherwise |
| `AnalyticsWorker.RegulatoryTagsAppend` | workers/analytics_worker.py:87 | the filter distributes over concatenation |
| `AnalyticsWorker.OtherEventsDoNotCount` | workers/analytics_worker.py:87 | inserting a non-regulatory event anywhere does not change the regulatory input |
| `AnalyticsWorker.UntaggedRegulatoryEvent` | workers/analytics_worker.py:87-88 | a regulatory event without tags contributes `{}` and alone scores 50 |
| `AnalyticsWorker.VolumeSpike` | workers/analytics_worker.py:85 | a spike is always in the "high" volume regime with a volume sub-score above 65; no spike keeps the sub-score at most 65 |
| `AnalyticsWorker.RunOnce` | workers/analytics_worker.py:71-89 | fails iff the order-book summary fails; otherwise the stored row is built from the flow and volume signals, the leverage score, the manipulation risk with spike = volume z > 1.5, and the regulatory score of the regulatory events' tags |
| `AnalyticsWorker.StoredScoresInRange` | workers/analytics_worker.py:37-53 | the stored manipulation, OI, regulatory and overall scores all lie in [0, 100] |
| `AnalyticsWorker.SpikeRaisesManipulationScore` | workers/analytics_worker.py:85-89 | a volume z-score above 1.5 stores a manipulation score of at least 50 |
| `AnalyticsWorker.EmptyDataSnapshot` | workers/analytics_worker.py:71-89 | no rows and an empty book store (50, 50, 50, 0, 25) with overall 55 |

## Left out

- Persistence, caching and I/O are not modelled:
  - SQLAlchemy sessions and tables;
  - the Redis cache, including `cache_json` in `_save_score`, which caches the raw risk rather than the score times 100;
  - `_snapshot_to_cache`;
  - every HTTP fetch, and the news and market-intel clients.
  The workers return the rows they would add instead.
- Timestamps are not modelled: `datetime.utcnow`, `fromisoformat` of `publishedAt`, and the 48-hour load window in `_load_recent_data`. The loaded rows are parameters.
- Scheduling and logging are not modelled: `retry`, `now_ts`, `logger`, `workers/scheduler.py`, the `main` loops with `time.sleep`, and `Settings`. `core/redis_client.py` is not part of this model.
- Floating point: every number is an exact real, so IEEE rounding, NaN and infinities are not modelled. For example, the model's leverage example is exactly 56.6.
- The square root inside `np.std` is a parameter satisfying `IsSquareRoot`, not a computed function.
- Parsing is not modelled:
  - Order-book levels and trades arrive already numeric. A malformed entry (a `KeyError` or `ValueError` in `float(...)`) is not modelled.
  - A numeric string in a derivatives payload carries the value `float` parses from it (`Scalar.Text`); a non-numeric string or a JSON null there, on which `float` would raise (workers/inflow_worker.py:51-52), is not modelled.
  - A numeric string in a flow entry carries the parsed value, or none when `float` raises `ValueError` (`NumberField.NumericText`).
- InflowWorker.FlowRecord: an exchange-flow entry that is not a dict (`.get` raises `AttributeError`), a number or boolean in `exchange` or `direction`, a boolean amount, and an `exchange_flows` value of null (iterating `None` raises `TypeError`) are not modelled. `SaveExchangeFlows` covers entries whose fields are missing, null, numbers or strings.
- `HintNote` and the rest of the engine use exact strings.
- NewsWorker.Lower: lower-cases ASCII letters only. No other character lower-cases to a letter of "regulat", so the regulatory test is unaffected.
- The headline classifier is a parameter. Its HTTP call and label mapping are not modelled; only its neutral answer is used in `NewsWorker.NeutralClassification`.
- `tests/test_config.py:6-11` expects `${{Postgres.DATABASE_URL}}` to fall back to the default. The code at `core/config.py:21` compares only with `${DATABASE_URL}`. The model follows the code (`Config.DoubleBraceTemplateIsKept`).
- The nullable derivatives columns (`oi`, `funding`, `ls_ratio`, `volume` in `core/db.py:49-52`) are modelled as `Option` except `oi`, which is read as always present because the writer modelled here always fills it. `net_flow_xrp` is declared NOT NULL (`core/db.py:40`).
- A `source` object whose `name` is JSON null makes the news worker store a null source into a NOT NULL column, which fails at flush. The model takes `name` as a string.
- Numeric.LastN: requires a positive `n`. In Python `s[-0:]` is the whole list rather than an empty one; the source only slices with 30 and 24.
- The analytics log line reports the risk score under the label "overall". It is logging only and is not modelled.
