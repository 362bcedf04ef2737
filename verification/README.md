# Prediction engine model

A Dafny model of the prediction engine (`src/lib/predictionEngine.ts`) of a
market dashboard that charts cryptocurrencies and stocks. The engine reads a series of
daily OHLCV bars, and optionally a 4-hour series, and computes:

- three technical indicators: the simple moving average, the exponential
  moving average seeded with the first close, and the relative strength
  index over the last 14 close-to-close changes;
- a volume classification (HIGH / LOW / NORMAL) from the last ten bars;
- a BUY / SELL / HOLD signal with an additive confidence score, built by
  four rules applied in order: trend, volume, RSI, EMA alignment;
- the list of messages of the rules that fired;
- a seven-day price projection along a drift line, with a small random
  perturbation on each point.

The model has four modules:

- `RealArith` (`real_arith.dfy`) holds sign and monotonicity facts about
  products and quotients of reals that the other proofs use.
- `Indicators` (`indicators.dfy`) holds `Sum`/`Mean`, the `CalculateSma`
  loop, `Ema` and `Rsi`, and lemmas about them. The lemmas cover window
  sliding, causality, staying within range, lagging and leading on rising
  series, the gain-share form of the RSI, and the RSI ignoring history.
- `Engine` (`engine.dfy`) holds the bar and result shapes,
  `AnalyzeVolume`, the trend decision, and the rules as separate steps.
  `Read` evaluates the indicators into `Readings` and `Decide` applies the
  rules. It also holds the projection and `GeneratePrediction`.
- `PredictionFacts` (`prediction_facts.dfy`) holds properties relating
  several rules or several calls:
  - the confidence as a capped flat sum of bonuses;
  - how confidence ranks signals;
  - which messages appear;
  - what volume can change;
  - the full outcome on a steadily rising market.

Modelling choices:

- Prices and volumes are exact `real`s. Times are integer Unix seconds.
- `Math.random()` is an input: `jitter` holds seven draws `u`, each in
  [-0.5, 0.5). This is the range of `Math.random() - 0.5`.
- `Math.round` is the nearest integer with halves rounded up,
  `floor(x + 0.5)`.
- The optional 4-hour series is an `Option<seq<Bar>>`.
- Messages are tags (`Message`). `Text` gives the exact string the engine
  shows for each one.

## Model

| member | source | states |
|---|---|---|
| Indicators.CalculateSma | src/lib/predictionEngine.ts:11-18 | One entry per full window of `period` values, none when the series is shorter than the period. Entry j is the mean of data[j .. j+period-1]. |
| Indicators.SmaSlide | src/lib/predictionEngine.ts:13-15 | Moving the window one step changes the average by (entering value - leaving value) / period. |
| Indicators.MeanBounds | src/lib/predictionEngine.ts:14-15 | The average of a window lies between any lower and upper bound of its values. |
| Indicators.Smoothing | src/lib/predictionEngine.ts:22 | The factor 2/(period+1) is a weight in (0, 1], and is strictly below 1 for every period above 1. |
| Indicators.Ema | src/lib/predictionEngine.ts:21-28 | The EMA has one entry per close. The first entry is the first close. Every later entry is close*k + previous*(1-k). |
| Indicators.EmaPrefix | src/lib/predictionEngine.ts:24-26 | The EMA is causal: its first m entries are the EMA of the first m closes. |
| Indicators.EmaWithinRange | src/lib/predictionEngine.ts:21-28 | Every EMA entry lies within any range that holds all the closes, so a constant series is its own EMA. |
| Indicators.EmaLagsRising | src/lib/predictionEngine.ts:21-28 | On a strictly rising series (period above 1), the EMA is below the close at every bar after the first. |
| Indicators.FastEmaLeadsRising | src/lib/predictionEngine.ts:21-28 | On a strictly rising series, the faster EMA ends strictly above the slower one. |
| Indicators.Gains | src/lib/predictionEngine.ts:37-39 | Summed gains are non-negative. They are zero exactly when no step in the window rises. A flat step counts as a gain of 0. |
| Indicators.Losses | src/lib/predictionEngine.ts:37-40 | Summed losses are non-negative. They are zero exactly when no step in the window falls. |
| Indicators.IndexFromMoves | src/lib/predictionEngine.ts:43-48 | The index is in [0, 100]. It is 100 exactly when there is no loss. It is 0 exactly when there is a loss and no gain. |
| Indicators.Rsi | src/lib/predictionEngine.ts:31-49 | The RSI is in [0, 100]. It is 50 when there are fewer than period+1 closes. Otherwise it is 100 exactly when none of the last `period` steps falls. |
| Indicators.RsiAsGainShare | src/lib/predictionEngine.ts:43-48 | Once the window holds a loss, the RSI equals 100 * gains / (gains + losses). |
| Indicators.RsiZero | src/lib/predictionEngine.ts:37-48 | The RSI is 0 exactly when some step of the window falls and none rises. |
| Indicators.RsiIgnoresHistory | src/lib/predictionEngine.ts:37-41 | The RSI depends only on the last period+1 closes: prepending any history leaves it unchanged. |
| Engine.Text | src/lib/predictionEngine.ts:97-137 | Each message has its fixed text. No two messages share a text: parsing the text gives back the message. |
| Engine.Round | src/lib/predictionEngine.ts:159 | The rounded index is the integer n with x - 0.5 < n <= x + 0.5, so halves round up. |
| Engine.AnalyzeVolume | src/lib/predictionEngine.ts:58-69 | Fewer than ten bars give NORMAL. Otherwise the result is HIGH exactly when recent volume > 1.5 * older volume. It is LOW exactly when recent < 0.5 * older and the result is not HIGH. |
| Engine.VolumeIgnoresHistory | src/lib/predictionEngine.ts:59-61 | Only the last ten bars matter: prepending bars to a series of at least ten changes nothing. |
| Engine.VolumeScaleInvariant | src/lib/predictionEngine.ts:63-68 | Multiplying every volume by the same positive factor leaves the classification unchanged. |
| Engine.AboveSlowEma | src/lib/predictionEngine.ts:90 | A series is above its slow average exactly when its last close exceeds its last 50-period EMA. A single bar never is, since its EMA is its own close. |
| Engine.IsUptrend | src/lib/predictionEngine.ts:90-96 | With a 4-hour series of more than 50 bars, the trend is up exactly when that series' last close exceeds its 50-period EMA. Otherwise the trend is up exactly when the daily last close exceeds the daily 50-period EMA. |
| Engine.HigherTimeframeDecides | src/lib/predictionEngine.ts:90-96 | A usable 4-hour series alone decides the trend, whatever the daily series. Without one, the trend is the same as with no 4-hour series at all. |
| Engine.Decide | src/lib/predictionEngine.ts:85-139 | The uncapped confidence stays in [40, 100]. BUY means RSI < 30 in an uptrend. SELL means RSI > 70 outside one. There are 2 to 4 messages, opening with the trend message and closing with the EMA alignment. |
| Engine.ProjectedPoint | src/lib/predictionEngine.ts:149-152 | Day d lies d days after the last bar. Its value is within 0.5% of the last price from the drift line at d. |
| Engine.Projection | src/lib/predictionEngine.ts:144-153 | Seven points, point i on day i+1, each within half a percent of the last price from the drift line. |
| Engine.ProjectionInOrder | src/lib/predictionEngine.ts:148-150 | The projected times come after the last bar and strictly increase. |
| Engine.Assemble | src/lib/predictionEngine.ts:142-163 | The result carries the rules' signal and messages. The confidence is capped at 98. rsiValue is Round of the RSI, so it lies in [0, 100]. The trend is UP or DOWN, never NEUTRAL. The volume analysis always reads NORMAL. |
| Engine.GeneratePrediction | src/lib/predictionEngine.ts:74-164 | Confidence is in [40, 98]. BUY iff RSI < 30 and uptrend. SELL iff RSI > 70 and not uptrend. rsiValue is Round of the RSI: in [0, 100], and 50 on short series. The trend matches the uptrend decision. volumeAnalysis is NORMAL. Messages open with the trend and close with the EMA alignment. The points are the predicted path. |
| Engine.PredictedPoints | src/lib/predictionEngine.ts:144-153 | The predicted path has seven points, one day apart after the last bar, in time order. Each is within 0.5% of the last close from the line through the last close with the drift as slope. |
| Engine.DriftBounds | src/lib/predictionEngine.ts:146 | The drift (last close minus the 20-period EMA four bars back, over 5) lies within a fifth of the closes' range in either direction. A flat series has drift 0. |
| PredictionFacts.DecideBreakdown | src/lib/predictionEngine.ts:86-139 | The sequential rules yield exactly 50 + volume bonus + RSI bonus + alignment bonus. |
| PredictionFacts.ConfidenceBreakdown | src/lib/predictionEngine.ts:86-142 | The published confidence is min(98, that flat sum). |
| PredictionFacts.ConfidenceRanksSignals | src/lib/predictionEngine.ts:105-142 | BUY and SELL always carry confidence of at least 70. HOLD always carries at most 70. |
| PredictionFacts.MessagesInRuleOrder | src/lib/predictionEngine.ts:97-139 | Messages come in rule order: the trend, then the volume message if any, then the RSI message if any, then the EMA alignment. |
| PredictionFacts.DecisionMessages | src/lib/predictionEngine.ts:104-139 | Each volume or RSI message is present exactly when its condition holds. The count is 2 plus one per rule that fired. |
| PredictionFacts.MessagesMatchRules | src/lib/predictionEngine.ts:97-139 | In the published prediction, the volume and RSI messages are present exactly when AnalyzeVolume and the RSI say so. The message count matches. |
| PredictionFacts.VolumeOnlyMovesDecision | src/lib/predictionEngine.ts:104-111 | Changing only the volume class leaves the signal unchanged and moves the confidence by at most 20. |
| PredictionFacts.ReadingsIgnoreVolume | src/lib/predictionEngine.ts:75-83 | Two series with the same closes have the same readings except for the volume class. |
| PredictionFacts.VolumeOnlyMovesConfidence | src/lib/predictionEngine.ts:74-164 | Series with equal times and closes get the same signal, RSI value, trend and projection. Their confidence differs by at most 20. |
| PredictionFacts.SteadyVolumeIsNormal | src/lib/predictionEngine.ts:58-69 | Constant non-negative volume is classified NORMAL. |
| PredictionFacts.RisingIndexIsFull | src/lib/predictionEngine.ts:32-46 | A strictly rising series of at least 15 closes has RSI 100. |
| PredictionFacts.RisingDriftIsPositive | src/lib/predictionEngine.ts:146 | On a strictly rising series the projection's daily drift is positive. |
| PredictionFacts.RisingMarket | src/lib/predictionEngine.ts:74-164 | Input: a strictly rising daily series of at least 15 bars, steady volume, and no usable 4-hour series. Output: HOLD with confidence 60 and rsiValue 100, trend UP, messages [Daily Trend UP, RSI Overbought, Bullish EMA Alignment], positive drift. |

## Left out

- Floating point: all arithmetic is on exact reals, so NaN, infinities and rounding error are not modelled.
- Randomness: each `Math.random()` draw is a `jitter` input in [-0.5, 0.5); the model does not choose them.
- Engine.GeneratePrediction requires at least five daily bars. With 1 to 4 bars the source reads `ema20[len - 5]` as undefined and its projected values become NaN. With 0 bars it throws on `data[-1].time`.
- Indicators.Ema requires a non-empty series. On an empty array the source returns `[undefined]`.
- Indicators.CalculateSma, Indicators.Ema, Indicators.Rsi require period > 0, which the source does not check. For other periods the source still returns something. With period 0, `calculateSMA` divides by zero. `calculateRSI` divides 0 by 0 on any non-empty series. `calculateEMA` smooths with k = 2, so the weights are 2 and -1. The engine only passes the periods 14, 20 and 50.
- Default RSI period: the default value of 14 for `calculateRSI` is not modelled separately. The engine always passes 14 explicitly.
- Engine.ProjectedPoint: the band is stated as closed on both sides, although the draw's upper end is open and the bound is never reached above.
- Engine.AnalyzeVolume: the classification is stated on the window totals, not on the source's means. Dividing both by 5 preserves every comparison; the body divides as the source does.
- Volume analysis in the result: the source computes the volume class and uses it for the rules, but always returns volumeAnalysis = NORMAL. The model keeps that behaviour as written, and the computed class appears only through the confidence and the messages.
- Confidence floor: the source never clamps the confidence from below, and it needs no clamp. The only deduction is 10 for low volume, so the confidence never drops below 40 (Engine.Decide).
- A strictly rising market gets confidence 60, because RSI 100 is overbought in an uptrend and adds 10 (PredictionFacts.RisingMarket).
- Message strings: the contracts are stated on the message tags. `Text` gives each tag's string, and `ParseMessage` reads it back.
- The data fetching (the Binance adapter, the Alpha Vantage stock adapter, the proxy route) and the dashboard UI are not part of this model.
