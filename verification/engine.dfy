/** The rule-based signal generator. From a daily bar series, and optionally
    a 4-hour series for trend confirmation, it derives a BUY/SELL/HOLD signal,
    an additive confidence score, the list of rules that fired and a seven-day
    price projection. */
module Engine {

  import opened Indicators
  import opened RealArith

  const RsiPeriod := 14
  const FastPeriod := 20
  const SlowPeriod := 50
  /** Bars in each of the two volume windows compared. */
  const VolumeWindow := 5
  /** The 4-hour series decides the trend only when it has more bars than this. */
  const HigherTimeframeMinBars := 50
  const BaseConfidence := 50
  const ConfidenceCap := 98
  const HorizonDays := 7
  const SecondsPerDay := 24 * 60 * 60

  datatype Option<T> = None | Some(value: T)

  /** One OHLCV observation; `time` is in Unix seconds. */
  datatype Bar = Bar(time: int, open: real, high: real, low: real, close: real, volume: real)

  datatype Signal = Buy | Sell | Hold

  datatype VolumeClass = High | Low | Normal

  datatype Trend = Up | Down | Neutral

  /** The messages the rules append, as tags. */
  datatype Message =
    | DailyTrend(up: bool)
    | HigherTrend(bullish: bool)
    | HighVolumeConfirmation
    | LowVolumeWeakTrend
    | RsiOversold
    | RsiOverbought
    | EmaAlignment(bullish: bool)

  /** The text shown for each message. Distinct messages read differently:
      the text can be read back into the message it came from. */
  function Text(m: Message): (t: string)
    ensures ParseMessage(t) == Some(m)
  {
    match m
    case DailyTrend(up) => if up then "Daily Trend is UP" else "Daily Trend is DOWN"
    case HigherTrend(bullish) => if bullish then "4H Trend is BULLISH" else "4H Trend is BEARISH"
    case HighVolumeConfirmation => "High Volume Confirmation"
    case LowVolumeWeakTrend => "Low Volume (Weak Trend)"
    case RsiOversold => "RSI Oversold (<30)"
    case RsiOverbought => "RSI Overbought (>70)"
    case EmaAlignment(bullish) => if bullish then "Bullish EMA Alignment" else "Bearish EMA Alignment"
  }

  /** Reads a message back from its text; None for any other string. */
  function ParseMessage(t: string): Option<Message>
  {
    if t == "Daily Trend is UP" then Some(DailyTrend(true))
    else if t == "Daily Trend is DOWN" then Some(DailyTrend(false))
    else if t == "4H Trend is BULLISH" then Some(HigherTrend(true))
    else if t == "4H Trend is BEARISH" then Some(HigherTrend(false))
    else if t == "High Volume Confirmation" then Some(HighVolumeConfirmation)
    else if t == "Low Volume (Weak Trend)" then Some(LowVolumeWeakTrend)
    else if t == "RSI Oversold (<30)" then Some(RsiOversold)
    else if t == "RSI Overbought (>70)" then Some(RsiOverbought)
    else if t == "Bullish EMA Alignment" then Some(EmaAlignment(true))
    else if t == "Bearish EMA Alignment" then Some(EmaAlignment(false))
    else None
  }

  /** One projected point. */
  datatype Point = Point(time: int, value: real)

  /** The basic prediction shape. */
  datatype PredictionResult = PredictionResult(
    predictedData: seq<Point>,
    signal: Signal,
    confidence: int,
    rsiValue: int)

  /** The extended prediction: the basic shape plus the trend, the volume
      analysis and the messages of the rules that fired, in order. */
  datatype ProPredictionResult = ProPredictionResult(
    base: PredictionResult,
    trend4h: Trend,
    volumeAnalysis: VolumeClass,
    signals: seq<Message>)

  function Closes(bars: seq<Bar>): (c: seq<real>)
    ensures |c| == |bars|
    ensures forall i :: 0 <= i < |bars| ==> c[i] == bars[i].close
  {
    seq(|bars|, i requires 0 <= i < |bars| => bars[i].close)
  }

  function Volumes(bars: seq<Bar>): (v: seq<real>)
    ensures |v| == |bars|
    ensures forall i :: 0 <= i < |bars| ==> v[i] == bars[i].volume
  {
    seq(|bars|, i requires 0 <= i < |bars| => bars[i].volume)
  }

  function Abs(x: real): real
  {
    if x < 0.0 then -x else x
  }

  /** Math.round on the values it meets here: the nearest integer, halves
      rounded up. */
  function Round(x: real): (n: int)
    ensures x - 0.5 < n as real <= x + 0.5
  {
    (x + 0.5).Floor
  }

  // ---------------------------------------------------------------------
  // Volume classification
  // ---------------------------------------------------------------------

  /** Total volume of the last five bars. */
  function RecentVolume(data: seq<Bar>): real
    requires |data| >= 2 * VolumeWindow
  {
    Sum(Volumes(data[|data| - VolumeWindow..]))
  }

  /** Total volume of the five bars before those. */
  function OlderVolume(data: seq<Bar>): real
    requires |data| >= 2 * VolumeWindow
  {
    Sum(Volumes(data[|data| - 2 * VolumeWindow..|data| - VolumeWindow]))
  }

  /** Classifies recent volume against the volume just before it. Fewer than
      ten bars are NORMAL; otherwise the recent mean above 1.5 times the older
      mean is HIGH, below half of it is LOW, and anything else NORMAL. */
  function AnalyzeVolume(data: seq<Bar>): (c: VolumeClass)
    ensures |data| < 2 * VolumeWindow ==> c == Normal
    ensures |data| >= 2 * VolumeWindow ==>
      (c == High <==> RecentVolume(data) > 1.5 * OlderVolume(data)) &&
      (c == Low <==> RecentVolume(data) < 0.5 * OlderVolume(data) && RecentVolume(data) <= 1.5 * OlderVolume(data))
  {
    if |data| < 2 * VolumeWindow then Normal
    else
      var recent := data[|data| - VolumeWindow..];
      var older := data[|data| - 2 * VolumeWindow..|data| - VolumeWindow];
      var avgRecent := Sum(Volumes(recent)) / VolumeWindow as real;
      var avgOlder := Sum(Volumes(older)) / VolumeWindow as real;
      if avgRecent > avgOlder * 1.5 then High
      else if avgRecent < avgOlder * 0.5 then Low
      else Normal
  }

  /** The classification looks at the last ten bars only. */
  lemma VolumeIgnoresHistory(prefix: seq<Bar>, data: seq<Bar>)
    requires |data| >= 2 * VolumeWindow
    ensures AnalyzeVolume(prefix + data) == AnalyzeVolume(data)
  {
    var whole := prefix + data;
    assert whole[|whole| - VolumeWindow..] == data[|data| - VolumeWindow..];
    assert whole[|whole| - 2 * VolumeWindow..|whole| - VolumeWindow]
        == data[|data| - 2 * VolumeWindow..|data| - VolumeWindow];
  }

  /** Every bar's volume multiplied by c. */
  function ScaleVolumes(bars: seq<Bar>, c: real): (r: seq<Bar>)
    ensures |r| == |bars|
    ensures forall i :: 0 <= i < |bars| ==> r[i] == bars[i].(volume := bars[i].volume * c)
  {
    seq(|bars|, i requires 0 <= i < |bars| => bars[i].(volume := bars[i].volume * c))
  }

  lemma {:induction false} SumScaled(s: seq<real>, t: seq<real>, c: real)
    requires |s| == |t|
    requires forall i :: 0 <= i < |s| ==> t[i] == s[i] * c
    ensures Sum(t) == Sum(s) * c
    decreases |s|
  {
    if |s| > 0 {
      SumScaled(s[..|s| - 1], t[..|t| - 1], c);
    }
  }

  lemma ScaledWindowSum(bars: seq<Bar>, c: real, lo: int, hi: int)
    requires 0 <= lo <= hi <= |bars|
    ensures Sum(Volumes(ScaleVolumes(bars, c)[lo..hi])) == Sum(Volumes(bars[lo..hi])) * c
  {
    SumScaled(Volumes(bars[lo..hi]), Volumes(ScaleVolumes(bars, c)[lo..hi]), c);
  }

  /** The classification does not depend on the unit volume is counted in:
      scaling every volume by the same positive factor leaves it unchanged. */
  lemma VolumeScaleInvariant(data: seq<Bar>, c: real)
    requires c > 0.0
    ensures AnalyzeVolume(ScaleVolumes(data, c)) == AnalyzeVolume(data)
  {
    if |data| >= 2 * VolumeWindow {
      var n := |data|;
      var scaled := ScaleVolumes(data, c);
      ScaledWindowSum(data, c, n - VolumeWindow, n);
      ScaledWindowSum(data, c, n - 2 * VolumeWindow, n - VolumeWindow);
      assert scaled[n - VolumeWindow..] == scaled[n - VolumeWindow..n];
      assert data[n - VolumeWindow..] == data[n - VolumeWindow..n];
      var r := RecentVolume(data);
      var o := OlderVolume(data);
      assert RecentVolume(scaled) == r * c;
      assert OlderVolume(scaled) == o * c;
      ScaleComparison(r, 1.5 * o, c);
      ScaleComparison(r, 0.5 * o, c);
      assert (1.5 * o) * c == 1.5 * (o * c);
      assert (0.5 * o) * c == 0.5 * (o * c);
    }
  }

  lemma ScaleComparison(a: real, b: real, c: real)
    requires c > 0.0
    ensures a * c > b * c <==> a > b
    ensures a * c < b * c <==> a < b
  {
    if a > b {
      MulStrict(b, a, c);
    } else if a < b {
      MulStrict(a, b, c);
    }
  }

  // ---------------------------------------------------------------------
  // Trend
  // ---------------------------------------------------------------------

  /** Whether a series' last close is above its slow exponential average.
      A single bar never is: its average is its own close. */
  function AboveSlowEma(bars: seq<Bar>): (b: bool)
    requires |bars| > 0
    ensures b <==> bars[|bars| - 1].close > Ema(Closes(bars), SlowPeriod)[|bars| - 1]
    ensures |bars| == 1 ==> !b
  {
    var closes := Closes(bars);
    Last(closes) > Last(Ema(closes, SlowPeriod))
  }

  /** The 4-hour series decides the trend only when present with more than
      fifty bars. */
  predicate UsesHigherTimeframe(data4h: Option<seq<Bar>>)
  {
    data4h.Some? && |data4h.value| > HigherTimeframeMinBars
  }

  /** The trend: decided on the 4-hour series when it is usable, on the
      daily series otherwise. */
  function IsUptrend(data: seq<Bar>, data4h: Option<seq<Bar>>): (up: bool)
    requires |data| > 0
    ensures data4h.Some? && |data4h.value| > 50 ==>
      (up <==> data4h.value[|data4h.value| - 1].close > Last(Ema(Closes(data4h.value), SlowPeriod)))
    ensures (data4h.None? || |data4h.value| <= 50) ==>
      (up <==> data[|data| - 1].close > Last(Ema(Closes(data), SlowPeriod)))
  {
    if UsesHigherTimeframe(data4h) then AboveSlowEma(data4h.value) else AboveSlowEma(data)
  }

  /** A usable 4-hour series alone decides the trend: the daily series then
      makes no difference. Without one, the 4-hour argument makes none. */
  lemma HigherTimeframeDecides(data: seq<Bar>, other: seq<Bar>, data4h: Option<seq<Bar>>)
    requires |data| > 0 && |other| > 0
    ensures UsesHigherTimeframe(data4h) ==> IsUptrend(data, data4h) == IsUptrend(other, data4h)
    ensures !UsesHigherTimeframe(data4h) ==> IsUptrend(data, data4h) == IsUptrend(data, None)
  {
  }

  // ---------------------------------------------------------------------
  // Scoring rules, applied in order
  // ---------------------------------------------------------------------

  /** What the rules read off the series: the index, the trend and whether
      the 4-hour series decided it, the volume class, and the last values of
      the fast and slow averages. */
  datatype Readings = Readings(
    rsi: real,
    up: bool,
    higher: bool,
    volume: VolumeClass,
    fastEma: real,
    slowEma: real)

  /** Evaluates the indicators the rules consult. */
  function Read(data: seq<Bar>, data4h: Option<seq<Bar>>): Readings
    requires |data| > 0
  {
    var closes := Closes(data);
    Readings(
      Rsi(closes, RsiPeriod),
      IsUptrend(data, data4h),
      UsesHigherTimeframe(data4h),
      AnalyzeVolume(data),
      Last(Ema(closes, FastPeriod)),
      Last(Ema(closes, SlowPeriod)))
  }

  /** The running state of the rules: signal, confidence, messages so far. */
  datatype Score = Score(signal: Signal, confidence: int, signals: seq<Message>)

  /** The trend rule opens the message list with the trend message. */
  function TrendStep(higher: bool, up: bool): Score
  {
    Score(Hold, BaseConfidence, [if higher then HigherTrend(up) else DailyTrend(up)])
  }

  function VolumeStep(s: Score, vol: VolumeClass): Score
  {
    match vol
    case High => s.(signals := s.signals + [HighVolumeConfirmation], confidence := s.confidence + 10)
    case Low => s.(signals := s.signals + [LowVolumeWeakTrend], confidence := s.confidence - 10)
    case Normal => s
  }

  function RsiStep(s: Score, rsi: real, up: bool): Score
  {
    if rsi < 30.0 then
      var s' := s.(signals := s.signals + [RsiOversold]);
      if up then s'.(signal := Buy, confidence := s.confidence + 30)
      else s'.(confidence := s.confidence + 10)
    else if rsi > 70.0 then
      var s' := s.(signals := s.signals + [RsiOverbought]);
      if !up then s'.(signal := Sell, confidence := s.confidence + 30)
      else s'.(confidence := s.confidence + 10)
    else s
  }

  function EmaStep(s: Score, fast: real, slow: real): Score
  {
    if fast > slow then
      s.(signals := s.signals + [EmaAlignment(true)],
         confidence := if s.signal == Buy then s.confidence + 10 else s.confidence)
    else
      s.(signals := s.signals + [EmaAlignment(false)],
         confidence := if s.signal == Sell then s.confidence + 10 else s.confidence)
  }

  /** The four rules in order: trend, volume, RSI, EMA alignment. The signal
      leaves HOLD only in the RSI rule; the uncapped confidence stays within
      [40, 100]; the messages open with the trend and close with the
      alignment. */
  function Decide(rd: Readings): (s: Score)
    ensures 40 <= s.confidence <= 100
    ensures s.signal == Buy <==> rd.rsi < 30.0 && rd.up
    ensures s.signal == Sell <==> rd.rsi > 70.0 && !rd.up
    ensures 2 <= |s.signals| <= 4
    ensures s.signals[0] == (if rd.higher then HigherTrend(rd.up) else DailyTrend(rd.up))
    ensures s.signals[|s.signals| - 1] == EmaAlignment(rd.fastEma > rd.slowEma)
  {
    var s := TrendStep(rd.higher, rd.up);
    var s := VolumeStep(s, rd.volume);
    var s := RsiStep(s, rd.rsi, rd.up);
    EmaStep(s, rd.fastEma, rd.slowEma)
  }

  /** Math.min(confidence, 98). */
  function CapConfidence(c: int): int
  {
    if c < ConfidenceCap then c else ConfidenceCap
  }

  // ---------------------------------------------------------------------
  // Projection
  // ---------------------------------------------------------------------

  /** The random draws, one per projected day, each in [-0.5, 0.5). */
  predicate ValidJitter(jitter: seq<real>)
  {
    |jitter| == HorizonDays && forall i :: 0 <= i < |jitter| ==> -0.5 <= jitter[i] < 0.5
  }

  lemma JitterBound(u: real, price: real)
    requires -0.5 <= u < 0.5
    ensures Abs(u * (price * 0.01)) <= Abs(price) * 0.005
  {
    var p := Abs(price * 0.01);
    assert Abs(price) * 0.005 == 0.5 * p;
    assert Abs(u * (price * 0.01)) == Abs(u) * p;
    assert Abs(u) * p - 0.5 * p == (Abs(u) - 0.5) * p;
    NonposTimesNonneg(Abs(u) - 0.5, p);
  }

  /** The projected point `day` days after lastTime: on the drift line,
      moved by the draw u times one percent of the last price. */
  function ProjectedPoint(lastTime: int, lastPrice: real, drift: real, day: int, u: real): (pt: Point)
    requires -0.5 <= u < 0.5
    ensures pt.time == lastTime + day * SecondsPerDay
    ensures Abs(pt.value - (lastPrice + drift * day as real)) <= Abs(lastPrice) * 0.005
  {
    JitterBound(u, lastPrice);
    Point(lastTime + day * SecondsPerDay, lastPrice + drift * day as real + u * (lastPrice * 0.01))
  }

  /** Seven daily points after lastTime, on the line from lastPrice with
      slope drift per day, each moved by at most half a percent of lastPrice. */
  function Projection(lastTime: int, lastPrice: real, drift: real, jitter: seq<real>): (p: seq<Point>)
    requires ValidJitter(jitter)
    ensures |p| == HorizonDays
    ensures forall i :: 0 <= i < |p| ==> p[i].time == lastTime + (i + 1) * SecondsPerDay
    ensures forall i :: 0 <= i < |p| ==>
      Abs(p[i].value - (lastPrice + drift * (i + 1) as real)) <= Abs(lastPrice) * 0.005
  {
    seq(HorizonDays, i requires 0 <= i < HorizonDays => ProjectedPoint(lastTime, lastPrice, drift, i + 1, jitter[i]))
  }

  /** Later days come later: the projected points follow the last bar in
      strictly increasing time order. */
  lemma ProjectionInOrder(lastTime: int, lastPrice: real, drift: real, jitter: seq<real>)
    requires ValidJitter(jitter)
    ensures var p := Projection(lastTime, lastPrice, drift, jitter);
            forall i, j :: 0 <= i < j < |p| ==> lastTime < p[i].time < p[j].time
  {
    var p := Projection(lastTime, lastPrice, drift, jitter);
    forall i, j | 0 <= i < j < |p|
      ensures lastTime < p[i].time < p[j].time
    {
      assert p[i].time == lastTime + (i + 1) * SecondsPerDay;
      assert p[j].time == lastTime + (j + 1) * SecondsPerDay;
    }
  }

  // ---------------------------------------------------------------------
  // The prediction
  // ---------------------------------------------------------------------

  /** Drift per day of the projection: the last close minus the fast
      average four bars back, over five. */
  function Drift(closes: seq<real>): real
    requires |closes| >= 5
  {
    var ema20 := Ema(closes, FastPeriod);
    (Last(closes) - ema20[|ema20| - 5]) / 5.0
  }

  /** For closes that all lie in [lo, hi], the drift lies in
      [(lo - hi) / 5, (hi - lo) / 5]: it never exceeds a fifth of the price
      range in either direction, so a flat series does not drift at all. */
  lemma DriftBounds(closes: seq<real>, lo: real, hi: real)
    requires |closes| >= 5
    requires forall i :: 0 <= i < |closes| ==> lo <= closes[i] <= hi
    ensures (lo - hi) / 5.0 <= Drift(closes) <= (hi - lo) / 5.0
  {
    var n := |closes|;
    EmaWithinAt(closes, FastPeriod, lo, hi, n - 5);
    assert lo <= closes[n - 1] <= hi;
  }

  /** The predicted path: seven points, one day apart after the last bar,
      in time order, each within half a percent of the last close from the
      line through it with the drift as slope. */
  function PredictedPoints(data: seq<Bar>, jitter: seq<real>): (p: seq<Point>)
    requires |data| >= 5
    requires ValidJitter(jitter)
    ensures |p| == HorizonDays
    ensures forall i :: 0 <= i < HorizonDays ==> p[i].time == data[|data| - 1].time + (i + 1) * SecondsPerDay
    ensures forall i, j :: 0 <= i < j < HorizonDays ==> data[|data| - 1].time < p[i].time < p[j].time
    ensures forall i :: 0 <= i < HorizonDays ==>
      Abs(p[i].value - (data[|data| - 1].close + Drift(Closes(data)) * (i + 1) as real))
        <= Abs(data[|data| - 1].close) * 0.005
  {
    var closes := Closes(data);
    var lastTime := data[|data| - 1].time;
    var lastPrice := Last(closes);
    assert lastPrice == data[|data| - 1].close;
    ProjectionInOrder(lastTime, lastPrice, Drift(closes), jitter);
    Projection(lastTime, lastPrice, Drift(closes), jitter)
  }

  /** The result built from the readings and the projected points: the
      decided signal, the capped confidence, the rounded index, the trend
      as UP or DOWN, and the volume analysis fixed at NORMAL. */
  function Assemble(rd: Readings, points: seq<Point>): (r: ProPredictionResult)
    requires 0.0 <= rd.rsi <= 100.0
    ensures r.base.predictedData == points
    ensures 40 <= r.base.confidence <= ConfidenceCap
    ensures r.base.signal == Buy <==> rd.rsi < 30.0 && rd.up
    ensures r.base.signal == Sell <==> rd.rsi > 70.0 && !rd.up
    ensures r.base.rsiValue == Round(rd.rsi)
    ensures 0 <= r.base.rsiValue <= 100
    ensures rd.rsi == 50.0 ==> r.base.rsiValue == 50
    ensures r.trend4h != Neutral && (r.trend4h == Up <==> rd.up)
    ensures r.volumeAnalysis == Normal
    ensures r.signals == Decide(rd).signals
  {
    var score := Decide(rd);
    ProPredictionResult(
      PredictionResult(points, score.signal, CapConfidence(score.confidence), Round(rd.rsi)),
      if rd.up then Up else Down,
      Normal,
      score.signals)
  }

  function GeneratePrediction(data: seq<Bar>, data4h: Option<seq<Bar>>, jitter: seq<real>): (r: ProPredictionResult)
    requires |data| >= 5
    requires ValidJitter(jitter)
    // confidence: base 50, at most 10 lost to low volume, capped at 98
    ensures 40 <= r.base.confidence <= ConfidenceCap
    // the signal moves off HOLD only in the RSI rule
    ensures r.base.signal == Buy <==> Rsi(Closes(data), RsiPeriod) < 30.0 && IsUptrend(data, data4h)
    ensures r.base.signal == Sell <==> Rsi(Closes(data), RsiPeriod) > 70.0 && !IsUptrend(data, data4h)
    // the index shown is the rounded index, 50 on a short series
    ensures r.base.rsiValue == Round(Rsi(Closes(data), RsiPeriod))
    ensures 0 <= r.base.rsiValue <= 100
    ensures |data| < RsiPeriod + 1 ==> r.base.rsiValue == 50
    // the trend is always decided, and the volume analysis always reads NORMAL
    ensures r.trend4h != Neutral && (r.trend4h == Up <==> IsUptrend(data, data4h))
    ensures r.volumeAnalysis == Normal
    // messages: the trend first, the EMA alignment last, at most two between
    ensures 2 <= |r.signals| <= 4
    ensures r.signals[0] == (if UsesHigherTimeframe(data4h) then HigherTrend(IsUptrend(data, data4h))
                             else DailyTrend(IsUptrend(data, data4h)))
    ensures r.signals[|r.signals| - 1]
         == EmaAlignment(Last(Ema(Closes(data), FastPeriod)) > Last(Ema(Closes(data), SlowPeriod)))
    // the points are the projection from the last bar along the drift
    ensures r.base.predictedData == PredictedPoints(data, jitter)
  {
    Assemble(Read(data, data4h), PredictedPoints(data, jitter))
  }
}
