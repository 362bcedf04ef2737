/** Properties of the prediction that relate several rules or several calls:
    the confidence as a flat sum of bonuses, how confidence ranks the
    signals, which messages appear, what volume can and cannot change, and
    the outcome on a steadily rising market. */
module PredictionFacts {

  import opened Indicators
  import opened Engine

  /** What the volume rule adds to the confidence. */
  function VolumeBonus(vol: VolumeClass): int
  {
    match vol
    case High => 10
    case Low => -10
    case Normal => 0
  }

  /** What the RSI rule adds: 30 when the extreme agrees with the trend
      (oversold in an uptrend, overbought otherwise), 10 when it does not. */
  function RsiBonus(rsi: real, up: bool): int
  {
    if rsi < 30.0 then (if up then 30 else 10)
    else if rsi > 70.0 then (if up then 10 else 30)
    else 0
  }

  /** What the EMA rule adds: 10 when the averages point the same way as a
      BUY or SELL already chosen. */
  function AlignmentBonus(rsi: real, up: bool, bullish: bool): int
  {
    if (bullish && rsi < 30.0 && up) || (!bullish && rsi > 70.0 && !up) then 10 else 0
  }

  /** The confidence as a flat sum of the three bonuses on the base of 50,
      before the cap. */
  function ReferenceConfidence(rd: Readings): int
  {
    BaseConfidence + VolumeBonus(rd.volume) + RsiBonus(rd.rsi, rd.up)
      + AlignmentBonus(rd.rsi, rd.up, rd.fastEma > rd.slowEma)
  }

  /** The rules applied one after another give exactly the flat sum. */
  lemma DecideBreakdown(rd: Readings)
    ensures Decide(rd).confidence == ReferenceConfidence(rd)
  {
    var s0 := TrendStep(rd.higher, rd.up);
    var s1 := VolumeStep(s0, rd.volume);
    assert s1.signal == Hold && s1.confidence == BaseConfidence + VolumeBonus(rd.volume);
    var s2 := RsiStep(s1, rd.rsi, rd.up);
    assert s2.confidence == s1.confidence + RsiBonus(rd.rsi, rd.up);
    assert s2.signal == Buy <==> rd.rsi < 30.0 && rd.up;
    assert s2.signal == Sell <==> rd.rsi > 70.0 && !rd.up;
  }

  /** The published confidence is the flat sum capped at 98. */
  lemma ConfidenceBreakdown(data: seq<Bar>, data4h: Option<seq<Bar>>, jitter: seq<real>)
    requires |data| >= 5
    requires ValidJitter(jitter)
    ensures var c := ReferenceConfidence(Read(data, data4h));
            GeneratePrediction(data, data4h, jitter).base.confidence == if c < ConfidenceCap then c else ConfidenceCap
  {
    DecideBreakdown(Read(data, data4h));
  }

  /** A BUY or SELL always carries at least 70, a HOLD at most 70: the
      confidence never ranks a HOLD above a trade signal. */
  lemma ConfidenceRanksSignals(data: seq<Bar>, data4h: Option<seq<Bar>>, jitter: seq<real>)
    requires |data| >= 5
    requires ValidJitter(jitter)
    ensures var r := GeneratePrediction(data, data4h, jitter);
            (r.base.signal != Hold ==> r.base.confidence >= 70) &&
            (r.base.signal == Hold ==> r.base.confidence <= 70)
  {
    ConfidenceBreakdown(data, data4h, jitter);
  }

  /** The message the volume rule adds, if any. */
  function VolumeMessages(vol: VolumeClass): seq<Message>
  {
    match vol
    case High => [HighVolumeConfirmation]
    case Low => [LowVolumeWeakTrend]
    case Normal => []
  }

  /** The message the RSI rule adds, if any. */
  function RsiMessages(rsi: real): seq<Message>
  {
    if rsi < 30.0 then [RsiOversold] else if rsi > 70.0 then [RsiOverbought] else []
  }

  /** The messages come in rule order: trend, volume, RSI, EMA alignment. */
  lemma MessagesInRuleOrder(rd: Readings)
    ensures var s := Decide(rd);
            s.signals == [s.signals[0]] + VolumeMessages(rd.volume) + RsiMessages(rd.rsi)
                         + [EmaAlignment(rd.fastEma > rd.slowEma)]
  {
    var s0 := TrendStep(rd.higher, rd.up);
    var s1 := VolumeStep(s0, rd.volume);
    var s2 := RsiStep(s1, rd.rsi, rd.up);
    assert s1.signals == s0.signals + VolumeMessages(rd.volume);
    assert s2.signals == s0.signals + VolumeMessages(rd.volume) + RsiMessages(rd.rsi);
  }

  lemma MembershipInLayout(all: seq<Message>, head: Message, v: seq<Message>, m: seq<Message>, e: seq<Message>)
    requires all == [head] + v + m + e
    ensures forall x :: x in all <==> x == head || x in v || x in m || x in e
  {
  }

  /** A message appears in a decision exactly when its rule fired. */
  lemma DecisionMessages(rd: Readings)
    ensures var m := Decide(rd).signals;
            && (HighVolumeConfirmation in m <==> rd.volume == High)
            && (LowVolumeWeakTrend in m <==> rd.volume == Low)
            && (RsiOversold in m <==> rd.rsi < 30.0)
            && (RsiOverbought in m <==> rd.rsi > 70.0)
            && |m| == 2 + (if rd.volume == Normal then 0 else 1) + (if rd.rsi < 30.0 || rd.rsi > 70.0 then 1 else 0)
  {
    MessagesInRuleOrder(rd);
    var s := Decide(rd).signals;
    var head := s[0];
    assert head.DailyTrend? || head.HigherTrend?;
    MembershipInLayout(s, head, VolumeMessages(rd.volume), RsiMessages(rd.rsi), [EmaAlignment(rd.fastEma > rd.slowEma)]);
  }

  /** A message appears exactly when its rule fired, and nothing else is
      added: the list holds the trend, at most one volume message, at most
      one RSI message and the EMA alignment. */
  lemma MessagesMatchRules(data: seq<Bar>, data4h: Option<seq<Bar>>, jitter: seq<real>)
    requires |data| >= 5
    requires ValidJitter(jitter)
    ensures var r := GeneratePrediction(data, data4h, jitter);
            var rsi := Rsi(Closes(data), RsiPeriod);
            var vol := AnalyzeVolume(data);
            && (HighVolumeConfirmation in r.signals <==> vol == High)
            && (LowVolumeWeakTrend in r.signals <==> vol == Low)
            && (RsiOversold in r.signals <==> rsi < 30.0)
            && (RsiOverbought in r.signals <==> rsi > 70.0)
            && |r.signals| == 2 + (if vol == Normal then 0 else 1) + (if rsi < 30.0 || rsi > 70.0 then 1 else 0)
  {
    var rd := Read(data, data4h);
    assert GeneratePrediction(data, data4h, jitter).signals == Decide(rd).signals;
    DecisionMessages(rd);
  }

  /** Changing only the volume class of the readings leaves the signal
      alone and moves the confidence by at most 20. */
  lemma VolumeOnlyMovesDecision(rd: Readings, vol: VolumeClass)
    ensures var d := Decide(rd);
            var e := Decide(rd.(volume := vol));
            && e.signal == d.signal
            && -20 <= e.confidence - d.confidence <= 20
  {
    DecideBreakdown(rd);
    DecideBreakdown(rd.(volume := vol));
  }

  /** The readings of two series with the same closes differ at most in the
      volume class. */
  lemma ReadingsIgnoreVolume(data: seq<Bar>, other: seq<Bar>, data4h: Option<seq<Bar>>)
    requires |data| > 0 && |other| == |data|
    requires forall i :: 0 <= i < |data| ==> other[i].close == data[i].close
    ensures Read(other, data4h) == Read(data, data4h).(volume := AnalyzeVolume(other))
  {
    assert Closes(other) == Closes(data);
    assert AboveSlowEma(other) == AboveSlowEma(data);
  }

  /** Volume moves only the confidence (by at most 20) and the volume
      message: two series with the same times and closes get the same
      signal, trend, index and projection. */
  lemma VolumeOnlyMovesConfidence(data: seq<Bar>, other: seq<Bar>, data4h: Option<seq<Bar>>, jitter: seq<real>)
    requires |data| >= 5 && |other| == |data|
    requires forall i :: 0 <= i < |data| ==> other[i].close == data[i].close && other[i].time == data[i].time
    requires ValidJitter(jitter)
    ensures var r := GeneratePrediction(data, data4h, jitter);
            var q := GeneratePrediction(other, data4h, jitter);
            && q.base.signal == r.base.signal
            && q.base.rsiValue == r.base.rsiValue
            && q.base.predictedData == r.base.predictedData
            && q.trend4h == r.trend4h
            && -20 <= q.base.confidence - r.base.confidence <= 20
  {
    var rd := Read(data, data4h);
    ReadingsIgnoreVolume(data, other, data4h);
    VolumeOnlyMovesDecision(rd, AnalyzeVolume(other));
    assert Closes(other) == Closes(data);
  }

  /** Total of n equal values. */
  lemma ConstantWindowSum(s: seq<real>, v: real)
    requires forall i :: 0 <= i < |s| ==> s[i] == v
    ensures Sum(s) == |s| as real * v
  {
    SumBounds(s, v, v);
  }

  /** Steady volume, never negative, is classified NORMAL. */
  lemma SteadyVolumeIsNormal(data: seq<Bar>, v: real)
    requires v >= 0.0
    requires forall i :: 0 <= i < |data| ==> data[i].volume == v
    ensures AnalyzeVolume(data) == Normal
  {
    var n := |data|;
    if n >= 2 * VolumeWindow {
      assert data[n - VolumeWindow..] == data[n - VolumeWindow..n];
      ConstantWindowSum(Volumes(data[n - VolumeWindow..n]), v);
      ConstantWindowSum(Volumes(data[n - 2 * VolumeWindow..n - VolumeWindow]), v);
      assert RecentVolume(data) == 5.0 * v;
      assert OlderVolume(data) == 5.0 * v;
    }
  }

  /** A strictly rising series long enough for the index has index 100. */
  lemma RisingIndexIsFull(closes: seq<real>)
    requires |closes| >= RsiPeriod + 1
    requires StrictlyIncreasing(closes)
    ensures Rsi(closes, RsiPeriod) == 100.0
  {
    var n := |closes|;
    assert forall i :: n - RsiPeriod <= i < n ==> NoFallAt(closes, i);
  }

  /** On a strictly rising series the projection drifts upward: the fast
      average four bars back is at most that bar's close, which is below the
      last close. */
  lemma RisingDriftIsPositive(closes: seq<real>)
    requires |closes| >= 5
    requires StrictlyIncreasing(closes)
    ensures Drift(closes) > 0.0
  {
    var n := |closes|;
    var ema20 := Ema(closes, FastPeriod);
    if n - 5 > 0 {
      EmaLagsAt(closes, FastPeriod, n - 5);
    }
    assert ema20[n - 5] <= closes[n - 5] < closes[n - 1];
  }

  /** On a strictly rising daily series of at least fifteen bars with
      steady volume, judged without a usable 4-hour series: the index is 100,
      the market is overbought in an uptrend, so the signal stays HOLD with
      confidence 60; the averages are bullishly aligned and the projection
      drifts upward. */
  lemma RisingMarket(data: seq<Bar>, data4h: Option<seq<Bar>>, jitter: seq<real>, v: real)
    requires |data| >= RsiPeriod + 1
    requires StrictlyIncreasing(Closes(data))
    requires v >= 0.0 && forall i :: 0 <= i < |data| ==> data[i].volume == v
    requires !UsesHigherTimeframe(data4h)
    requires ValidJitter(jitter)
    ensures var r := GeneratePrediction(data, data4h, jitter);
            && r.base.signal == Hold
            && r.base.confidence == 60
            && r.base.rsiValue == 100
            && r.trend4h == Up
            && r.signals == [DailyTrend(true), RsiOverbought, EmaAlignment(true)]
            && Drift(Closes(data)) > 0.0
  {
    var closes := Closes(data);
    var n := |closes|;
    RisingIndexIsFull(closes);
    EmaLagsAt(closes, SlowPeriod, n - 1);
    assert IsUptrend(data, data4h);
    FastEmaLeadsRising(closes, FastPeriod, SlowPeriod);
    SteadyVolumeIsNormal(data, v);
    var rd := Read(data, data4h);
    assert rd.rsi == 100.0 && rd.up && !rd.higher && rd.volume == Normal && rd.fastEma > rd.slowEma;
    DecideBreakdown(rd);
    MessagesInRuleOrder(rd);
    RisingDriftIsPositive(closes);
  }
}
