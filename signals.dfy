/** The signal and scoring engine: windowed z-score, regime classification,
    volume and flow signals, the leverage score, the manipulation hint, the
    regulatory score and the weighted composite. Every operation is total and
    returns a neutral value on empty input. */
module Signals {
  import opened Common
  import opened Numeric

  /** The three regimes; the source spells them "low", "normal" and "high". */
  datatype Regime = Low | Normal | High {
    function Name(): string {
      match this
      case Low => "low"
      case Normal => "normal"
      case High => "high"
    }

    /** Position in the order low < normal < high. */
    function Rank(): nat {
      match this
      case Low => 0
      case Normal => 1
      case High => 2
    }
  }

  datatype VolumeSignal = VolumeSignal(zscore: real, regime: Regime, baseline: real, latest: real)

  datatype FlowSignal = FlowSignal(netFlow: real, zscore: real, regime: Regime)

  /** One observation of derivatives state (the timestamp is not modelled).
      `funding` is tested for `None`, `lsRatio` for falsiness, so both are optional. */
  datatype OIMetrics = OIMetrics(
    exchange: string,
    oi: real,
    funding: Option<real>,
    lsRatio: Option<real>,
    volume: Option<real>)

  /** The detector's output; the caller stamps the time, which is not modelled. */
  datatype ManipulationHint = ManipulationHint(
    depthImbalance: real,
    rapidWallChange: bool,
    riskScore: real,
    note: string)

  /** The number of most recent observations the z-score looks at. */
  const ZScoreWindow: nat := 30
  /** The number of most recent volumes the volume baseline averages. */
  const BaselineWindow: nat := 24

  // ---------------------------------------------------------------------------
  // Statistical normalizer

  /** The divisor of the z-score: the sample standard deviation of the window,
      1.0 for a single element, and 1.0 in place of a zero deviation. */
  function EffectiveStd(w: seq<real>, sqrt: real -> real): (std: real)
    requires |w| > 0 && IsSquareRoot(sqrt)
    ensures std > 0.0
    ensures |w| == 1 ==> std == 1.0
    ensures |w| > 1 && SampleVariance(w) > 0.0 ==> std * std == SampleVariance(w)
    ensures |w| > 1 && SampleVariance(w) == 0.0 ==> std == 1.0
  {
    if |w| > 1 then
      var v := SampleVariance(w);
      var root := sqrt(v);
      RootOfZero(root, v);
      if root != 0.0 then root else 1.0
    else 1.0
  }

  /** `compute_zscore`: how far the last observation lies from the mean of the
      last 30, in sample standard deviations. */
  function ZScore(series: seq<real>, sqrt: real -> real): (z: real)
    requires IsSquareRoot(sqrt)
    ensures |series| <= 1 ==> z == 0.0
    ensures |series| > 0 ==> (z > 0.0 <==> Last(series) > Mean(LastN(series, ZScoreWindow)))
    ensures |series| > 0 ==> (z < 0.0 <==> Last(series) < Mean(LastN(series, ZScoreWindow)))
    ensures |series| > 0 ==> (z == 0.0 <==> Last(series) == Mean(LastN(series, ZScoreWindow)))
    ensures |series| > 0 ==>
      z * EffectiveStd(LastN(series, ZScoreWindow), sqrt) == Last(series) - Mean(LastN(series, ZScoreWindow))
  {
    var w := LastN(series, ZScoreWindow);
    if |w| == 0 then 0.0
    else
      var d := w[|w| - 1] - Mean(w);
      var std := EffectiveStd(w, sqrt);
      MeanOfSingleton(w);
      QuotientSign(d, std);
      d / std
  }

  lemma MeanOfSingleton(s: seq<real>)
    ensures |s| == 1 ==> Mean(s) == s[0]
  {
    if |s| == 1 {
      MeanOfConstant(s, s[0]);
    }
  }

  /** A window whose values are all equal has z-score zero. */
  lemma ZScoreOfConstantWindow(series: seq<real>, sqrt: real -> real, c: real)
    requires IsSquareRoot(sqrt)
    requires |series| > 0 && Constant(LastN(series, ZScoreWindow), c)
    ensures ZScore(series, sqrt) == 0.0
  {
    MeanOfConstant(LastN(series, ZScoreWindow), c);
  }

  /** Only the last 30 observations matter: history before them never changes the z-score. */
  lemma ZScoreIgnoresHistory(history: seq<real>, series: seq<real>, sqrt: real -> real)
    requires IsSquareRoot(sqrt)
    requires |series| >= ZScoreWindow
    ensures ZScore(history + series, sqrt) == ZScore(series, sqrt)
  {
    assert LastN(history + series, ZScoreWindow) == LastN(series, ZScoreWindow);
  }

  /** A last observation above every other one in its window has a positive z-score. */
  lemma ZScorePositiveAtNewHigh(series: seq<real>, sqrt: real -> real)
    requires IsSquareRoot(sqrt) && |series| >= 2
    requires var w := LastN(series, ZScoreWindow);
      forall i :: 0 <= i < |w| - 1 ==> w[i] < w[|w| - 1]
    ensures ZScore(series, sqrt) > 0.0
  {
    MeanBelowNewHigh(LastN(series, ZScoreWindow));
  }

  /** Ten volumes of 100 followed by one of 200 give a positive volume z-score. */
  lemma VolumeSpikeExample(sqrt: real -> real)
    requires IsSquareRoot(sqrt)
    ensures ComputeVolumeSignal(seq(10, _ => 100.0) + [200.0], sqrt).zscore > 0.0
  {
    var v := seq(10, _ => 100.0) + [200.0];
    assert LastN(v, ZScoreWindow) == v;
    ZScorePositiveAtNewHigh(v, sqrt);
  }

  // ---------------------------------------------------------------------------
  // Regime classifier

  /** `classify_regime`: "high" is tested first, and both thresholds are inclusive. */
  function ClassifyRegime(zscore: real, low: real := -0.8, high: real := 0.8): (r: Regime)
    ensures r == High <==> zscore >= high
    ensures r == Low <==> zscore < high && zscore <= low
    ensures r == Normal <==> low < zscore < high
  {
    if zscore >= high then High
    else if zscore <= low then Low
    else Normal
  }

  /** The stored regime strings are exactly "low", "normal" and "high", and the string
      identifies the regime. */
  lemma RegimeNameIdentifies(r1: Regime, r2: Regime)
    ensures r1.Name() in {"low", "normal", "high"}
    ensures r1.Name() == r2.Name() <==> r1 == r2
  {
    assert "low"[0] != "normal"[0] && "low"[0] != "high"[0] && "normal"[0] != "high"[0];
  }

  /** A larger z-score never gets a lower regime, whatever the thresholds. */
  lemma ClassifyRegimeMonotone(z1: real, z2: real, low: real, high: real)
    requires z1 <= z2
    ensures ClassifyRegime(z1, low, high).Rank() <= ClassifyRegime(z2, low, high).Rank()
  {
  }

  /** The default thresholds: a tie at either boundary gets the extreme regime. */
  lemma DefaultRegimeBoundaries()
    ensures ClassifyRegime(0.8) == High
    ensures ClassifyRegime(-0.8) == Low
    ensures ClassifyRegime(0.0) == Normal
    ensures ClassifyRegime(0.79) == Normal && ClassifyRegime(-0.79) == Normal
  {
  }

  // ---------------------------------------------------------------------------
  // Volume and flow signals

  /** `compute_volume_signal` */
  function ComputeVolumeSignal(volumes: seq<real>, sqrt: real -> real): (sig: VolumeSignal)
    requires IsSquareRoot(sqrt)
    ensures volumes == [] ==> sig == VolumeSignal(0.0, Normal, 0.0, 0.0)
    ensures volumes != [] ==> sig.zscore == ZScore(volumes, sqrt) && sig.latest == Last(volumes)
    ensures volumes != [] ==> sig.baseline == Mean(LastN(volumes, BaselineWindow))
    ensures sig.regime == ClassifyRegime(sig.zscore)
  {
    if volumes == [] then VolumeSignal(0.0, Normal, 0.0, 0.0)
    else
      var z := ZScore(volumes, sqrt);
      var regime := ClassifyRegime(z);
      var baseline := if |volumes| >= BaselineWindow
        then Mean(volumes[|volumes| - BaselineWindow..])
        else Mean(volumes);
      VolumeSignal(z, regime, baseline, Last(volumes))
  }

  /** The baseline lies between the smallest and the largest of the volumes it averages. */
  lemma VolumeBaselineBounds(volumes: seq<real>, sqrt: real -> real)
    requires IsSquareRoot(sqrt)
    requires volumes != []
    ensures var w := LastN(volumes, BaselineWindow);
      MinOf(w) <= ComputeVolumeSignal(volumes, sqrt).baseline <= MaxOf(w)
  {
    MeanBetweenMinAndMax(LastN(volumes, BaselineWindow));
  }

  /** `compute_flow_signal` */
  function ComputeFlowSignal(netFlows: seq<real>, sqrt: real -> real): (sig: FlowSignal)
    requires IsSquareRoot(sqrt)
    ensures netFlows == [] ==> sig == FlowSignal(0.0, 0.0, Normal)
    ensures netFlows != [] ==> sig.zscore == ZScore(netFlows, sqrt) && sig.netFlow == Last(netFlows)
    ensures sig.regime == ClassifyRegime(sig.zscore)
  {
    if netFlows == [] then FlowSignal(0.0, 0.0, Normal)
    else
      var z := ZScore(netFlows, sqrt);
      FlowSignal(Last(netFlows), z, ClassifyRegime(z))
  }

  /** Net flows -50, -20, 10, 80: the net flow is the last one, 80, and since it tops
      the window the z-score is positive, so the regime reads "normal" or "high". */
  lemma FlowSignalExample(sqrt: real -> real)
    requires IsSquareRoot(sqrt)
    ensures var sig := ComputeFlowSignal([-50.0, -20.0, 10.0, 80.0], sqrt);
      sig.netFlow == 80.0 && sig.zscore > 0.0 && sig.regime.Name() in {"normal", "high"}
  {
    var v := [-50.0, -20.0, 10.0, 80.0];
    assert LastN(v, ZScoreWindow) == v;
    ZScorePositiveAtNewHigh(v, sqrt);
  }

  // ---------------------------------------------------------------------------
  // Leverage / open-interest scorer

  /** The OI-change term: the percentage change from the previous open interest,
      or 0 without a previous point or when the previous open interest is 0. */
  function OIChangePct(values: seq<OIMetrics>): (change: real)
    ensures |values| <= 1 ==> change == 0.0
    ensures |values| > 1 && values[|values| - 2].oi == 0.0 ==> change == 0.0
    ensures |values| > 1 && values[|values| - 2].oi != 0.0 ==>
      change * values[|values| - 2].oi == (values[|values| - 1].oi - values[|values| - 2].oi) * 100.0
  {
    if |values| > 1 then
      var latest := values[|values| - 1];
      var prev := values[|values| - 2];
      if prev.oi != 0.0 then (latest.oi - prev.oi) / prev.oi * 100.0 else 0.0
    else 0.0
  }

  /** The funding rate in percent, or 0 when funding is absent. */
  function FundingBias(p: OIMetrics): (bias: real)
    ensures p.funding.None? ==> bias == 0.0
    ensures p.funding.Some? ==> bias / 100.0 == p.funding.value
    ensures bias > 0.0 <==> p.funding.Some? && p.funding.value > 0.0
  {
    match p.funding
    case Some(f) => f * 100.0
    case None => 0.0
  }

  /** How far the long/short ratio is from 1, in percent; 0 when the ratio is absent or zero. */
  function LsSkew(p: OIMetrics): (skew: real)
    ensures p.lsRatio.None? || p.lsRatio == Some(0.0) ==> skew == 0.0
    ensures p.lsRatio.Some? && p.lsRatio.value != 0.0 ==> skew / 100.0 == p.lsRatio.value - 1.0
    ensures skew > 0.0 <==> p.lsRatio.Some? && p.lsRatio.value > 1.0
    ensures skew < 0.0 <==> p.lsRatio.Some? && p.lsRatio.value != 0.0 && p.lsRatio.value < 1.0
  {
    match p.lsRatio
    case Some(r) => if r != 0.0 then (r - 1.0) * 100.0 else 0.0
    case None => 0.0
  }

  /** The leverage score before clamping. */
  function RawLeverage(values: seq<OIMetrics>): (raw: real)
    requires |values| > 0
    ensures var latest := values[|values| - 1];
      OIChangePct(values) >= 0.0 && FundingBias(latest) >= 0.0 && LsSkew(latest) >= 0.0 ==> raw >= 50.0
    ensures var latest := values[|values| - 1];
      OIChangePct(values) <= 0.0 && FundingBias(latest) <= 0.0 && LsSkew(latest) <= 0.0 ==> raw <= 50.0
  {
    var latest := values[|values| - 1];
    50.0 + 0.2 * OIChangePct(values) + 0.3 * FundingBias(latest) + 0.1 * LsSkew(latest)
  }

  /** `compute_oi_leverage_score` */
  function OILeverageScore(metrics: seq<OIMetrics>): (score: real)
    ensures 0.0 <= score <= 100.0
    ensures metrics == [] ==> score == 50.0
    ensures metrics != [] ==> score == Clip(RawLeverage(metrics), 0.0, 100.0)
  {
    if metrics == [] then 50.0 else Clip(RawLeverage(metrics), 0.0, 100.0)
  }

  /** A single observation has no OI-change contribution. */
  lemma LeverageSinglePoint(p: OIMetrics)
    ensures OIChangePct([p]) == 0.0
    ensures OILeverageScore([p]) == Clip(50.0 + 0.3 * FundingBias(p) + 0.1 * LsSkew(p), 0.0, 100.0)
  {
  }

  /** A previous open interest of 0 contributes no OI change, and a long/short ratio
      of 0 counts as absent. */
  lemma LeverageZeroGuards(history: seq<OIMetrics>, prev: OIMetrics, latest: OIMetrics)
    requires prev.oi == 0.0
    ensures OIChangePct(history + [prev, latest]) == 0.0
    ensures latest.lsRatio == Some(0.0) ==> LsSkew(latest) == 0.0
  {
    var values := history + [prev, latest];
    assert values[|values| - 2] == prev;
  }

  /** Worked example: OI 1000 -> 1200, funding 0.02 and ratio 1.2 on the latest point. */
  lemma LeverageExample()
    ensures OILeverageScore([
      OIMetrics("binance", 1000.0, Some(0.01), Some(1.1), Some(2000.0)),
      OIMetrics("binance", 1200.0, Some(0.02), Some(1.2), Some(2500.0))]) == 56.6
  {
    var values := [
      OIMetrics("binance", 1000.0, Some(0.01), Some(1.1), Some(2000.0)),
      OIMetrics("binance", 1200.0, Some(0.02), Some(1.2), Some(2500.0))];
    assert OIChangePct(values) == 20.0;
    assert FundingBias(values[1]) == 2.0;
    assert LsSkew(values[1]) == 20.0;
  }

  /** Higher funding on the latest point never lowers the score. */
  lemma LeverageMonotoneInFunding(history: seq<OIMetrics>, latest: OIMetrics, f1: real, f2: real)
    requires f1 <= f2
    ensures OILeverageScore(history + [latest.(funding := Some(f1))])
         <= OILeverageScore(history + [latest.(funding := Some(f2))])
  {
    var v1 := history + [latest.(funding := Some(f1))];
    var v2 := history + [latest.(funding := Some(f2))];
    assert OIChangePct(v1) == OIChangePct(v2) by {
      if |v1| > 1 {
        assert v1[|v1| - 2] == v2[|v2| - 2];
      }
    }
    assert RawLeverage(v1) <= RawLeverage(v2);
    ClipMonotone(RawLeverage(v1), RawLeverage(v2), 0.0, 100.0);
  }

  // ---------------------------------------------------------------------------
  // Manipulation hint detector

  const WallThreshold: real := 0.5

  /** The note, by priority: wall change with spike, wall change alone, otherwise calm. */
  function HintNote(rapidWallChange: bool, volumeSpike: bool): (note: string)
    ensures note == "Depth skew + spike" <==> rapidWallChange && volumeSpike
    ensures note == "Skewed depth" <==> rapidWallChange && !volumeSpike
    ensures note == "Calm" <==> !rapidWallChange
  {
    if rapidWallChange && volumeSpike then "Depth skew + spike"
    else if rapidWallChange then "Skewed depth"
    else "Calm"
  }

  /** `compute_manipulation_hint` */
  function ComputeManipulationHint(stats: map<string, real>, volumeSpike: bool): (h: ManipulationHint)
    ensures h.depthImbalance == Get(stats, "depth_imbalance", 0.0)
    ensures h.rapidWallChange <==> Abs(h.depthImbalance) > WallThreshold
    ensures 0.0 <= h.riskScore <= 1.0
    ensures volumeSpike ==> h.riskScore >= 0.5
    ensures !volumeSpike && Abs(h.depthImbalance) <= 2.0 ==> h.riskScore == 0.5 * Abs(h.depthImbalance)
    ensures volumeSpike && Abs(h.depthImbalance) <= 1.0 ==> h.riskScore == 0.5 * Abs(h.depthImbalance) + 0.5
    ensures Abs(h.depthImbalance) >= 2.0 || (volumeSpike && Abs(h.depthImbalance) >= 1.0) ==> h.riskScore == 1.0
    ensures h.note == "Depth skew + spike" <==> h.rapidWallChange && volumeSpike
    ensures h.note == "Skewed depth" <==> h.rapidWallChange && !volumeSpike
    ensures h.note == "Calm" <==> !h.rapidWallChange
  {
    var d := Get(stats, "depth_imbalance", 0.0);
    var rapid := Abs(d) > WallThreshold;
    var risk := 0.5 * Abs(d) + (if volumeSpike then 0.5 else 0.0);
    ManipulationHint(d, rapid, Clip(risk, 0.0, 1.0), HintNote(rapid, volumeSpike))
  }

  /** A volume spike without a wall change leaves the note "Calm" while the risk is at least 0.5. */
  lemma SpikeWithoutWallIsCalm(stats: map<string, real>)
    requires Abs(Get(stats, "depth_imbalance", 0.0)) <= WallThreshold
    ensures ComputeManipulationHint(stats, true).note == "Calm"
    ensures ComputeManipulationHint(stats, true).riskScore >= 0.5
    ensures ComputeManipulationHint(stats, true).riskScore
         == ComputeManipulationHint(stats, false).riskScore + 0.5
  {
  }

  /** No statistics and no spike: zero risk, no wall change, "Calm". */
  lemma ManipulationHintDefault()
    ensures ComputeManipulationHint(map[], false) == ManipulationHint(0.0, false, 0.0, "Calm")
  {
  }

  /** The risk grows with the size of the imbalance and with the spike flag. */
  lemma ManipulationRiskMonotone(s1: map<string, real>, s2: map<string, real>, spike1: bool, spike2: bool)
    requires Abs(Get(s1, "depth_imbalance", 0.0)) <= Abs(Get(s2, "depth_imbalance", 0.0))
    requires spike1 ==> spike2
    ensures ComputeManipulationHint(s1, spike1).riskScore <= ComputeManipulationHint(s2, spike2).riskScore
  {
    var d1 := Get(s1, "depth_imbalance", 0.0);
    var d2 := Get(s2, "depth_imbalance", 0.0);
    ClipMonotone(0.5 * Abs(d1) + (if spike1 then 0.5 else 0.0),
                 0.5 * Abs(d2) + (if spike2 then 0.5 else 0.0), 0.0, 1.0);
  }

  // ---------------------------------------------------------------------------
  // Regulatory sentiment aggregator

  /** The score under `key` of each event, 0.0 where the event lacks it. */
  function Column(events: seq<map<string, real>>, key: string): (col: seq<real>)
    ensures |col| == |events|
    ensures forall i :: 0 <= i < |events| ==> col[i] == Get(events[i], key, 0.0)
  {
    seq(|events|, i requires 0 <= i < |events| => Get(events[i], key, 0.0))
  }

  /** `compute_regulatory_score` */
  function ComputeRegulatoryScore(events: seq<map<string, real>>): (score: real)
    ensures 0.0 <= score <= 100.0
    ensures events == [] ==> score == 25.0
    ensures events != [] ==>
      var threat := Mean(Column(events, "regulatory_threat"));
      var support := Mean(Column(events, "regulatory_support"));
      (threat == support ==> score == 50.0) &&
      (threat < support ==> score > 50.0) &&
      (threat > support ==> score < 50.0)
  {
    if events == [] then 25.0
    else
      var threat := Mean(Column(events, "regulatory_threat"));
      var support := Mean(Column(events, "regulatory_support"));
      Clip(50.0 + (support - threat) * 50.0, 0.0, 100.0)
  }

  /** Events that carry neither regulatory key (such as untagged events, read as empty tags) give 50. */
  lemma RegulatoryNeutralEvents(events: seq<map<string, real>>)
    requires events != []
    requires forall i :: 0 <= i < |events| ==>
      "regulatory_threat" !in events[i] && "regulatory_support" !in events[i]
    ensures ComputeRegulatoryScore(events) == 50.0
  {
    MeanOfConstant(Column(events, "regulatory_threat"), 0.0);
    MeanOfConstant(Column(events, "regulatory_support"), 0.0);
  }

  /** When every classification score lies in [0, 1] the clamp never acts. */
  lemma RegulatoryUnclampedForUnitScores(events: seq<map<string, real>>)
    requires events != []
    requires forall i :: 0 <= i < |events| ==>
      0.0 <= Get(events[i], "regulatory_threat", 0.0) <= 1.0 &&
      0.0 <= Get(events[i], "regulatory_support", 0.0) <= 1.0
    ensures ComputeRegulatoryScore(events)
         == 50.0 + (Mean(Column(events, "regulatory_support")) - Mean(Column(events, "regulatory_threat"))) * 50.0
  {
    MeanBounds(Column(events, "regulatory_threat"), 0.0, 1.0);
    MeanBounds(Column(events, "regulatory_support"), 0.0, 1.0);
  }

  // ---------------------------------------------------------------------------
  // Composite score aggregator

  /** The five weights, one per sub-score. */
  datatype Weights = Weights(flow: real, oi: real, volume: real, manipulation: real, regulatory: real) {
    function Total(): real { flow + oi + volume + manipulation + regulatory }
    ghost predicate NonNegative() {
      flow >= 0.0 && oi >= 0.0 && volume >= 0.0 && manipulation >= 0.0 && regulatory >= 0.0
    }
  }

  const DefaultWeights: Weights := Weights(0.3, 0.25, 0.2, 0.15, 0.1)

  /** The weights in use: the defaults when no map or an empty map is given, otherwise
      the map's five entries, looked up in the order flow, oi, volume, manipulation,
      regulatory; the first missing one raises `KeyError`. */
  function ResolveWeights(weights: Option<map<string, real>>): (r: Result<Weights>)
    ensures weights.None? || weights == Some(map[]) ==> r == Ok(DefaultWeights)
    ensures weights.Some? && weights.value != map[] ==>
      var m := weights.value;
      (r.Ok? <==> "flow" in m && "oi" in m && "volume" in m && "manipulation" in m && "regulatory" in m) &&
      (r.Ok? ==> r.value == Weights(m["flow"], m["oi"], m["volume"], m["manipulation"], m["regulatory"])) &&
      (r.Err? ==> r.error.KeyError? && r.error.key !in m)
  {
    match weights
    case None => Ok(DefaultWeights)
    case Some(m) =>
      if m == map[] then Ok(DefaultWeights)
      else if "flow" !in m then Err(KeyError("flow"))
      else if "oi" !in m then Err(KeyError("oi"))
      else if "volume" !in m then Err(KeyError("volume"))
      else if "manipulation" !in m then Err(KeyError("manipulation"))
      else if "regulatory" !in m then Err(KeyError("regulatory"))
      else Ok(Weights(m["flow"], m["oi"], m["volume"], m["manipulation"], m["regulatory"]))
  }

  /** The weighted sum, with the manipulation score inverted: when every sub-score
      agrees with the inverted manipulation score, the sum is that score times the
      total weight. */
  function WeightedTotal(flow: real, oi: real, volume: real, manipulation: real, regulatory: real, w: Weights): (total: real)
    ensures flow == oi == volume == regulatory == 100.0 - manipulation ==> total == flow * w.Total()
  {
    flow * w.flow + oi * w.oi + volume * w.volume + (100.0 - manipulation) * w.manipulation
      + regulatory * w.regulatory
  }

  /** `aggregate_scores` */
  function AggregateScores(
    flow: real, oi: real, volume: real, manipulation: real, regulatory: real,
    weights: Option<map<string, real>> := None): (r: Result<real>)
    ensures r.Ok? <==> ResolveWeights(weights).Ok?
    ensures r.Err? ==> r.error == ResolveWeights(weights).error
    ensures r.Ok? ==> 0.0 <= r.value <= 100.0
    ensures r.Ok? ==>
      r.value == Clip(WeightedTotal(flow, oi, volume, manipulation, regulatory, ResolveWeights(weights).value), 0.0, 100.0)
  {
    match ResolveWeights(weights)
    case Err(e) => Err(e)
    case Ok(w) => Ok(Clip(WeightedTotal(flow, oi, volume, manipulation, regulatory, w), 0.0, 100.0))
  }

  /** The default weights sum to 1. */
  lemma DefaultWeightsSumToOne()
    ensures DefaultWeights.Total() == 1.0 && DefaultWeights.NonNegative()
  {
  }

  /** Worked example with the default weights: 18 + 13.75 + 10 + 12 + 4. */
  lemma AggregateExample()
    ensures AggregateScores(60.0, 55.0, 50.0, 20.0, 40.0) == Ok(57.75)
  {
  }

  /** `x * w` together with its bounds, for a score `x` in [0, 100] and a weight `w >= 0`. */
  lemma ScaledBounds(x: real, w: real) returns (p: real)
    requires 0.0 <= x <= 100.0 && w >= 0.0
    ensures p == x * w
    ensures 0.0 <= p <= 100.0 * w
  {
    ProductNonNegative(x, w);
    ProductNonNegative(100.0 - x, w);
    p := x * w;
  }

  lemma SumOfScaledBounds(a: real, b: real, c: real, d: real, e: real, w: Weights)
    requires w.Total() == 1.0
    requires 0.0 <= a <= 100.0 * w.flow && 0.0 <= b <= 100.0 * w.oi && 0.0 <= c <= 100.0 * w.volume
    requires 0.0 <= d <= 100.0 * w.manipulation && 0.0 <= e <= 100.0 * w.regulatory
    ensures 0.0 <= a + b + c + d + e <= 100.0
  {
  }

  /** Non-negative weights summing to 1 and sub-scores in [0, 100] give a weighted
      total already in [0, 100]: the clamp is then inactive. */
  lemma ConvexCombinationInRange(
    flow: real, oi: real, volume: real, manipulation: real, regulatory: real, w: Weights)
    requires w.NonNegative() && w.Total() == 1.0
    requires 0.0 <= flow <= 100.0 && 0.0 <= oi <= 100.0 && 0.0 <= volume <= 100.0
    requires 0.0 <= manipulation <= 100.0 && 0.0 <= regulatory <= 100.0
    ensures 0.0 <= WeightedTotal(flow, oi, volume, manipulation, regulatory, w) <= 100.0
  {
    WeightedSumInRange(flow, oi, volume, 100.0 - manipulation, regulatory, w);
  }

  lemma WeightedSumInRange(a: real, b: real, c: real, d: real, e: real, w: Weights)
    requires w.NonNegative() && w.Total() == 1.0
    requires 0.0 <= a <= 100.0 && 0.0 <= b <= 100.0 && 0.0 <= c <= 100.0
    requires 0.0 <= d <= 100.0 && 0.0 <= e <= 100.0
    ensures 0.0 <= a * w.flow + b * w.oi + c * w.volume + d * w.manipulation + e * w.regulatory <= 100.0
  {
    var pa := ScaledBounds(a, w.flow);
    var pb := ScaledBounds(b, w.oi);
    var pc := ScaledBounds(c, w.volume);
    var pd := ScaledBounds(d, w.manipulation);
    var pe := ScaledBounds(e, w.regulatory);
    SumOfScaledBounds(pa, pb, pc, pd, pe, w);
  }

  /** With a non-negative manipulation weight, a higher manipulation score never
      raises the composite. */
  lemma AggregateManipulationAntitone(
    flow: real, oi: real, volume: real, m1: real, m2: real, regulatory: real,
    weights: Option<map<string, real>>)
    requires m1 <= m2
    requires ResolveWeights(weights).Ok? && ResolveWeights(weights).value.manipulation >= 0.0
    ensures AggregateScores(flow, oi, volume, m2, regulatory, weights).value
         <= AggregateScores(flow, oi, volume, m1, regulatory, weights).value
  {
    var w := ResolveWeights(weights).value;
    ProductNonNegative(m2 - m1, w.manipulation);
    assert (100.0 - m1) * w.manipulation - (100.0 - m2) * w.manipulation == (m2 - m1) * w.manipulation;
    ClipMonotone(WeightedTotal(flow, oi, volume, m2, regulatory, w),
                 WeightedTotal(flow, oi, volume, m1, regulatory, w), 0.0, 100.0);
  }
}
