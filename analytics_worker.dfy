/** The analytics worker's wiring: from the recent rows and an order-book snapshot
    to the stored composite-score row. The z-scores become sub-scores around 50,
    the manipulation risk is scaled to percent, and the five sub-scores are
    aggregated with the default weights. */
module AnalyticsWorker {
  import opened Common
  import opened Numeric
  import Signals
  import OrderBook
  import InflowWorker
  import NewsWorker

  /** A stored composite-score row (timestamp not modelled). */
  datatype ScoreSnapshot = ScoreSnapshot(
    flowScore: real,
    oiScore: real,
    volumeScore: real,
    manipulationScore: real,
    regulatoryScore: real,
    overallScore: real)

  /** The volume z-score above which the volume counts as a spike. */
  const SpikeThreshold: real := 1.5

  /** A signal's sub-score: 50 plus ten points per standard deviation, unclamped. */
  function SubScore(zscore: real): (s: real)
    ensures s > 50.0 <==> zscore > 0.0
    ensures s < 50.0 <==> zscore < 0.0
  {
    50.0 + zscore * 10.0
  }

  lemma DefaultWeightsResolve()
    ensures Signals.ResolveWeights(None) == Ok(Signals.DefaultWeights)
  {
  }

  /** The row `_save_score` writes: the stored sub-scores and, as overall score, the
      default-weight aggregate of exactly those five stored values. */
  function SaveScore(
    flowSig: Signals.FlowSignal, volSig: Signals.VolumeSignal,
    oiScore: real, manipulationRisk: real, regulatoryScore: real): (row: ScoreSnapshot)
    ensures row.flowScore == SubScore(flowSig.zscore) && row.volumeScore == SubScore(volSig.zscore)
    ensures row.oiScore == oiScore && row.regulatoryScore == regulatoryScore
    ensures row.manipulationScore == manipulationRisk * 100.0
    ensures Signals.AggregateScores(row.flowScore, row.oiScore, row.volumeScore,
                                    row.manipulationScore, row.regulatoryScore) == Ok(row.overallScore)
    ensures 0.0 <= row.overallScore <= 100.0
  {
    DefaultWeightsResolve();
    var flowScore := SubScore(flowSig.zscore);
    var volumeScore := SubScore(volSig.zscore);
    var manipulationScore := manipulationRisk * 100.0;
    var overall := Signals.AggregateScores(flowScore, oiScore, volumeScore, manipulationScore, regulatoryScore).value;
    ScoreSnapshot(flowScore, oiScore, volumeScore, manipulationScore, regulatoryScore, overall)
  }

  /** The sub-scores are not clamped: a flow z-score of 6 stores a flow score of 110,
      while the overall score stays within [0, 100]. */
  lemma FlowScoreIsUnclamped(volSig: Signals.VolumeSignal, oiScore: real, risk: real, regulatoryScore: real)
    ensures var row := SaveScore(Signals.FlowSignal(0.0, 6.0, Signals.High), volSig, oiScore, risk, regulatoryScore);
      row.flowScore == 110.0 && row.overallScore <= 100.0
  {
  }

  /** The net flow of each exchange-flow row, in row order. */
  function NetFlows(flows: seq<InflowWorker.ExchangeFlowRecord>): (values: seq<real>)
    ensures |values| == |flows|
    ensures forall i :: 0 <= i < |flows| ==> values[i] == flows[i].netFlowXrp
  {
    seq(|flows|, i requires 0 <= i < |flows| => flows[i].netFlowXrp)
  }

  /** The volume of each bar, in bar order. */
  function Volumes(bars: seq<InflowWorker.Ohlcv>): (values: seq<real>)
    ensures |values| == |bars|
    ensures forall i :: 0 <= i < |bars| ==> values[i] == bars[i].volume
  {
    seq(|bars|, i requires 0 <= i < |bars| => bars[i].volume)
  }

  /** The tags of the regulatory events, in order, with missing tags read as `{}`. */
  function RegulatoryTags(events: seq<NewsWorker.Event>): (tags: seq<map<string, real>>)
    ensures |tags| <= |events|
    ensures (forall i :: 0 <= i < |events| ==> events[i].eventType != "regulatory") ==> tags == []
  {
    if events == [] then []
    else
      var head := if events[0].eventType == "regulatory" then [events[0].tags.GetOr(map[])] else [];
      head + RegulatoryTags(events[1..])
  }

  lemma {:induction false} RegulatoryTagsAppend(a: seq<NewsWorker.Event>, b: seq<NewsWorker.Event>)
    ensures RegulatoryTags(a + b) == RegulatoryTags(a) + RegulatoryTags(b)
  {
    if a != [] {
      assert (a + b)[1..] == a[1..] + b;
      RegulatoryTagsAppend(a[1..], b);
    } else {
      assert a + b == b;
    }
  }

  /** A single event contributes its tags (or `{}`) exactly when it is regulatory. */
  lemma RegulatoryEventCounts(e: NewsWorker.Event)
    ensures e.eventType == "regulatory" ==> RegulatoryTags([e]) == [e.tags.GetOr(map[])]
    ensures e.eventType != "regulatory" ==> RegulatoryTags([e]) == []
  {
    assert [e][1..] == [];
  }

  /** Inserting an event of any other type anywhere leaves the regulatory score's input unchanged. */
  lemma OtherEventsDoNotCount(before: seq<NewsWorker.Event>, e: NewsWorker.Event, after: seq<NewsWorker.Event>)
    requires e.eventType != "regulatory"
    ensures RegulatoryTags(before + [e] + after) == RegulatoryTags(before + after)
  {
    calc {
      RegulatoryTags(before + [e] + after);
      { RegulatoryTagsAppend(before + [e], after); }
      RegulatoryTags(before + [e]) + RegulatoryTags(after);
      { RegulatoryTagsAppend(before, [e]); RegulatoryEventCounts(e); }
      RegulatoryTags(before) + [] + RegulatoryTags(after);
      { RegulatoryTagsAppend(before, after); }
      RegulatoryTags(before + after);
    }
  }

  /** A regulatory event without tags contributes `{}`, so it pulls the score towards 50. */
  lemma UntaggedRegulatoryEvent(e: NewsWorker.Event)
    requires e.eventType == "regulatory" && e.tags.None?
    ensures RegulatoryTags([e]) == [map[]]
    ensures Signals.ComputeRegulatoryScore(RegulatoryTags([e])) == 50.0
  {
    RegulatoryEventCounts(e);
    Signals.RegulatoryNeutralEvents([map[]]);
  }

  /** The spike flag handed to the manipulation detector: a strictly larger z-score than 1.5. */
  predicate VolumeSpike(volSig: Signals.VolumeSignal): (spike: bool)
    ensures spike ==> Signals.ClassifyRegime(volSig.zscore) == Signals.High && SubScore(volSig.zscore) > 65.0
    ensures !spike ==> SubScore(volSig.zscore) <= 65.0
  {
    volSig.zscore > SpikeThreshold
  }

  /** `run_once` on the loaded rows and the fetched order book. The order-book summary
      raises only when its denominator is zero, and then nothing is stored. */
  function RunOnce(
    flows: seq<InflowWorker.ExchangeFlowRecord>,
    oiMetrics: seq<Signals.OIMetrics>,
    bars: seq<InflowWorker.Ohlcv>,
    events: seq<NewsWorker.Event>,
    book: OrderBook.Book,
    sqrt: real -> real): (r: Result<ScoreSnapshot>)
    requires IsSquareRoot(sqrt)
    ensures r.Err? <==> OrderBook.SummarizeOrderBook(book).Err?
    ensures r.Ok? ==>
      var volSig := Signals.ComputeVolumeSignal(Volumes(bars), sqrt);
      var hint := Signals.ComputeManipulationHint(OrderBook.SummarizeOrderBook(book).value, VolumeSpike(volSig));
      r.value == SaveScore(
        Signals.ComputeFlowSignal(NetFlows(flows), sqrt),
        volSig,
        Signals.OILeverageScore(oiMetrics),
        hint.riskScore,
        Signals.ComputeRegulatoryScore(RegulatoryTags(events)))
  {
    var flowSig := Signals.ComputeFlowSignal(NetFlows(flows), sqrt);
    var volSig := Signals.ComputeVolumeSignal(Volumes(bars), sqrt);
    var oiScore := Signals.OILeverageScore(oiMetrics);
    match OrderBook.SummarizeOrderBook(book)
    case Err(e) => Err(e)
    case Ok(stats) =>
      var hint := Signals.ComputeManipulationHint(stats, VolumeSpike(volSig));
      var regScore := Signals.ComputeRegulatoryScore(RegulatoryTags(events));
      Ok(SaveScore(flowSig, volSig, oiScore, hint.riskScore, regScore))
  }

  /** Every stored score except the two signal sub-scores lies in [0, 100]; the manipulation
      score does because the risk lies in [0, 1]. */
  lemma StoredScoresInRange(
    flows: seq<InflowWorker.ExchangeFlowRecord>, oiMetrics: seq<Signals.OIMetrics>,
    bars: seq<InflowWorker.Ohlcv>, events: seq<NewsWorker.Event>, book: OrderBook.Book, sqrt: real -> real)
    requires IsSquareRoot(sqrt)
    requires RunOnce(flows, oiMetrics, bars, events, book, sqrt).Ok?
    ensures var row := RunOnce(flows, oiMetrics, bars, events, book, sqrt).value;
      0.0 <= row.manipulationScore <= 100.0 && 0.0 <= row.oiScore <= 100.0 &&
      0.0 <= row.regulatoryScore <= 100.0 && 0.0 <= row.overallScore <= 100.0
  {
  }

  /** A volume spike (volume z-score above 1.5) stores a manipulation score of at least 50. */
  lemma SpikeRaisesManipulationScore(
    flows: seq<InflowWorker.ExchangeFlowRecord>, oiMetrics: seq<Signals.OIMetrics>,
    bars: seq<InflowWorker.Ohlcv>, events: seq<NewsWorker.Event>, book: OrderBook.Book, sqrt: real -> real)
    requires IsSquareRoot(sqrt)
    requires RunOnce(flows, oiMetrics, bars, events, book, sqrt).Ok?
    requires Signals.ZScore(Volumes(bars), sqrt) > SpikeThreshold
    ensures RunOnce(flows, oiMetrics, bars, events, book, sqrt).value.manipulationScore >= 50.0
  {
    assert Volumes(bars) != [];
  }

  /** With no rows and an empty order book every input is neutral: the row is
      (50, 50, 50, 0, 25) with overall score 55. */
  lemma EmptyDataSnapshot(sqrt: real -> real)
    requires IsSquareRoot(sqrt)
    ensures RunOnce([], [], [], [], map[], sqrt) == Ok(ScoreSnapshot(50.0, 50.0, 50.0, 0.0, 25.0, 55.0))
  {
    OrderBook.EmptyBook();
    assert Volumes([]) == [] && NetFlows([]) == [];
    var stats := map["bid_volume" := 0.0, "ask_volume" := 0.0, "depth_imbalance" := 0.0];
    assert Signals.ComputeManipulationHint(stats, false).riskScore == 0.0;
  }
}
