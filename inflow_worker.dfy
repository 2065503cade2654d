/** The record shaping of the market-data ingestion worker: one OHLCV bar from a
    batch of recent trades, one derivatives metric from three exchange payloads,
    and one exchange-flow record per flow reported by the market-intel service. */
module InflowWorker {
  import opened Common
  import opened Numeric
  import Signals

  // ---------------------------------------------------------------------------
  // OHLCV bar from trades

  /** A trade; the exchange's other fields are not read. */
  datatype Trade = Trade(price: real, qty: real)

  /** A stored bar (its timestamp is the clock at write time and is not modelled). */
  datatype Ohlcv = Ohlcv(open: real, high: real, low: real, close: real, volume: real, source: string)

  /** The price column of a batch of trades. */
  function TradePrices(trades: seq<Trade>): (prices: seq<real>)
    ensures |prices| == |trades|
    ensures forall i :: 0 <= i < |trades| ==> prices[i] == trades[i].price
  {
    seq(|trades|, i requires 0 <= i < |trades| => trades[i].price)
  }

  /** The quantity column of a batch of trades. The order book has its own projection,
      `OrderBook.LevelQuantities`, over depth levels. */
  function TradeQuantities(trades: seq<Trade>): (qtys: seq<real>)
    ensures |qtys| == |trades|
    ensures forall i :: 0 <= i < |trades| ==> qtys[i] == trades[i].qty
  {
    seq(|trades|, i requires 0 <= i < |trades| => trades[i].qty)
  }

  /** The bar `_save_ohlcv_from_trades` writes, or nothing for an empty batch. */
  function BarFromTrades(trades: seq<Trade>): (bar: Option<Ohlcv>)
    ensures bar.None? <==> trades == []
    ensures bar.Some? ==>
      bar.value.open == trades[0].price && bar.value.close == trades[|trades| - 1].price &&
      bar.value.volume == Sum(TradeQuantities(trades)) && bar.value.source == "binance-trades"
    ensures bar.Some? ==>
      (forall i :: 0 <= i < |trades| ==> bar.value.low <= trades[i].price <= bar.value.high) &&
      (exists i :: 0 <= i < |trades| && trades[i].price == bar.value.high) &&
      (exists i :: 0 <= i < |trades| && trades[i].price == bar.value.low)
  {
    if trades == [] then None
    else
      var prices := TradePrices(trades);
      Some(Ohlcv(prices[0], MaxOf(prices), MinOf(prices), Last(prices), Sum(TradeQuantities(trades)), "binance-trades"))
  }

  /** Every bar is well formed: open and close lie between low and high. */
  lemma BarIsOrdered(trades: seq<Trade>)
    requires trades != []
    ensures var b := BarFromTrades(trades).value;
      b.low <= b.open <= b.high && b.low <= b.close <= b.high
  {
    var b := BarFromTrades(trades).value;
    assert b.low <= trades[0].price <= b.high;
    assert b.low <= trades[|trades| - 1].price <= b.high;
  }

  /** A single trade gives a flat bar carrying that trade's quantity. */
  lemma SingleTradeBar(t: Trade)
    ensures BarFromTrades([t]) == Some(Ohlcv(t.price, t.price, t.price, t.price, t.qty, "binance-trades"))
  {
    assert TradeQuantities([t]) == [t.qty];
    assert Sum([t.qty]) == t.qty + Sum([]);
  }

  // ---------------------------------------------------------------------------
  // Derivatives metric from exchange payloads

  /** A JSON scalar as the payloads deliver it: a number, or a numeric string
      together with the value `float` parses from it. Python's truthiness differs
      between the two: the number 0 is false, while any non-empty string, "0"
      included, is true. */
  datatype Scalar = Number(x: real) | Text(text: string, parsed: real) {
    predicate Truthy() {
      match this
      case Number(x) => x != 0.0
      case Text(t, _) => t != ""
    }

    /** `float(value)` */
    function Float(): real {
      match this
      case Number(x) => x
      case Text(_, p) => p
    }
  }

  type Payload = map<string, Scalar>

  /** Python's `a or b` */
  function Or(a: Scalar, b: Scalar): (r: Scalar)
    ensures a.Truthy() ==> r == a
    ensures !a.Truthy() ==> r == b
  {
    if a.Truthy() then a else b
  }

  /** The open interest: `sumOpenInterest` if truthy, else `sumOpenInterestValue` if
      truthy, else 0. */
  function OpenInterest(oi: Payload): (r: real)
    ensures "sumOpenInterest" in oi && oi["sumOpenInterest"].Truthy() ==> r == oi["sumOpenInterest"].Float()
    ensures ("sumOpenInterest" !in oi || !oi["sumOpenInterest"].Truthy())
      && "sumOpenInterestValue" in oi && oi["sumOpenInterestValue"].Truthy()
      ==> r == oi["sumOpenInterestValue"].Float()
    ensures ("sumOpenInterest" !in oi || !oi["sumOpenInterest"].Truthy())
      && ("sumOpenInterestValue" !in oi || !oi["sumOpenInterestValue"].Truthy())
      ==> r == 0.0
  {
    Or(Or(Get(oi, "sumOpenInterest", Number(0.0)), Get(oi, "sumOpenInterestValue", Number(0.0))), Number(0.0)).Float()
  }

  /** The metric `_save_derivatives_metrics` writes from the open-interest, funding-rate
      and long/short-ratio payloads (timestamp not modelled). */
  function DerivativesMetricFrom(oi: Payload, funding: Payload, ls: Payload): (m: Signals.OIMetrics)
    ensures m.exchange == "binance"
    ensures m.oi == OpenInterest(oi)
    ensures m.funding == Some(Get(funding, "lastFundingRate", Number(0.0)).Float())
    ensures m.lsRatio == Some(Get(ls, "longShortRatio", Number(1.0)).Float())
    ensures m.volume == Some(Or(Get(oi, "sumOpenInterestValue", Number(0.0)), Number(0.0)).Float())
  {
    Signals.OIMetrics(
      "binance",
      OpenInterest(oi),
      Some(Get(funding, "lastFundingRate", Number(0.0)).Float()),
      Some(Get(ls, "longShortRatio", Number(1.0)).Float()),
      Some(Or(Get(oi, "sumOpenInterestValue", Number(0.0)), Number(0.0)).Float()))
  }

  /** A numeric string "0" is truthy, so it is kept as an open interest of 0 even when
      `sumOpenInterestValue` is present; the number 0 falls through instead. */
  lemma ZeroStringIsNotAFallback(v: real)
    requires v != 0.0
    ensures OpenInterest(map["sumOpenInterest" := Text("0", 0.0), "sumOpenInterestValue" := Number(v)]) == 0.0
    ensures OpenInterest(map["sumOpenInterest" := Number(0.0), "sumOpenInterestValue" := Number(v)]) == v
  {
  }

  /** Empty payloads give the neutral metric (open interest 0, funding 0, ratio 1),
      whose leverage score is the neutral 50. */
  lemma EmptyPayloadsAreNeutral()
    ensures DerivativesMetricFrom(map[], map[], map[])
         == Signals.OIMetrics("binance", 0.0, Some(0.0), Some(1.0), Some(0.0))
    ensures Signals.OILeverageScore([DerivativesMetricFrom(map[], map[], map[])]) == 50.0
  {
    var m := DerivativesMetricFrom(map[], map[], map[]);
    assert Signals.FundingBias(m) == 0.0 && Signals.LsSkew(m) == 0.0;
    assert Signals.OIChangePct([m]) == 0.0;
  }

  // ---------------------------------------------------------------------------
  // Exchange flows from market intel

  /** A text field of a flow entry: missing, JSON null, or a string. */
  datatype TextField = AbsentText | NullText | GivenText(text: string)

  /** A numeric field of a flow entry: missing, JSON null, a JSON number, or a string
      together with what `float` parses from it (`None` when it is not a number). */
  datatype NumberField = AbsentNumber | NullNumber | GivenNumber(x: real) | NumericText(text: string, parsed: Option<real>)

  /** One entry of `exchange_flows`. */
  datatype FlowEntry = FlowEntry(
    exchange: TextField,
    direction: TextField,
    amountXrp: NumberField,
    netFlowXrp: NumberField)

  /** The market-intel answer: a dict (possibly without `exchange_flows`), or a value of
      another shape. An unavailable service leaves the initial empty dict. */
  datatype Intel = Dict(flows: Option<seq<FlowEntry>>) | NotADict

  /** An exchange-flow row as added to the session (timestamp not modelled). `None` is
      SQL NULL, which the NOT NULL `exchange` and `direction` columns refuse at flush. */
  datatype ExchangeFlowRecord = ExchangeFlowRecord(
    exchange: Option<string>,
    direction: Option<string>,
    amountXrp: real,
    netFlowXrp: real)

  /** The flow entries of a dict answer; none for a dict without them or for any other shape. */
  function FlowsOf(intel: Intel): (flows: seq<FlowEntry>)
    ensures intel.NotADict? || intel == Dict(None) ==> flows == []
    ensures intel.Dict? && intel.flows.Some? ==> flows == intel.flows.value
  {
    match intel
    case NotADict => []
    case Dict(flows) => flows.GetOr([])
  }

  /** `flow.get(key, default)` on a text field: a null is kept as `None`. */
  function TextOr(field: TextField, default: string): (r: Option<string>)
    ensures r.None? <==> field.NullText?
    ensures field.AbsentText? ==> r == Some(default)
    ensures field.GivenText? ==> r == Some(field.text)
  {
    match field
    case AbsentText => Some(default)
    case NullText => None
    case GivenText(t) => Some(t)
  }

  /** `float(flow.get(key, default))`: `float(None)` raises `TypeError`, and a string that
      is not a number raises `ValueError`. */
  function ToFloat(field: NumberField, default: real): (r: Result<real>)
    ensures r.Err? <==> field.NullNumber? || (field.NumericText? && field.parsed.None?)
    ensures field.NullNumber? ==> r == Err(TypeError)
    ensures field.NumericText? && field.parsed.None? ==> r == Err(ValueError)
    ensures field.AbsentNumber? ==> r == Ok(default)
    ensures field.GivenNumber? ==> r == Ok(field.x)
    ensures field.NumericText? && field.parsed.Some? ==> r == Ok(field.parsed.value)
  {
    match field
    case AbsentNumber => Ok(default)
    case NullNumber => Err(TypeError)
    case GivenNumber(x) => Ok(x)
    case NumericText(_, parsed) => if parsed.Some? then Ok(parsed.value) else Err(ValueError)
  }

  /** `float(flow.get("net_flow_xrp", flow.get("amount_xrp", 0)))`: a missing net flow
      converts the raw amount field again. */
  function NetFlowValue(f: FlowEntry): (r: Result<real>)
    ensures f.netFlowXrp.AbsentNumber? ==> r == ToFloat(f.amountXrp, 0.0)
    ensures !f.netFlowXrp.AbsentNumber? ==> r == ToFloat(f.netFlowXrp, 0.0)
  {
    if f.netFlowXrp.AbsentNumber? then ToFloat(f.amountXrp, 0.0) else ToFloat(f.netFlowXrp, 0.0)
  }

  /** The row object built from one flow entry, with its defaults. The amount is
      converted before the net flow, so its error is the one raised when both fail. */
  function FlowRecord(f: FlowEntry): (r: Result<ExchangeFlowRecord>)
    ensures r.Err? <==> ToFloat(f.amountXrp, 0.0).Err? || NetFlowValue(f).Err?
    ensures ToFloat(f.amountXrp, 0.0).Err? ==> r == Err(ToFloat(f.amountXrp, 0.0).error)
    ensures ToFloat(f.amountXrp, 0.0).Ok? && NetFlowValue(f).Err? ==> r == Err(NetFlowValue(f).error)
    ensures r.Ok? ==>
      r.value.exchange == TextOr(f.exchange, "unknown") && r.value.direction == TextOr(f.direction, "in") &&
      r.value.amountXrp == ToFloat(f.amountXrp, 0.0).value && r.value.netFlowXrp == NetFlowValue(f).value
    ensures r.Ok? && f.netFlowXrp.AbsentNumber? ==> r.value.netFlowXrp == r.value.amountXrp
  {
    match ToFloat(f.amountXrp, 0.0)
    case Err(e) => Err(e)
    case Ok(amount) =>
      match NetFlowValue(f)
      case Err(e) => Err(e)
      case Ok(net) => Ok(ExchangeFlowRecord(TextOr(f.exchange, "unknown"), TextOr(f.direction, "in"), amount, net))
  }

  /** A row the NOT NULL columns accept. */
  predicate Storable(r: ExchangeFlowRecord)
  {
    r.exchange.Some? && r.direction.Some?
  }

  /** The rows `_save_exchange_flows` stores, in order: one per flow entry. The loop runs
      inside one transaction, so any failure stores nothing: the first entry whose
      conversion raises gives its error, and otherwise a NULL in a NOT NULL column fails
      the flush with `IntegrityError`. */
  method SaveExchangeFlows(intel: Intel) returns (res: Result<seq<ExchangeFlowRecord>>)
    ensures var flows := FlowsOf(intel);
      res.Ok? <==> forall i :: 0 <= i < |flows| ==> FlowRecord(flows[i]).Ok? && Storable(FlowRecord(flows[i]).value)
    ensures var flows := FlowsOf(intel);
      res.Ok? ==> |res.value| == |flows| && forall i :: 0 <= i < |flows| ==> FlowRecord(flows[i]) == Ok(res.value[i])
    ensures var flows := FlowsOf(intel);
      res.Err? && (forall i :: 0 <= i < |flows| ==> FlowRecord(flows[i]).Ok?) ==> res.error == IntegrityError
    ensures var flows := FlowsOf(intel);
      res.Err? && (exists i :: 0 <= i < |flows| && FlowRecord(flows[i]).Err?) ==>
        exists i :: 0 <= i < |flows| && FlowRecord(flows[i]) == Err(res.error) &&
          forall k :: 0 <= k < i ==> FlowRecord(flows[k]).Ok?
  {
    var flows := FlowsOf(intel);
    var added := [];
    var storable := true;
    var i := 0;
    while i < |flows|
      invariant 0 <= i <= |flows|
      invariant |added| == i
      invariant forall k :: 0 <= k < i ==> FlowRecord(flows[k]) == Ok(added[k])
      invariant storable <==> forall k :: 0 <= k < i ==> Storable(added[k])
    {
      var r := FlowRecord(flows[i]);
      if r.Err? {
        return Err(r.error);
      }
      storable := storable && Storable(r.value);
      added := added + [r.value];
      i := i + 1;
    }
    if !storable {
      return Err(IntegrityError);
    }
    return Ok(added);
  }

  /** An entry with no fields becomes an inbound row of 0 XRP on an unknown exchange. */
  lemma EmptyFlowEntry()
    ensures FlowRecord(FlowEntry(AbsentText, AbsentText, AbsentNumber, AbsentNumber))
      == Ok(ExchangeFlowRecord(Some("unknown"), Some("in"), 0.0, 0.0))
  {
  }

  /** A null amount raises `TypeError` even when a valid net flow is given, and a
      missing net flow repeats the amount's `ValueError`. */
  lemma BadAmountRaises(net: real, text: string)
    ensures FlowRecord(FlowEntry(AbsentText, AbsentText, NullNumber, GivenNumber(net))) == Err(TypeError)
    ensures FlowRecord(FlowEntry(AbsentText, AbsentText, NumericText(text, None), AbsentNumber)) == Err(ValueError)
  {
  }

  /** A null `exchange` or `direction` is kept as NULL: the entry either fails to convert
      or gives a row the columns refuse, so by `SaveExchangeFlows` any batch holding it
      stores nothing. */
  lemma NullTextIsNotStorable(e: FlowEntry)
    requires e.exchange.NullText? || e.direction.NullText?
    ensures FlowRecord(e).Err? || !Storable(FlowRecord(e).value)
  {
  }
}
