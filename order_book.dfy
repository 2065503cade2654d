/** `summarize_order_book`: total bid and ask quantity of a depth snapshot and
    the normalized imbalance between them. */
module OrderBook {
  import opened Common
  import opened Numeric

  /** One price level `[price, quantity]`; quantities are already numeric here. */
  datatype Level = Level(price: real, qty: real)

  /** A depth snapshot keyed like the exchange's JSON: "bids" and "asks". */
  type Book = map<string, seq<Level>>

  /** Keeps the denominator away from zero when both sides are empty. */
  const Epsilon: real := 0.000000001

  /** Every level of the side has a non-negative quantity. */
  ghost predicate NonNegativeQuantities(levels: seq<Level>)
  {
    forall i :: 0 <= i < |levels| ==> levels[i].qty >= 0.0
  }

  /** The quantity column of one side, level by level. It has the same shape as the
      trade projection `InflowWorker.TradeQuantities`, over order-book levels instead
      of trades. */
  function LevelQuantities(levels: seq<Level>): (q: seq<real>)
    ensures |q| == |levels|
    ensures forall i :: 0 <= i < |levels| ==> q[i] == levels[i].qty
  {
    seq(|levels|, i requires 0 <= i < |levels| => levels[i].qty)
  }

  /** The total quantity (second component) over the levels of one side, summed
      from the best level outwards. */
  function SideVolume(levels: seq<Level>): (v: real)
    ensures levels == [] ==> v == 0.0
    ensures NonNegativeQuantities(levels) ==> v >= 0.0
  {
    if levels == [] then 0.0
    else
      assert NonNegativeQuantities(levels) ==> NonNegativeQuantities(levels[1..]) by {
        if NonNegativeQuantities(levels) {
          forall i | 0 <= i < |levels[1..]| ensures levels[1..][i].qty >= 0.0 {
            assert levels[1..][i] == levels[i + 1];
          }
        }
      }
      levels[0].qty + SideVolume(levels[1..])
  }

  /** The volume of a side is the plain sum of its quantity column, whatever the
      order of the levels. */
  lemma {:induction false} SideVolumeIsSum(levels: seq<Level>)
    ensures SideVolume(levels) == Sum(LevelQuantities(levels))
  {
    if levels != [] {
      assert LevelQuantities(levels)[1..] == LevelQuantities(levels[1..]);
      SideVolumeIsSum(levels[1..]);
    }
  }

  /** The side stored under `key`, or no levels when the key is missing
      (`dict.get(key, [])`). */
  function Side(book: Book, key: string): (levels: seq<Level>)
    ensures key in book ==> levels == book[key]
    ensures key !in book ==> levels == []
  {
    Get(book, key, [])
  }

  /** `summarize_order_book`; Python raises `ZeroDivisionError` when the
      denominator is exactly zero, which takes negative quantities. */
  function SummarizeOrderBook(book: Book): (r: Result<map<string, real>>)
    ensures var bid := SideVolume(Side(book, "bids"));
      var ask := SideVolume(Side(book, "asks"));
      (r.Err? <==> bid + ask + Epsilon == 0.0) &&
      (r.Err? ==> r.error == ZeroDivisionError) &&
      (r.Ok? ==>
        r.value.Keys == {"bid_volume", "ask_volume", "depth_imbalance"} &&
        r.value["bid_volume"] == bid &&
        r.value["ask_volume"] == ask &&
        r.value["depth_imbalance"] == (bid - ask) / (bid + ask + Epsilon))
  {
    var bid := SideVolume(Side(book, "bids"));
    var ask := SideVolume(Side(book, "asks"));
    var denominator := bid + ask + Epsilon;
    if denominator == 0.0 then Err(ZeroDivisionError)
    else
      var imbalance := (bid - ask) / denominator;
      assert "bid_volume"[0] != "ask_volume"[0] && |"bid_volume"| != |"depth_imbalance"|;
      var stats := map["bid_volume" := bid, "ask_volume" := ask, "depth_imbalance" := imbalance];
      Ok(stats)
  }

  /** The imbalance scaled back by its denominator is the signed difference of the
      two side volumes. */
  lemma ImbalanceTimesDenominator(book: Book)
    requires SummarizeOrderBook(book).Ok?
    ensures var m := SummarizeOrderBook(book).value;
      m["depth_imbalance"] * (m["bid_volume"] + m["ask_volume"] + Epsilon) == m["bid_volume"] - m["ask_volume"]
  {
    var m := SummarizeOrderBook(book).value;
    QuotientTimesDivisor(m["bid_volume"] - m["ask_volume"], m["bid_volume"] + m["ask_volume"] + Epsilon, m["depth_imbalance"]);
  }

  lemma QuotientTimesDivisor(x: real, d: real, q: real)
    requires d != 0.0 && q == x / d
    ensures q * d == x
  {
  }

  /** The imbalance of a book whose summary exists. */
  function Imbalance(book: Book): real
    requires SummarizeOrderBook(book).Ok?
  {
    SummarizeOrderBook(book).value["depth_imbalance"]
  }

  /** An empty book (or one without either side) summarizes to zeros. */
  lemma EmptyBook()
    ensures SummarizeOrderBook(map[]) == Ok(map["bid_volume" := 0.0, "ask_volume" := 0.0, "depth_imbalance" := 0.0])
  {
    assert Side(map[], "bids") == [] && Side(map[], "asks") == [];
    assert (0.0 - 0.0) / (0.0 + 0.0 + Epsilon) == 0.0;
  }

  lemma RatioStrictlyInside(x: real, d: real)
    requires d > 0.0 && -d < x < d
    ensures -1.0 < x / d < 1.0
  {
    assert (x / d) * d == x;
  }

  /** With non-negative quantities the summary always exists and the imbalance
      lies strictly between -1 and 1. */
  lemma ImbalanceStrictlyInside(book: Book)
    requires NonNegativeQuantities(Side(book, "bids")) && NonNegativeQuantities(Side(book, "asks"))
    ensures SummarizeOrderBook(book).Ok?
    ensures -1.0 < Imbalance(book) < 1.0
  {
    var bid := SideVolume(Side(book, "bids"));
    var ask := SideVolume(Side(book, "asks"));
    RatioStrictlyInside(bid - ask, bid + ask + Epsilon);
  }

  /** The book with its two sides exchanged. */
  function Swap(book: Book): (swapped: Book)
    ensures Side(swapped, "bids") == Side(book, "asks") && Side(swapped, "asks") == Side(book, "bids")
  {
    book["bids" := Side(book, "asks")]["asks" := Side(book, "bids")]
  }

  /** Exchanging bids and asks negates the imbalance and swaps the two volumes. */
  lemma SwapNegatesImbalance(book: Book)
    requires SummarizeOrderBook(book).Ok?
    ensures SummarizeOrderBook(Swap(book)).Ok?
    ensures Imbalance(Swap(book)) == -Imbalance(book)
    ensures SummarizeOrderBook(Swap(book)).value["bid_volume"] == SummarizeOrderBook(book).value["ask_volume"]
    ensures SummarizeOrderBook(Swap(book)).value["ask_volume"] == SummarizeOrderBook(book).value["bid_volume"]
  {
    var bid := SideVolume(Side(book, "bids"));
    var ask := SideVolume(Side(book, "asks"));
    assert SideVolume(Side(Swap(book), "bids")) == ask;
    assert SideVolume(Side(Swap(book), "asks")) == bid;
    var d := bid + ask + Epsilon;
    assert Imbalance(Swap(book)) == (ask - bid) / (ask + bid + Epsilon);
    NegatedQuotient(bid - ask, d);
  }

  lemma NegatedQuotient(x: real, d: real)
    requires d != 0.0
    ensures (-x) / d == -(x / d)
  {
    assert (x / d) * d == x;
    assert ((-x) / d) * d == -x;
    assert ((-x) / d + x / d) * d == 0.0;
  }

  /** The sign of the imbalance is the sign of bid volume minus ask volume. */
  lemma ImbalanceSign(book: Book)
    requires NonNegativeQuantities(Side(book, "bids")) && NonNegativeQuantities(Side(book, "asks"))
    ensures SummarizeOrderBook(book).Ok?
    ensures var bid := SideVolume(Side(book, "bids"));
      var ask := SideVolume(Side(book, "asks"));
      (Imbalance(book) > 0.0 <==> bid > ask) &&
      (Imbalance(book) == 0.0 <==> bid == ask) &&
      (Imbalance(book) < 0.0 <==> bid < ask)
  {
    var bid := SideVolume(Side(book, "bids"));
    var ask := SideVolume(Side(book, "asks"));
    QuotientSign(bid - ask, bid + ask + Epsilon);
  }

  /** One bid of 100 against one ask of 50: positive bid volume, an imbalance of about 1/3. */
  lemma OneLevelEachSide()
    ensures var r := SummarizeOrderBook(map["bids" := [Level(0.5, 100.0)], "asks" := [Level(0.6, 50.0)]]);
      r.Ok? && r.value["bid_volume"] == 100.0 && r.value["bid_volume"] > 0.0 &&
      "depth_imbalance" in r.value && 0.0 < r.value["depth_imbalance"] < 1.0
  {
    var book := map["bids" := [Level(0.5, 100.0)], "asks" := [Level(0.6, 50.0)]];
    assert Side(book, "bids") == [Level(0.5, 100.0)];
    assert Side(book, "asks") == [Level(0.6, 50.0)];
    ImbalanceStrictlyInside(book);
    ImbalanceSign(book);
  }
}
