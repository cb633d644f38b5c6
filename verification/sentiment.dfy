/** The global market sentiment score (backend/services/global_markets.py,
    `GlobalMarketsService.calculate_sentiment`, with the weight and VIX tables of
    backend/core/global_markets.py). */
module Sentiment {
  import opened Wrappers
  import opened Seqs

  // ---------------------------------------------------------------------------
  // Quotes
  // ---------------------------------------------------------------------------

  /** One index of a region: a failed fetch has no price and no change and is flagged
      as an error. */
  datatype Quote = Quote(symbol: string, price: Option<real>, changePct: Option<real>, error: bool)

  /** The fetched regions; a region missing from the dict is an empty list. */
  datatype Markets = Markets(
    us: seq<Quote>,
    european: seq<Quote>,
    asian: seq<Quote>,
    indiaAdrs: seq<Quote>,
    commodities: seq<Quote>)

  /** A quote enters the score when it has a change and is not flagged. */
  predicate Counted(q: Quote)
  {
    q.changePct.Some? && !q.error
  }

  /** The counted quotes of the four scored regions, in region order; commodities are
      not scored. */
  function CountedQuotes(m: Markets): (qs: seq<Quote>)
    ensures forall i :: 0 <= i < |qs| ==> Counted(qs[i])
  {
    Filter(m.us + m.european + m.asian + m.indiaAdrs, Counted)
  }

  /** The change of every counted quote. */
  function Changes(qs: seq<Quote>): (cs: seq<real>)
    requires forall i :: 0 <= i < |qs| ==> Counted(qs[i])
    ensures |cs| == |qs|
    ensures forall i :: 0 <= i < |qs| ==> qs[i].changePct == Some(cs[i])
  {
    var cs := seq(|qs|, i requires 0 <= i < |qs| => qs[i].changePct.GetOr(0.0));
    forall i | 0 <= i < |qs|
      ensures qs[i].changePct == Some(cs[i])
    {
      assert Counted(qs[i]);
    }
    cs
  }

  const VixSymbol: string := "^VIX"

  /** The VIX reading: the price of the last VIX quote among the counted ones. */
  function VixValue(qs: seq<Quote>): (v: Option<real>)
    ensures (forall i :: 0 <= i < |qs| ==> qs[i].symbol != VixSymbol) ==> v.None?
    ensures forall i :: 0 <= i < |qs| && qs[i].symbol == VixSymbol ==>
      (forall j :: i < j < |qs| ==> qs[j].symbol != VixSymbol) ==> v == qs[i].price
  {
    if |qs| == 0 then None
    else
      var last := qs[|qs| - 1];
      if last.symbol == VixSymbol then last.price
      else
        var init := qs[..|qs| - 1];
        assert forall i :: 0 <= i < |init| ==> init[i] == qs[i];
        VixValue(init)
  }

  // ---------------------------------------------------------------------------
  // Breadth
  // ---------------------------------------------------------------------------

  /** Up more than half a percent. */
  predicate Advancing(c: real) { c > 0.5 }

  /** Down more than half a percent. */
  predicate Declining(c: real) { c < -0.5 }

  /** Within half a percent either way. */
  predicate Unchanged(c: real) { -0.5 <= c <= 0.5 }

  function CountIf(xs: seq<real>, p: real -> bool): (n: nat)
    ensures n <= |xs|
    ensures n == |xs| <==> forall i :: 0 <= i < |xs| ==> p(xs[i])
    ensures n == 0 <==> forall i :: 0 <= i < |xs| ==> !p(xs[i])
  {
    if |xs| == 0 then 0
    else (if p(xs[0]) then 1 else 0) + CountIf(xs[1..], p)
  }

  /** Every change is advancing, declining or unchanged, and only one of them. */
  lemma {:induction false} BreadthPartition(xs: seq<real>)
    ensures CountIf(xs, Advancing) + CountIf(xs, Declining) + CountIf(xs, Unchanged) == |xs|
  {
    if |xs| > 0 {
      BreadthPartition(xs[1..]);
    }
  }

  /** `part` out of `whole` as a percentage. */
  lemma Percentage(part: nat, whole: nat)
    requires 0 < whole && part <= whole
    ensures 0.0 <= (part as real / whole as real) * 100.0 <= 100.0
    ensures (part as real / whole as real) * 100.0 == 100.0 <==> part == whole
    ensures (part as real / whole as real) * 100.0 == 0.0 <==> part == 0
  {
    var q := part as real / whole as real;
    assert q * whole as real == part as real;
    assert 0.0 <= q <= 1.0;
    assert q == 1.0 <==> part == whole;
  }

  datatype Breadth = Breadth(positive: nat, negative: nat, neutral: Option<nat>, total: nat, percentage: Option<real>)

  /** The breadth of the counted changes: how many advance, decline and hold, and the
      percentage advancing. */
  function BreadthOf(cs: seq<real>): (b: Breadth)
    requires |cs| > 0
    ensures b.total == |cs| && b.neutral.Some? && b.percentage.Some?
    ensures b.positive + b.negative + b.neutral.value == b.total
    ensures 0.0 <= b.percentage.value <= 100.0
    ensures b.percentage.value == 100.0 <==> forall i :: 0 <= i < |cs| ==> Advancing(cs[i])
    ensures b.percentage.value == 0.0 <==> forall i :: 0 <= i < |cs| ==> !Advancing(cs[i])
    ensures b.positive == CountIf(cs, Advancing) && b.negative == CountIf(cs, Declining)
    ensures b.neutral == Some(CountIf(cs, Unchanged))
    ensures b.percentage == Some((b.positive as real / b.total as real) * 100.0)
  {
    BreadthPartition(cs);
    var pos := CountIf(cs, Advancing);
    var pct := (pos as real / |cs| as real) * 100.0;
    Percentage(pos, |cs|);
    Breadth(pos, CountIf(cs, Declining), Some(CountIf(cs, Unchanged)), |cs|, Some(pct))
  }

  // ---------------------------------------------------------------------------
  // Weighted return
  // ---------------------------------------------------------------------------

  const DollarSymbol: string := "DX-Y.NYB"

  /** The symbols that carry a sentiment weight. */
  const WeightedSymbols: seq<string> := [
    "^GSPC", "^DJI", "^IXIC", "^RUT", "ES=F",
    "^GDAXI", "^FTSE", "^STOXX50E",
    "^N225", "^HSI", "^NSEI", "^BSESN", "^KS11",
    VixSymbol, DollarSymbol]

  /** The sentiment weight of a symbol; only the listed symbols have one, and exactly
      the two fear gauges, the VIX and the dollar index, weigh negatively. */
  function Weight(symbol: string): (w: Option<real>)
    ensures w.Some? <==> symbol in WeightedSymbols
    ensures w.Some? ==> -0.07 <= w.value <= 0.15 && w.value != 0.0
    ensures w.Some? && w.value < 0.0 <==> symbol == VixSymbol || symbol == DollarSymbol
    ensures symbol == "^GSPC" <==> w == Some(0.15)
  {
    if symbol == "^GSPC" then Some(0.15)
    else if symbol == "^DJI" then Some(0.10)
    else if symbol == "^IXIC" then Some(0.10)
    else if symbol == "^RUT" then Some(0.05)
    else if symbol == "ES=F" then Some(0.05)
    else if symbol == "^GDAXI" then Some(0.08)
    else if symbol == "^FTSE" then Some(0.07)
    else if symbol == "^STOXX50E" then Some(0.05)
    else if symbol == "^N225" then Some(0.08)
    else if symbol == "^HSI" then Some(0.07)
    else if symbol == "^NSEI" then Some(0.05)
    else if symbol == "^BSESN" then Some(0.03)
    else if symbol == "^KS11" then Some(0.02)
    else if symbol == VixSymbol then Some(-0.07)
    else if symbol == DollarSymbol then Some(-0.03)
    else None
  }

  /** A quote's contribution: its change times its weight, or nothing when unweighted. */
  function Contribution(q: Quote): real
    requires Counted(q)
  {
    match Weight(q.symbol)
    case None => 0.0
    case Some(w) => q.changePct.value * w
  }

  /** The sum of the contributions: it has the sign the contributions share. */
  function WeightedReturn(qs: seq<Quote>): (r: real)
    requires forall i :: 0 <= i < |qs| ==> Counted(qs[i])
    ensures (forall i :: 0 <= i < |qs| ==> 0.0 <= Contribution(qs[i])) ==> 0.0 <= r
    ensures (forall i :: 0 <= i < |qs| ==> Contribution(qs[i]) <= 0.0) ==> r <= 0.0
  {
    if |qs| == 0 then 0.0 else Contribution(qs[0]) + WeightedReturn(qs[1..])
  }

  predicate Weighted(q: Quote)
  {
    Weight(q.symbol).Some?
  }

  /** Quotes without a weight add nothing: only the weighted quotes decide the
      weighted return. */
  lemma {:induction false} UnweightedIgnored(qs: seq<Quote>)
    requires forall i :: 0 <= i < |qs| ==> Counted(qs[i])
    ensures WeightedReturn(Filter(qs, Weighted)) == WeightedReturn(qs)
  {
    if |qs| > 0 {
      UnweightedIgnored(qs[1..]);
    }
  }

  /** A flat market has a zero weighted return. */
  lemma {:induction false} FlatWeightedReturn(qs: seq<Quote>)
    requires forall i :: 0 <= i < |qs| ==> Counted(qs[i]) && qs[i].changePct.value == 0.0
    ensures WeightedReturn(qs) == 0.0
  {
    if |qs| > 0 {
      FlatWeightedReturn(qs[1..]);
      UnchangedContributesNothing(qs[0]);
    }
  }

  lemma UnchangedContributesNothing(q: Quote)
    requires Counted(q) && q.changePct.value == 0.0
    ensures Contribution(q) == 0.0
  {
  }

  /** A weighted return mapped from -3 % .. +3 % onto 0 .. 100, clamped at the ends. */
  function Normalize(w: real): (r: real)
    ensures 0.0 <= r <= 100.0
    ensures r == 0.0 <==> w <= -3.0
    ensures r == 100.0 <==> 3.0 <= w
    ensures r == 50.0 <==> w == 0.0
  {
    var n := ((w + 3.0) / 6.0) * 100.0;
    if n < 0.0 then 0.0 else if 100.0 < n then 100.0 else n
  }

  /** A larger weighted return never normalizes lower. */
  lemma NormalizeMonotone(a: real, b: real)
    requires a <= b
    ensures Normalize(a) <= Normalize(b)
  {
  }

  // ---------------------------------------------------------------------------
  // VIX
  // ---------------------------------------------------------------------------

  /** The VIX thresholds. */
  const ExtremeFearLevel: real := 30.0
  const FearLevel: real := 20.0
  const NeutralLevel: real := 15.0
  const GreedLevel: real := 12.0

  datatype VixReading = VixReading(score: real, status: string)

  /** The VIX score and its status: the higher the VIX, the more fear and the lower
      the score; no reading scores the middle. */
  function VixScore(v: Option<real>): (r: VixReading)
    ensures v.None? <==> r == VixReading(50.0, "Unknown")
    ensures v.Some? && ExtremeFearLevel <= v.value <==> r == VixReading(10.0, "Extreme Fear")
    ensures v.Some? && FearLevel <= v.value < ExtremeFearLevel <==> r == VixReading(30.0, "Fear")
    ensures v.Some? && NeutralLevel <= v.value < FearLevel <==> r == VixReading(50.0, "Neutral")
    ensures v.Some? && GreedLevel <= v.value < NeutralLevel <==> r == VixReading(70.0, "Greed")
    ensures v.Some? && v.value < GreedLevel <==> r == VixReading(90.0, "Extreme Greed")
  {
    match v
    case None => VixReading(50.0, "Unknown")
    case Some(x) =>
      if x >= ExtremeFearLevel then VixReading(10.0, "Extreme Fear")
      else if x >= FearLevel then VixReading(30.0, "Fear")
      else if x >= NeutralLevel then VixReading(50.0, "Neutral")
      else if x >= GreedLevel then VixReading(70.0, "Greed")
      else VixReading(90.0, "Extreme Greed")
  }

  /** A higher VIX never scores higher. */
  lemma VixScoreFalls(a: real, b: real)
    requires a <= b
    ensures VixScore(Some(b)).score <= VixScore(Some(a)).score
  {
  }

  // ---------------------------------------------------------------------------
  // Score and label
  // ---------------------------------------------------------------------------

  /** The label bands, from most bearish (0) to most bullish (4). */
  function Band(score: real): (k: nat)
    ensures k <= 4
    ensures k == 4 <==> 70.0 <= score
    ensures k == 3 <==> 55.0 <= score < 70.0
    ensures k == 2 <==> 45.0 <= score < 55.0
    ensures k == 1 <==> 30.0 <= score < 45.0
    ensures k == 0 <==> score < 30.0
  {
    if score >= 70.0 then 4
    else if score >= 55.0 then 3
    else if score >= 45.0 then 2
    else if score >= 30.0 then 1
    else 0
  }

  /** A higher score never falls in a lower band. */
  lemma BandMonotone(a: real, b: real)
    requires a <= b
    ensures Band(a) <= Band(b)
  {
  }

  function BandLabel(k: nat): string
  {
    if k == 4 then "Bullish"
    else if k == 3 then "Slightly Bullish"
    else if k == 2 then "Neutral"
    else if k == 1 then "Slightly Bearish"
    else "Bearish"
  }

  function BandColor(k: nat): string
  {
    if k == 4 then "green"
    else if k == 3 then "lightgreen"
    else if k == 2 then "yellow"
    else if k == 1 then "orange"
    else "red"
  }

  datatype Factors = Factors(breadthScore: real, weightedReturnScore: real, vixScore: real)

  datatype SentimentResult = SentimentResult(
    score: real,
    sentimentLabel: string,
    color: string,
    breadth: Breadth,
    vix: Option<real>,
    vixStatus: string,
    factors: Option<Factors>)

  /** The answer when nothing could be counted. */
  const NoData: SentimentResult :=
    SentimentResult(50.0, "Neutral", "yellow", Breadth(0, 0, None, 0, None), None, "Unknown", None)

  /** Two fifths breadth, two fifths weighted return, one fifth VIX. */
  function Blend(breadth: real, weighted: real, vix: real): (s: real)
    ensures 0.0 <= breadth <= 100.0 && 0.0 <= weighted <= 100.0 && 0.0 <= vix <= 100.0 ==> 0.0 <= s <= 100.0
    ensures breadth == weighted == vix ==> s == breadth
  {
    breadth * 0.40 + weighted * 0.40 + vix * 0.20
  }

  /** The sentiment of a non-empty list of counted quotes. */
  function Scored(qs: seq<Quote>): (r: SentimentResult)
    requires |qs| > 0
    requires forall i :: 0 <= i < |qs| ==> Counted(qs[i])
    ensures 0.0 <= r.score <= 100.0
    ensures r.breadth == BreadthOf(Changes(qs))
    ensures r.vix == VixValue(qs) && r.vixStatus == VixScore(r.vix).status
    ensures r.factors == Some(Factors(r.breadth.percentage.value, Normalize(WeightedReturn(qs)), VixScore(r.vix).score))
    ensures r.score == Blend(r.breadth.percentage.value, r.factors.value.weightedReturnScore, r.factors.value.vixScore)
    ensures r.sentimentLabel == BandLabel(Band(r.score)) && r.color == BandColor(Band(r.score))
  {
    var breadth := BreadthOf(Changes(qs));
    var weighted := Normalize(WeightedReturn(qs));
    var vix := VixValue(qs);
    var reading := VixScore(vix);
    var score := Blend(breadth.percentage.value, weighted, reading.score);
    var band := Band(score);
    SentimentResult(score, BandLabel(band), BandColor(band), breadth, vix, reading.status,
                    Some(Factors(breadth.percentage.value, weighted, reading.score)))
  }

  /** `calculate_sentiment`: nothing counted gives the neutral answer; otherwise a
      score between 0 and 100 blended from the breadth of the counted changes, their
      normalized weighted return and the VIX reading, labelled by its band. */
  function CalculateSentiment(m: Markets): (r: SentimentResult)
    ensures |CountedQuotes(m)| == 0 ==> r == NoData
    ensures |CountedQuotes(m)| > 0 ==>
      && 0.0 <= r.score <= 100.0
      && r.breadth.total == |CountedQuotes(m)|
      && r.breadth.neutral.Some? && r.breadth.percentage.Some?
      && r.breadth.positive + r.breadth.negative + r.breadth.neutral.value == r.breadth.total
      && r.breadth == BreadthOf(Changes(CountedQuotes(m)))
      && r.vix == VixValue(CountedQuotes(m))
      && r.vixStatus == VixScore(r.vix).status
      && r.factors.Some?
      && r.factors.value.breadthScore == r.breadth.percentage.value
      && r.factors.value.vixScore == VixScore(r.vix).score
      && r.factors.value.weightedReturnScore == Normalize(WeightedReturn(CountedQuotes(m)))
      && r.score == Blend(r.breadth.percentage.value, r.factors.value.weightedReturnScore, r.factors.value.vixScore)
    ensures r.sentimentLabel == BandLabel(Band(r.score)) && r.color == BandColor(Band(r.score))
    ensures r.sentimentLabel == "Bullish" && r.color == "green" <==> 70.0 <= r.score
    ensures r.sentimentLabel == "Slightly Bullish" && r.color == "lightgreen" <==> 55.0 <= r.score < 70.0
    ensures r.sentimentLabel == "Neutral" && r.color == "yellow" <==> 45.0 <= r.score < 55.0
    ensures r.sentimentLabel == "Slightly Bearish" && r.color == "orange" <==> 30.0 <= r.score < 45.0
    ensures r.sentimentLabel == "Bearish" && r.color == "red" <==> r.score < 30.0
  {
    var qs := CountedQuotes(m);
    if |qs| == 0 then NoData else Scored(qs)
  }

  /** Commodities do not move the sentiment. */
  lemma CommoditiesIgnored(m: Markets, other: seq<Quote>)
    ensures CalculateSentiment(m.(commodities := other)) == CalculateSentiment(m)
  {
    assert CountedQuotes(m.(commodities := other)) == CountedQuotes(m);
  }

  /** A broad rally with a weighted return of at least 3 % is bullish whatever the
      VIX says. */
  lemma BroadRallyIsBullish(m: Markets)
    requires |CountedQuotes(m)| > 0
    requires forall i :: 0 <= i < |CountedQuotes(m)| ==> Advancing(CountedQuotes(m)[i].changePct.value)
    requires 3.0 <= WeightedReturn(CountedQuotes(m))
    ensures CalculateSentiment(m).sentimentLabel == "Bullish"
  {
    var qs := CountedQuotes(m);
    var cs := Changes(qs);
    assert forall i :: 0 <= i < |cs| ==> Advancing(cs[i]);
    assert BreadthOf(cs).percentage.value == 100.0;
  }

  /** A broad sell-off with a weighted return of at most -3 % is bearish whatever the
      VIX says. */
  lemma BroadSellOffIsBearish(m: Markets)
    requires |CountedQuotes(m)| > 0
    requires forall i :: 0 <= i < |CountedQuotes(m)| ==> Declining(CountedQuotes(m)[i].changePct.value)
    requires WeightedReturn(CountedQuotes(m)) <= -3.0
    ensures CalculateSentiment(m).sentimentLabel == "Bearish"
  {
    var qs := CountedQuotes(m);
    var cs := Changes(qs);
    assert forall i :: 0 <= i < |cs| ==> !Advancing(cs[i]);
    assert BreadthOf(cs).percentage.value == 0.0;
  }

  /** An entirely flat market with no VIX reading has no advancing index, so it scores
      30, on the lower edge of slightly bearish. */
  lemma FlatMarketWithoutVix(m: Markets)
    requires |CountedQuotes(m)| > 0
    requires forall i :: 0 <= i < |CountedQuotes(m)| ==> CountedQuotes(m)[i].changePct.value == 0.0
    requires forall i :: 0 <= i < |CountedQuotes(m)| ==> CountedQuotes(m)[i].symbol != VixSymbol
    ensures CalculateSentiment(m).score == 30.0
    ensures CalculateSentiment(m).sentimentLabel == "Slightly Bearish"
  {
    var qs := CountedQuotes(m);
    var cs := Changes(qs);
    FlatWeightedReturn(qs);
    assert forall i :: 0 <= i < |cs| ==> !Advancing(cs[i]);
    assert BreadthOf(cs).percentage.value == 0.0;
  }
}
