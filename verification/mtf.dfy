/** Multi-timeframe grouping, trading opportunity and the stock scanner
    (backend/core/dow_theory.py, `analyze_stock`, `_determine_opportunity`,
    `DowTheoryScanner.scan_stocks` and `scan_with_filter`). */
module Mtf {
  import opened Wrappers
  import opened Seqs
  import opened Candles
  import opened Dow

  // ---------------------------------------------------------------------------
  // Timeframes and groups
  // ---------------------------------------------------------------------------

  datatype Timeframe = Monthly | Weekly | Daily | FourHour | OneHour | FifteenMin

  /** The six timeframes, in the order they are analysed. */
  const AllTimeframes: seq<Timeframe> := [Monthly, Weekly, Daily, FourHour, OneHour, FifteenMin]

  /** Shorter timeframes look for swings over 3 bars on each side, the others over 5. */
  function SwingLookbackFor(tf: Timeframe): nat
  {
    if tf == OneHour || tf == FifteenMin then 3 else 5
  }

  datatype GroupKey = SuperTide | Tide | Wave | Ripple

  function GroupName(g: GroupKey): string
  {
    match g
    case SuperTide => "Super TIDE"
    case Tide => "TIDE"
    case Wave => "WAVE"
    case Ripple => "RIPPLE"
  }

  /** The timeframes each group votes over; the 4-hour frame sits in two groups and
      so does the 1-hour frame. */
  function GroupFrames(g: GroupKey): seq<Timeframe>
  {
    match g
    case SuperTide => [Monthly, Weekly]
    case Tide => [Daily, FourHour]
    case Wave => [FourHour, OneHour]
    case Ripple => [OneHour, FifteenMin]
  }

  // ---------------------------------------------------------------------------
  // Group vote
  // ---------------------------------------------------------------------------

  datatype GroupTrend = Bullish | Bearish | BullishMixed | BearishMixed | NeutralGroup

  function GroupLabel(g: GroupTrend): string
  {
    match g
    case Bullish => "BULLISH"
    case Bearish => "BEARISH"
    case BullishMixed => "BULLISH (Mixed)"
    case BearishMixed => "BEARISH (Mixed)"
    case NeutralGroup => "NEUTRAL"
  }

  function GroupColor(g: GroupTrend): string
  {
    match g
    case Bullish => "green"
    case Bearish => "red"
    case BullishMixed => "lightgreen"
    case BearishMixed => "orange"
    case NeutralGroup => "yellow"
  }

  /** A trend that makes higher highs, strong or weak. */
  predicate IsBullishTrend(t: TrendType)
  {
    t == Uptrend || t == WeakUp
  }

  /** A trend that makes lower lows, strong or weak. */
  predicate IsBearishTrend(t: TrendType)
  {
    t == Downtrend || t == WeakDown
  }

  /** The vote's "HH-HL" test picks out the strong and the weak uptrend. */
  lemma TrendLabelBullish(t: TrendType)
    ensures Contains(TrendLabel(t), "HH-HL") <==> IsBullishTrend(t)
  {
    match t
    case Uptrend => assert "HH-HL"[..5] == "HH-HL";
    case Downtrend => NotContainsByPrefix("LL-LH", "HH-HL");
    case Sideways => NotContainsByPrefix("HLs-LHs", "HH-HL");
    case WeakUp => assert "HH-HL (Weak)"[..5] == "HH-HL";
    case WeakDown => NotContainsByPrefix("LL-LH (Weak)", "HH-HL");
  }

  /** The vote's "LL-LH" test picks out the strong and the weak downtrend. */
  lemma TrendLabelBearish(t: TrendType)
    ensures Contains(TrendLabel(t), "LL-LH") <==> IsBearishTrend(t)
  {
    match t
    case Uptrend => NotContainsByPrefix("HH-HL", "LL-LH");
    case Downtrend => assert "LL-LH"[..5] == "LL-LH";
    case Sideways => NotContainsByPrefix("HLs-LHs", "LL-LH");
    case WeakUp => NotContainsByPrefix("HH-HL (Weak)", "LL-LH");
    case WeakDown => assert "LL-LH (Weak)"[..5] == "LL-LH";
  }

  /** How many trends have `word` in their label (the counts of the group vote in `analyze_stock`). */
  function CountContaining(trends: seq<TrendType>, word: string): (c: nat)
    ensures c <= |trends|
  {
    if |trends| == 0 then 0
    else (if Contains(TrendLabel(trends[0]), word) then 1 else 0) + CountContaining(trends[1..], word)
  }

  /** How many trends satisfy `p`. */
  function CountWhere(trends: seq<TrendType>, p: TrendType -> bool): (c: nat)
    ensures c <= |trends|
  {
    if |trends| == 0 then 0
    else (if p(trends[0]) then 1 else 0) + CountWhere(trends[1..], p)
  }

  /** Every trend satisfies `p` exactly when all of them are counted. */
  lemma {:induction false} CountWhereAll(trends: seq<TrendType>, p: TrendType -> bool)
    ensures CountWhere(trends, p) == |trends| <==> forall i :: 0 <= i < |trends| ==> p(trends[i])
  {
    if |trends| > 0 {
      CountWhereAll(trends[1..], p);
      assert forall i :: 1 <= i < |trends| ==> trends[i] == trends[1..][i - 1];
    }
  }

  /** Counting by label agrees with counting by meaning. */
  lemma {:induction false} CountByLabel(trends: seq<TrendType>)
    ensures CountContaining(trends, "HH-HL") == CountWhere(trends, IsBullishTrend)
    ensures CountContaining(trends, "LL-LH") == CountWhere(trends, IsBearishTrend)
  {
    if |trends| > 0 {
      TrendLabelBullish(trends[0]);
      TrendLabelBearish(trends[0]);
      CountByLabel(trends[1..]);
    }
  }

  /** The group vote of `analyze_stock`: unanimous bullish or bearish first, then the
      majority marked "Mixed", a tie neutral. A group with no trends has no vote. */
  function GroupVote(trends: seq<TrendType>): (r: Option<GroupTrend>)
    ensures r.None? <==> |trends| == 0
    ensures r == Some(Bullish) <==> 0 < |trends| && forall i :: 0 <= i < |trends| ==> IsBullishTrend(trends[i])
    ensures r == Some(Bearish) <==> 0 < |trends| && forall i :: 0 <= i < |trends| ==> IsBearishTrend(trends[i])
    ensures r == Some(BullishMixed) <==>
      && r != Some(Bullish) && r != Some(Bearish) && 0 < |trends|
      && CountWhere(trends, IsBearishTrend) < CountWhere(trends, IsBullishTrend)
    ensures r == Some(BearishMixed) <==>
      && r != Some(Bullish) && r != Some(Bearish) && 0 < |trends|
      && CountWhere(trends, IsBullishTrend) < CountWhere(trends, IsBearishTrend)
    ensures r == Some(NeutralGroup) <==>
      && r != Some(Bullish) && r != Some(Bearish) && 0 < |trends|
      && CountWhere(trends, IsBullishTrend) == CountWhere(trends, IsBearishTrend)
  {
    CountByLabel(trends);
    CountWhereAll(trends, IsBullishTrend);
    CountWhereAll(trends, IsBearishTrend);
    if |trends| == 0 then None
    else
      assert IsBullishTrend(trends[0]) ==> !IsBearishTrend(trends[0]);
      var bullish := CountContaining(trends, "HH-HL");
      var bearish := CountContaining(trends, "LL-LH");
      if bullish == |trends| then Some(Bullish)
      else if bearish == |trends| then Some(Bearish)
      else if bullish > bearish then Some(BullishMixed)
      else if bearish > bullish then Some(BearishMixed)
      else Some(NeutralGroup)
  }

  // ---------------------------------------------------------------------------
  // Opportunity
  // ---------------------------------------------------------------------------

  /** The four group votes; a missing group has no vote. */
  datatype Groups = Groups(superTide: Option<GroupTrend>, tide: Option<GroupTrend>, wave: Option<GroupTrend>, ripple: Option<GroupTrend>)
  {
    function Get(g: GroupKey): Option<GroupTrend>
    {
      match g
      case SuperTide => superTide
      case Tide => tide
      case Wave => wave
      case Ripple => ripple
    }
  }

  datatype Opportunity = StrongBuy | StrongSellAvoid | PullbackBuy | BounceSell | IntradayBuy | IntradaySell | WaitNoTrade

  function OpportunityType(o: Opportunity): string
  {
    match o
    case StrongBuy => "STRONG BUY"
    case StrongSellAvoid => "STRONG SELL / AVOID"
    case PullbackBuy => "PULLBACK BUY"
    case BounceSell => "BOUNCE SELL"
    case IntradayBuy => "INTRADAY BUY"
    case IntradaySell => "INTRADAY SELL"
    case WaitNoTrade => "WAIT / NO TRADE"
  }

  function OpportunityColor(o: Opportunity): string
  {
    match o
    case StrongBuy => "green"
    case StrongSellAvoid => "red"
    case PullbackBuy => "lightgreen"
    case BounceSell => "orange"
    case IntradayBuy => "cyan"
    case IntradaySell => "pink"
    case WaitNoTrade => "gray"
  }

  function OpportunityStrategy(o: Opportunity): string
  {
    match o
    case StrongBuy => "Positional / Swing"
    case StrongSellAvoid => "Avoid Long / Short"
    case PullbackBuy => "Positional"
    case BounceSell => "Short on bounce"
    case IntradayBuy => "Intraday"
    case IntradaySell => "Intraday"
    case WaitNoTrade => "Wait"
  }

  /** A group's trend label, or the empty label for a missing group. */
  function LabelOf(g: Option<GroupTrend>): string
  {
    match g
    case None => ""
    case Some(t) => GroupLabel(t)
  }

  /** A group that voted bullish, unanimously or by majority. */
  predicate Bull(g: Option<GroupTrend>)
  {
    g == Some(Bullish) || g == Some(BullishMixed)
  }

  /** A group that voted bearish, unanimously or by majority. */
  predicate Bear(g: Option<GroupTrend>)
  {
    g == Some(Bearish) || g == Some(BearishMixed)
  }

  /** Every group present satisfies `p`; missing groups are skipped. */
  predicate AllPresent(gs: Groups, p: Option<GroupTrend> -> bool)
  {
    && (gs.superTide.Some? ==> p(gs.superTide))
    && (gs.tide.Some? ==> p(gs.tide))
    && (gs.wave.Some? ==> p(gs.wave))
    && (gs.ripple.Some? ==> p(gs.ripple))
  }

  /** The rule table's "BULLISH" test picks out the unanimous and the majority bullish
      vote, and never a missing group. */
  lemma GroupLabelBullish(g: Option<GroupTrend>)
    ensures Contains(LabelOf(g), "BULLISH") <==> Bull(g)
  {
    match g
    case None =>
    case Some(t) =>
      match t
      case Bullish => assert "BULLISH"[..7] == "BULLISH";
      case Bearish => NotContainsByPrefix("BEARISH", "BULLISH");
      case BullishMixed => assert "BULLISH (Mixed)"[..7] == "BULLISH";
      case BearishMixed => NotContainsByPrefix("BEARISH (Mixed)", "BULLISH");
      case NeutralGroup => NotContainsByPrefix("NEUTRAL", "BULLISH");
  }

  /** The rule table's "BEARISH" test picks out the unanimous and the majority bearish
      vote, and never a missing group. */
  lemma GroupLabelBearish(g: Option<GroupTrend>)
    ensures Contains(LabelOf(g), "BEARISH") <==> Bear(g)
  {
    match g
    case None =>
    case Some(t) =>
      match t
      case Bullish => NotContainsByPrefix("BULLISH", "BEARISH");
      case Bearish => assert "BEARISH"[..7] == "BEARISH";
      case BullishMixed => NotContainsByPrefix("BULLISH (Mixed)", "BEARISH");
      case BearishMixed => assert "BEARISH (Mixed)"[..7] == "BEARISH";
      case NeutralGroup => NotContainsByPrefix("NEUTRAL", "BEARISH");
  }

  /** A label passes `all(word in t for t in labels if t)` when it is empty or holds
      `word`. */
  predicate Aligned(text: string, word: string)
  {
    text == "" || Contains(text, word)
  }

  /** A present group's label is never empty, so it is skipped only when missing. */
  lemma AlignedLabel(g: Option<GroupTrend>, word: string)
    ensures Aligned(LabelOf(g), word) <==> g.None? || Contains(LabelOf(g), word)
  {
    if g.Some? {
      assert |LabelOf(g)| > 0;
    }
  }

  /** `_determine_opportunity`: seven rules over the group labels, first match wins. */
  function DetermineOpportunity(gs: Groups): (r: Opportunity)
    ensures r == StrongBuy <==> AllPresent(gs, Bull)
    ensures r == StrongSellAvoid <==> !AllPresent(gs, Bull) && AllPresent(gs, Bear)
    ensures r == PullbackBuy <==> Bull(gs.superTide) && Bear(gs.tide)
    ensures r == BounceSell <==> Bear(gs.superTide) && Bull(gs.tide)
    ensures r == IntradayBuy <==>
      && !AllPresent(gs, Bull) && !AllPresent(gs, Bear)
      && !(Bull(gs.superTide) && Bear(gs.tide)) && !(Bear(gs.superTide) && Bull(gs.tide))
      && Bull(gs.wave) && Bull(gs.ripple)
    ensures r == IntradaySell <==>
      && !AllPresent(gs, Bull) && !AllPresent(gs, Bear)
      && !(Bull(gs.superTide) && Bear(gs.tide)) && !(Bear(gs.superTide) && Bull(gs.tide))
      && Bear(gs.wave) && Bear(gs.ripple)
  {
    var superTide := LabelOf(gs.superTide);
    var tide := LabelOf(gs.tide);
    var wave := LabelOf(gs.wave);
    var ripple := LabelOf(gs.ripple);
    GroupLabelBullish(gs.superTide);
    GroupLabelBullish(gs.tide);
    GroupLabelBullish(gs.wave);
    GroupLabelBullish(gs.ripple);
    GroupLabelBearish(gs.superTide);
    GroupLabelBearish(gs.tide);
    GroupLabelBearish(gs.wave);
    GroupLabelBearish(gs.ripple);
    AlignedLabel(gs.superTide, "BULLISH");
    AlignedLabel(gs.tide, "BULLISH");
    AlignedLabel(gs.wave, "BULLISH");
    AlignedLabel(gs.ripple, "BULLISH");
    AlignedLabel(gs.superTide, "BEARISH");
    AlignedLabel(gs.tide, "BEARISH");
    AlignedLabel(gs.wave, "BEARISH");
    AlignedLabel(gs.ripple, "BEARISH");
    if Aligned(superTide, "BULLISH") && Aligned(tide, "BULLISH") && Aligned(wave, "BULLISH") && Aligned(ripple, "BULLISH") then StrongBuy
    else if Aligned(superTide, "BEARISH") && Aligned(tide, "BEARISH") && Aligned(wave, "BEARISH") && Aligned(ripple, "BEARISH") then StrongSellAvoid
    else if Contains(superTide, "BULLISH") && Contains(tide, "BEARISH") then PullbackBuy
    else if Contains(superTide, "BEARISH") && Contains(tide, "BULLISH") then BounceSell
    else if Contains(wave, "BULLISH") && Contains(ripple, "BULLISH") then IntradayBuy
    else if Contains(wave, "BEARISH") && Contains(ripple, "BEARISH") then IntradaySell
    else WaitNoTrade
  }

  /** With no group at all, the vacuous "all aligned bullish" test already fires. */
  lemma NoGroupsIsStrongBuy()
    ensures DetermineOpportunity(Groups(None, None, None, None)) == StrongBuy
  {
  }

  // ---------------------------------------------------------------------------
  // One stock
  // ---------------------------------------------------------------------------

  /** The candles fetched for each timeframe (`None` where nothing could be fetched; the
      4-hour frame already aggregated). */
  type FrameData = Timeframe -> Option<seq<Candle>>

  datatype StockAnalysis = StockAnalysis(
    symbol: string,
    frames: map<Timeframe, TrendResult>,
    groups: Groups,
    opportunity: Opportunity)

  /** The vote of one group over the trends of its two timeframes. */
  function VoteOf(frames: map<Timeframe, TrendResult>, g: GroupKey): (r: Option<GroupTrend>)
    requires forall tf :: tf in frames
    ensures r.Some?
  {
    var tfs := GroupFrames(g);
    GroupVote([frames[tfs[0]].trend, frames[tfs[1]].trend])
  }

  lemma AllTimeframesListed(tf: Timeframe)
    ensures tf in AllTimeframes
  {
    match tf
    case Monthly => assert AllTimeframes[0] == tf;
    case Weekly => assert AllTimeframes[1] == tf;
    case Daily => assert AllTimeframes[2] == tf;
    case FourHour => assert AllTimeframes[3] == tf;
    case OneHour => assert AllTimeframes[4] == tf;
    case FifteenMin => assert AllTimeframes[5] == tf;
  }

  /** The trend of one timeframe, classified with that timeframe's lookback. */
  function FrameTrend(data: FrameData, tf: Timeframe): TrendResult
  {
    ClassifyTrend(data(tf), SwingLookbackFor(tf))
  }

  /** The trend of every timeframe. */
  function Frames(data: FrameData): (m: map<Timeframe, TrendResult>)
    ensures forall tf :: tf in m && m[tf] == FrameTrend(data, tf)
  {
    var m := map tf: Timeframe | tf in AllTimeframes :: FrameTrend(data, tf);
    forall tf: Timeframe
      ensures tf in m
    {
      AllTimeframesListed(tf);
    }
    m
  }

  /** The four group votes over the given timeframe trends. */
  function VoteAll(frames: map<Timeframe, TrendResult>): (gs: Groups)
    requires forall tf :: tf in frames
    ensures gs.superTide == VoteOf(frames, SuperTide) && gs.tide == VoteOf(frames, Tide)
    ensures gs.wave == VoteOf(frames, Wave) && gs.ripple == VoteOf(frames, Ripple)
    ensures gs.superTide.Some? && gs.tide.Some? && gs.wave.Some? && gs.ripple.Some?
  {
    Groups(VoteOf(frames, SuperTide), VoteOf(frames, Tide), VoteOf(frames, Wave), VoteOf(frames, Ripple))
  }

  /** `analyze_stock`: classify every timeframe with its lookback, vote every group over
      its two timeframes, and read the opportunity off the four votes. */
  function AnalyzeStock(symbol: string, data: FrameData): (a: StockAnalysis)
    ensures a.symbol == symbol
    ensures forall tf :: tf in a.frames && a.frames[tf] == FrameTrend(data, tf)
    ensures a.groups.superTide == VoteOf(a.frames, SuperTide) && a.groups.tide == VoteOf(a.frames, Tide)
    ensures a.groups.wave == VoteOf(a.frames, Wave) && a.groups.ripple == VoteOf(a.frames, Ripple)
    ensures a.groups.superTide.Some? && a.groups.tide.Some? && a.groups.wave.Some? && a.groups.ripple.Some?
    ensures a.opportunity == DetermineOpportunity(a.groups)
  {
    var frames := Frames(data);
    var groups := VoteAll(frames);
    StockAnalysis(symbol, frames, groups, DetermineOpportunity(groups))
  }

  /** Two bullish trends make a unanimous bullish group. */
  lemma PairVote(t1: TrendType, t2: TrendType)
    ensures IsBullishTrend(t1) && IsBullishTrend(t2) ==> GroupVote([t1, t2]) == Some(Bullish)
    ensures IsBearishTrend(t1) && IsBearishTrend(t2) ==> GroupVote([t1, t2]) == Some(Bearish)
  {
    var ts := [t1, t2];
    assert forall i :: 0 <= i < |ts| ==> ts[i] == t1 || ts[i] == t2;
  }

  /** A group whose two timeframes trend alike votes as the pair does. */
  lemma VoteOfAlike(frames: map<Timeframe, TrendResult>, g: GroupKey, t: TrendType)
    requires forall tf :: tf in frames
    requires frames[GroupFrames(g)[0]].trend == t && frames[GroupFrames(g)[1]].trend == t
    ensures VoteOf(frames, g) == GroupVote([t, t])
  {
  }

  /** Uptrends on every timeframe vote every group bullish, which is a strong buy. */
  lemma UptrendFramesStrongBuy(frames: map<Timeframe, TrendResult>, gs: Groups)
    requires forall tf :: tf in frames && frames[tf].trend == Uptrend
    requires gs.superTide == VoteOf(frames, SuperTide) && gs.tide == VoteOf(frames, Tide)
    requires gs.wave == VoteOf(frames, Wave) && gs.ripple == VoteOf(frames, Ripple)
    ensures DetermineOpportunity(gs) == StrongBuy
  {
    PairVote(Uptrend, Uptrend);
    VoteOfAlike(frames, SuperTide, Uptrend);
    VoteOfAlike(frames, Tide, Uptrend);
    VoteOfAlike(frames, Wave, Uptrend);
    VoteOfAlike(frames, Ripple, Uptrend);
    assert AllPresent(gs, Bull);
  }

  /** A stock that makes higher highs and higher lows on every timeframe is a strong buy. */
  lemma AllUptrendsAreStrongBuy(symbol: string, data: FrameData)
    requires forall tf: Timeframe :: FrameTrend(data, tf).trend == Uptrend
    ensures AnalyzeStock(symbol, data).opportunity == StrongBuy
  {
    var a := AnalyzeStock(symbol, data);
    assert forall tf :: tf in a.frames && a.frames[tf].trend == Uptrend;
    UptrendFramesStrongBuy(a.frames, a.groups);
  }

  /** Up on the monthly and weekly frames while down on the daily and 4-hour ones is a
      pullback buy, whatever the shorter frames do. */
  lemma PrimaryUpMediumDownIsPullback(symbol: string, data: FrameData)
    requires FrameTrend(data, Monthly).trend == Uptrend && FrameTrend(data, Weekly).trend == Uptrend
    requires FrameTrend(data, Daily).trend == Downtrend && FrameTrend(data, FourHour).trend == Downtrend
    ensures AnalyzeStock(symbol, data).opportunity == PullbackBuy
  {
    var a := AnalyzeStock(symbol, data);
    PairVote(Uptrend, Uptrend);
    PairVote(Downtrend, Downtrend);
    VoteOfAlike(a.frames, SuperTide, Uptrend);
    VoteOfAlike(a.frames, Tide, Downtrend);
  }

  // ---------------------------------------------------------------------------
  // Scanning
  // ---------------------------------------------------------------------------

  datatype ScanEntry =
    | Analyzed(analysis: StockAnalysis)
    | Failed(symbol: string, error: string)
  {
    function Symbol(): string
    {
      if Analyzed? then analysis.symbol else symbol
    }
  }

  /** `scan_stocks`: one entry per symbol, in order; a symbol whose analysis raised
      keeps its place as an error entry. `analyse` is the per-symbol outcome of
      `analyze_stock`: the candles it classified, or `Failure` with the message of the
      exception it raised. A failed download is not a `Failure`: `fetch_data` returns
      `None`, which becomes a missing timeframe of a successful analysis. */
  function ScanStocks(symbols: seq<string>, analyse: string -> Result<FrameData>): (r: seq<ScanEntry>)
    ensures |r| == |symbols|
    ensures forall i :: 0 <= i < |r| ==> r[i].Symbol() == symbols[i]
    ensures forall i :: 0 <= i < |r| ==> (r[i].Failed? <==> analyse(symbols[i]).Failure?)
    ensures forall i :: 0 <= i < |r| && r[i].Failed? ==> r[i].error == analyse(symbols[i]).error
    ensures forall i :: 0 <= i < |r| && r[i].Analyzed? ==> r[i].analysis == AnalyzeStock(symbols[i], analyse(symbols[i]).value)
  {
    seq(|symbols|, i requires 0 <= i < |symbols| =>
      match analyse(symbols[i])
      case Success(data) => Analyzed(AnalyzeStock(symbols[i], data))
      case Failure(e) => Failed(symbols[i], e))
  }

  /** The opportunity types each named filter lets through; unknown names let none. */
  function AllowedTypes(filter: string): seq<Opportunity>
  {
    if filter == "strong_buy" then [StrongBuy]
    else if filter == "pullback_buy" then [PullbackBuy, StrongBuy]
    else if filter == "intraday_buy" then [IntradayBuy, StrongBuy]
    else if filter == "bearish" then [StrongSellAvoid, BounceSell, IntradaySell]
    else if filter == "wait" then [WaitNoTrade]
    else []
  }

  predicate KnownFilter(filter: string)
  {
    filter in {"all", "strong_buy", "pullback_buy", "intraday_buy", "bearish", "wait"}
  }

  /** An entry passes a filter when it was analysed and its opportunity is allowed;
      error entries have no opportunity and never pass. */
  predicate Passes(e: ScanEntry, filter: string)
  {
    e.Analyzed? && e.analysis.opportunity in AllowedTypes(filter)
  }

  /** The test of one named filter, as a predicate on entries. */
  function PassesFilter(filter: string): ScanEntry -> bool
  {
    (e: ScanEntry) => Passes(e, filter)
  }

  /** The list comprehension of `scan_with_filter`: the entries that pass, in their
      order, each as often as it occurs, that is, the entries at the increasing
      indices of the passing ones. */
  function KeepPassing(results: seq<ScanEntry>, filter: string): (r: seq<ScanEntry>)
    ensures |r| == |Positions(results, PassesFilter(filter))|
    ensures forall k :: 0 <= k < |r| ==> r[k] == results[Positions(results, PassesFilter(filter))[k]]
    ensures forall e :: e in r <==> e in results && Passes(e, filter)
    ensures (forall i :: 0 <= i < |results| ==> !Passes(results[i], filter)) ==> r == []
  {
    var r := Filter(results, PassesFilter(filter));
    assert forall e :: e in r ==> Passes(e, filter) by {
      forall e | e in r
        ensures Passes(e, filter)
      {
        var k :| 0 <= k < |r| && r[k] == e;
        assert PassesFilter(filter)(r[k]);
      }
    }
    assert forall i :: 0 <= i < |results| && Passes(results[i], filter) ==> results[i] in r by {
      forall i | 0 <= i < |results| && Passes(results[i], filter)
        ensures results[i] in r
      {
        assert PassesFilter(filter)(results[i]);
      }
    }
    assert |r| > 0 ==> Passes(results[Positions(results, PassesFilter(filter))[0]], filter) by {
      if |r| > 0 {
        assert PassesFilter(filter)(r[0]);
      }
    }
    r
  }

  /** The filtering step of `scan_with_filter`: "all" keeps every entry; any other name
      keeps, in order, the analysed entries whose opportunity that filter allows. */
  function FilterResults(results: seq<ScanEntry>, filter: string): (r: seq<ScanEntry>)
    ensures filter == "all" ==> r == results
    ensures filter != "all" ==> |r| == |Positions(results, PassesFilter(filter))|
    ensures filter != "all" ==>
      forall k :: 0 <= k < |r| ==> r[k] == results[Positions(results, PassesFilter(filter))[k]]
    ensures filter != "all" ==> forall e :: e in r <==> e in results && Passes(e, filter)
    ensures !KnownFilter(filter) ==> r == []
    ensures |r| <= |results|
  {
    if filter == "all" then results
    else
      var r := KeepPassing(results, filter);
      assert !KnownFilter(filter) ==> AllowedTypes(filter) == [];
      r
  }

  /** `scan_with_filter`: scan, then filter. Under any filter but "all" the result is
      the scan's passing entries, in scan order. */
  function ScanWithFilter(symbols: seq<string>, filter: string, analyse: string -> Result<FrameData>): (r: seq<ScanEntry>)
    ensures filter == "all" ==> r == ScanStocks(symbols, analyse)
    ensures |r| <= |symbols|
    ensures filter != "all" ==>
      var scanned := ScanStocks(symbols, analyse);
      var ps := Positions(scanned, PassesFilter(filter));
      && |r| == |ps|
      && (forall k :: 0 <= k < |r| ==> r[k] == scanned[ps[k]])
      && (forall k :: 0 <= k < |r| ==> r[k].Analyzed? && r[k].analysis.opportunity in AllowedTypes(filter))
    ensures !KnownFilter(filter) ==> r == []
  {
    FilterResults(ScanStocks(symbols, analyse), filter)
  }

  /** A strong buy shows up under the pullback and intraday buy filters as well. */
  lemma StrongBuyPassesBuyFilters(results: seq<ScanEntry>, e: ScanEntry)
    requires e in FilterResults(results, "strong_buy")
    ensures e in FilterResults(results, "pullback_buy")
    ensures e in FilterResults(results, "intraday_buy")
  {
  }
}
