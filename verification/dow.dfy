/** Dow-theory swing detection and trend classification of one timeframe
    (backend/core/dow_theory.py, `DowTheoryAnalyzer.detect_swing_highs`,
    `detect_swing_lows` and `classify_trend`). */
module Dow {
  import opened Wrappers
  import opened Seqs
  import opened Candles

  /** The analyzer's default `swing_lookback`. */
  const DefaultLookback: nat := 5

  /** `classify_trend` needs at least this many candles. */
  const MinCandles: nat := 20

  // ---------------------------------------------------------------------------
  // Swings
  // ---------------------------------------------------------------------------

  datatype SwingKind = SwingHigh | SwingLow

  /** `lookback or self.swing_lookback`: a lookback of 0 falls back to the default. */
  function EffectiveLookback(lookback: nat): (lb: nat)
    ensures 1 <= lb
    ensures lookback != 0 ==> lb == lookback
  {
    if lookback == 0 then DefaultLookback else lookback
  }

  /** Index `i` is a swing of the given kind: its full window of `lb` bars on each side
      lies inside the series and no bar of the window is above (for a high) or below
      (for a low) it. Ties count, so every bar of a flat top is a swing high. */
  ghost predicate IsSwing(xs: seq<real>, lb: nat, kind: SwingKind, i: int)
  {
    && lb <= i && i + lb < |xs|
    && forall j :: i - lb <= j <= i + lb ==>
         (if kind == SwingHigh then xs[j] <= xs[i] else xs[i] <= xs[j])
  }

  /** The bars `i - lb .. i + lb`. */
  function Window(xs: seq<real>, lb: nat, i: nat): (w: seq<real>)
    requires lb <= i && i + lb < |xs|
    ensures |w| == 2 * lb + 1
    ensures forall j :: i - lb <= j <= i + lb ==> w[j - (i - lb)] == xs[j]
  {
    xs[i - lb..i + lb + 1]
  }

  /** The swing test of `detect_swing_highs`: the bar equals the maximum (or minimum) of its window. */
  predicate WindowExtreme(xs: seq<real>, lb: nat, kind: SwingKind, i: nat)
    requires lb <= i && i + lb < |xs|
  {
    var w := Window(xs, lb, i);
    if kind == SwingHigh then xs[i] == MaxOf(w) else xs[i] == MinOf(w)
  }

  /** Comparing with the window's extreme is the same as dominating every bar of it. */
  lemma WindowExtremeIsSwing(xs: seq<real>, lb: nat, kind: SwingKind, i: nat)
    requires lb <= i && i + lb < |xs|
    ensures WindowExtreme(xs, lb, kind, i) <==> IsSwing(xs, lb, kind, i)
  {
    var w := Window(xs, lb, i);
    assert w[lb] == xs[i];
    if IsSwing(xs, lb, kind, i) {
      var m := if kind == SwingHigh then MaxOf(w) else MinOf(w);
      var k :| 0 <= k < |w| && w[k] == m;
      assert w[k] == xs[k + (i - lb)];
    }
    if WindowExtreme(xs, lb, kind, i) {
      forall j | i - lb <= j <= i + lb
        ensures if kind == SwingHigh then xs[j] <= xs[i] else xs[i] <= xs[j]
      {
        assert w[j - (i - lb)] == xs[j];
      }
    }
  }

  /** The scan `for i in range(lb, n - lb)` from index `i` on: the swing indices, in
      increasing order. */
  function SwingsFrom(xs: seq<real>, lb: nat, kind: SwingKind, i: nat): (idx: seq<nat>)
    requires lb <= i
    ensures forall k :: 0 <= k < |idx| ==> i <= idx[k] && IsSwing(xs, lb, kind, idx[k])
    ensures forall k, m :: 0 <= k < m < |idx| ==> idx[k] < idx[m]
    ensures forall j :: i <= j && IsSwing(xs, lb, kind, j) ==> j in idx
    decreases |xs| - i
  {
    if i + lb >= |xs| then []
    else
      WindowExtremeIsSwing(xs, lb, kind, i);
      var rest := SwingsFrom(xs, lb, kind, i + 1);
      if WindowExtreme(xs, lb, kind, i) then [i] + rest else rest
  }

  /** `detect_swing_highs` / `detect_swing_lows`: the indices of the swings, in order.
      No swing sits within `lb` bars of either end of the series. */
  function DetectSwings(xs: seq<real>, lookback: nat, kind: SwingKind): (idx: seq<nat>)
    ensures forall k :: 0 <= k < |idx| ==> IsSwing(xs, EffectiveLookback(lookback), kind, idx[k])
    ensures forall k :: 0 <= k < |idx| ==> EffectiveLookback(lookback) <= idx[k] < |xs| - EffectiveLookback(lookback)
    ensures forall k, m :: 0 <= k < m < |idx| ==> idx[k] < idx[m]
    ensures forall j :: IsSwing(xs, EffectiveLookback(lookback), kind, j) ==> j in idx
  {
    var lb := EffectiveLookback(lookback);
    SwingsFrom(xs, lb, kind, lb)
  }

  /** The swing values, in order. */
  function ValuesAt(xs: seq<real>, idx: seq<nat>): (vs: seq<real>)
    requires forall k :: 0 <= k < |idx| ==> idx[k] < |xs|
    ensures |vs| == |idx|
    ensures forall k :: 0 <= k < |idx| ==> vs[k] == xs[idx[k]]
  {
    seq(|idx|, k requires 0 <= k < |idx| => xs[idx[k]])
  }

  /** Every bar of a flat stretch at least `2 * lb + 1` long, in the middle of it, is a
      swing high and a swing low at once. */
  lemma PlateauIsSwing(xs: seq<real>, lookback: nat, i: nat)
    requires EffectiveLookback(lookback) <= i && i + EffectiveLookback(lookback) < |xs|
    requires forall j :: i - EffectiveLookback(lookback) <= j <= i + EffectiveLookback(lookback) ==> xs[j] == xs[i]
    ensures i in DetectSwings(xs, lookback, SwingHigh) && i in DetectSwings(xs, lookback, SwingLow)
  {
    assert IsSwing(xs, EffectiveLookback(lookback), SwingHigh, i);
    assert IsSwing(xs, EffectiveLookback(lookback), SwingLow, i);
  }

  // ---------------------------------------------------------------------------
  // Trend
  // ---------------------------------------------------------------------------

  datatype TrendType = Uptrend | Downtrend | Sideways | WeakUp | WeakDown

  /** The `TrendType` values. */
  function TrendLabel(t: TrendType): string
  {
    match t
    case Uptrend => "HH-HL"
    case Downtrend => "LL-LH"
    case Sideways => "HLs-LHs"
    case WeakUp => "HH-HL (Weak)"
    case WeakDown => "LL-LH (Weak)"
  }

  function TrendColor(t: TrendType): string
  {
    match t
    case Uptrend => "green"
    case Downtrend => "red"
    case Sideways => "yellow"
    case WeakUp => "lightgreen"
    case WeakDown => "orange"
  }

  datatype TrendResult = TrendResult(trend: TrendType, confidence: nat, highs: seq<real>, lows: seq<real>)

  /** `tail(3)`: the last three values, or all of them when there are fewer. */
  function LastThree(xs: seq<real>): (r: seq<real>)
    ensures |r| == if |xs| < 3 then |xs| else 3
    ensures r == xs[|xs| - |r|..]
  {
    if |xs| <= 3 then xs else xs[|xs| - 3..]
  }

  /** Each value strictly above the one before. */
  predicate Rising(xs: seq<real>)
  {
    forall i :: 0 <= i < |xs| - 1 ==> xs[i] < xs[i + 1]
  }

  /** Each value strictly below the one before. */
  predicate Falling(xs: seq<real>)
  {
    forall i :: 0 <= i < |xs| - 1 ==> xs[i] > xs[i + 1]
  }

  /** With two or more values a sequence cannot both rise and fall. */
  lemma RisingNotFalling(xs: seq<real>)
    requires 2 <= |xs|
    ensures !(Rising(xs) && Falling(xs))
  {
    if Rising(xs) {
      assert xs[0] < xs[1];
    }
  }

  /** The rule table over the last swing highs and lows, first match wins: higher highs
      and higher lows, then lower highs and lower lows, then higher highs alone, then
      lower lows alone, otherwise sideways. */
  function Judge(highs: seq<real>, lows: seq<real>): (v: (TrendType, nat))
    requires 2 <= |highs| && 2 <= |lows|
    ensures v.0 == Uptrend <==> Rising(highs) && Rising(lows)
    ensures v.0 == Downtrend <==> Falling(highs) && Falling(lows)
    ensures v.0 == WeakUp <==> Rising(highs) && !Rising(lows)
    ensures v.0 == WeakDown <==> !Rising(highs) && !Falling(highs) && Falling(lows)
    ensures v.0 == Sideways <==> !Rising(highs) && !Falling(lows)
    ensures v.1 == 85 <==> v.0 == Uptrend || v.0 == Downtrend
    ensures v.1 == 60 <==> v.0 == WeakUp || v.0 == WeakDown
    ensures v.1 == 70 <==> v.0 == Sideways
  {
    RisingNotFalling(highs);
    RisingNotFalling(lows);
    var hh := Rising(highs);
    var lh := Falling(highs);
    var hl := Rising(lows);
    var ll := Falling(lows);
    if hh && hl then (Uptrend, 85)
    else if lh && ll then (Downtrend, 85)
    else if hh && !hl then (WeakUp, 60)
    else if ll && !lh then (WeakDown, 60)
    else (Sideways, 70)
  }

  /** The swing values of one kind, in order. */
  function SwingValues(xs: seq<real>, lookback: nat, kind: SwingKind): (vs: seq<real>)
    ensures |vs| == |DetectSwings(xs, lookback, kind)|
  {
    ValuesAt(xs, DetectSwings(xs, lookback, kind))
  }

  /** `classify_trend` on the candles of one timeframe (`None` when none could be had):
      too few candles give sideways with confidence 0, too few swings sideways with
      confidence 50, otherwise the rule table decides on the last three swing highs and
      lows. */
  function ClassifyTrend(candles: Option<seq<Candle>>, lookback: nat): (r: TrendResult)
    ensures candles.None? || |candles.value| < MinCandles ==> r == TrendResult(Sideways, 0, [], [])
    ensures r.confidence == 0 || r.confidence == 50 || r.confidence == 60 || r.confidence == 70 || r.confidence == 85
    ensures r.confidence == 0 <==> candles.None? || |candles.value| < MinCandles
    ensures r.confidence == 50 || r.confidence == 0 ==> r.trend == Sideways
    ensures |r.highs| <= 3 && |r.lows| <= 3
    ensures r.confidence != 0 ==>
      var cs := candles.value;
      var highs := SwingValues(Highs(cs), lookback, SwingHigh);
      var lows := SwingValues(Lows(cs), lookback, SwingLow);
      && r.highs == LastThree(highs) && r.lows == LastThree(lows)
      && (r.confidence == 50 <==> |highs| < 2 || |lows| < 2)
    ensures r.confidence > 50 ==> 2 <= |r.highs| && 2 <= |r.lows| && (r.trend, r.confidence) == Judge(r.highs, r.lows)
  {
    match candles
    case None => TrendResult(Sideways, 0, [], [])
    case Some(cs) =>
      if |cs| < MinCandles then TrendResult(Sideways, 0, [], [])
      else
        var highs := SwingValues(Highs(cs), lookback, SwingHigh);
        var lows := SwingValues(Lows(cs), lookback, SwingLow);
        var hs := LastThree(highs);
        var ls := LastThree(lows);
        if |highs| < 2 || |lows| < 2 then TrendResult(Sideways, 50, hs, ls)
        else
          var v := Judge(hs, ls);
          TrendResult(v.0, v.1, hs, ls)
  }
}
