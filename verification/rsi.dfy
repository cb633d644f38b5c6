/** RSI by Wilder's smoothing (RMA) and its zone classification
    (backend/core/technical_indicators.py, `calculate_rsi_tradingview` and `classify_rsi`). */
module Rsi {
  import opened Wrappers
  import opened Seqs
  import opened Smoothing

  const DefaultPeriod: nat := 14

  // ---------------------------------------------------------------------------
  // Gains and losses
  // ---------------------------------------------------------------------------

  /** Bar-to-bar change of the close; the first bar has no predecessor and gets 0. */
  function Delta(closes: seq<real>, i: nat): real
    requires i < |closes|
  {
    if i == 0 then 0.0 else closes[i] - closes[i - 1]
  }

  /** Positive changes, zero elsewhere. */
  function Gains(closes: seq<real>): (g: seq<real>)
    ensures |g| == |closes|
    ensures forall i :: 0 <= i < |g| ==> 0.0 <= g[i]
  {
    seq(|closes|, i requires 0 <= i < |closes| => if Delta(closes, i) > 0.0 then Delta(closes, i) else 0.0)
  }

  /** Negative changes negated, zero elsewhere. */
  function Losses(closes: seq<real>): (l: seq<real>)
    ensures |l| == |closes|
    ensures forall i :: 0 <= i < |l| ==> 0.0 <= l[i]
  {
    seq(|closes|, i requires 0 <= i < |closes| => if Delta(closes, i) < 0.0 then -Delta(closes, i) else 0.0)
  }

  /** Every change splits into its gain and loss parts, and at most one of them is non-zero. */
  lemma GainsLossesSplitDelta(closes: seq<real>, i: nat)
    requires i < |closes|
    ensures Gains(closes)[i] - Losses(closes)[i] == Delta(closes, i)
    ensures Gains(closes)[i] == 0.0 || Losses(closes)[i] == 0.0
  {
  }

  // ---------------------------------------------------------------------------
  // From averages to RSI
  // ---------------------------------------------------------------------------

  /** The RSI of one bar from its smoothed gain and loss. With a positive average loss
      this is the textbook 100 * gain / (gain + loss); a zero average loss gives 100 when
      there was any gain and 50 when the market did not move. */
  function RsiFromAverages(avgGain: real, avgLoss: real): (r: real)
    requires 0.0 <= avgGain && 0.0 <= avgLoss
    ensures 0.0 < avgLoss ==> r == 100.0 * avgGain / (avgGain + avgLoss)
    ensures avgLoss == 0.0 ==> r == (if avgGain > 0.0 then 100.0 else 50.0)
    ensures 0.0 <= r <= 100.0
  {
    if avgLoss == 0.0 then (if avgGain > 0.0 then 100.0 else 50.0)
    else
      RatioForm(avgGain, avgLoss);
      100.0 - 100.0 / (1.0 + avgGain / avgLoss)
  }

  lemma Cancel(a: real, b: real, s: real)
    requires 0.0 < s && a * s == b * s
    ensures a == b
  {
    assert (a - b) * s == 0.0;
  }

  /** 100 - 100 / (1 + RS) with RS = g / l is the share of the gain in the total movement. */
  lemma RatioForm(g: real, l: real)
    requires 0.0 <= g && 0.0 < l
    ensures 0.0 < 1.0 + g / l
    ensures 100.0 - 100.0 / (1.0 + g / l) == 100.0 * g / (g + l)
    ensures 0.0 <= 100.0 * g / (g + l) <= 100.0
  {
    var s := g + l;
    var q := g / l;
    assert q * l == g;
    assert (1.0 + q) * l == s;
    var d := 1.0 + q;
    var t := 100.0 / d;
    assert t * d == 100.0;
    assert t * s == 100.0 * l by { assert t * s == t * d * l; }
    var u := 100.0 * g / s;
    assert u * s == 100.0 * g;
    assert (100.0 - t) * s == 100.0 * g;
    Cancel(100.0 - t, u, s);
    assert u <= 100.0 by { assert u * s <= 100.0 * s; }
  }

  // ---------------------------------------------------------------------------
  // The series
  // ---------------------------------------------------------------------------

  /** Wilder smoothing of `values` (the gains or the losses): alpha = 1/period, seeded at
      index `seedAt` with the mean of `values[1..period]`, the first `period` changes. */
  function Average(values: seq<real>, period: nat, seedAt: nat, i: nat): (r: real)
    requires 1 <= period && period + 1 <= |values|
    requires seedAt <= i < |values|
    ensures (forall j :: 0 <= j < |values| ==> 0.0 <= values[j]) ==> 0.0 <= r
  {
    var a := Smooth(values, 1.0 / (period as real), seedAt, Mean(values[1..period + 1]), i);
    assert (forall j :: 0 <= j < |values| ==> 0.0 <= values[j]) ==> 0.0 <= a by {
      if forall j :: 0 <= j < |values| ==> 0.0 <= values[j] {
        var seedSlice := values[1..period + 1];
        var hi := MaxOf(values);
        MeanWithin(seedSlice, 0.0, hi);
        AlphaInRange(period);
        SmoothWithin(values, 1.0 / (period as real), seedAt, Mean(seedSlice), i, 0.0, hi);
      }
    }
    a
  }

  lemma AlphaInRange(period: nat)
    requires 1 <= period
    ensures 0.0 <= 1.0 / (period as real) <= 1.0
  {
  }

  /** Wilder's RMA forgets its seed geometrically: once the gains (or losses) stay at
      `c`, the average's distance from `c` shrinks by the factor 1 - 1/period per bar,
      so after n bars it is (1 - 1/period)^n times the seed's distance. */
  lemma WilderDecay(values: seq<real>, period: nat, seedAt: nat, i: nat, c: real)
    requires 1 <= period && period + 1 <= |values|
    requires seedAt <= i < |values|
    requires forall j :: seedAt < j <= i ==> values[j] == c
    ensures Average(values, period, seedAt, i) - c
      == Shrink(1.0 - 1.0 / (period as real), i - seedAt, Mean(values[1..period + 1]) - c)
  {
    AverageIsSmooth(values, period, seedAt, i);
    SmoothDecays(values, 1.0 / (period as real), seedAt, Mean(values[1..period + 1]), i, c);
  }

  lemma AverageIsSmooth(values: seq<real>, period: nat, seedAt: nat, i: nat)
    requires 1 <= period && period + 1 <= |values|
    requires seedAt <= i < |values|
    ensures Average(values, period, seedAt, i) == Smooth(values, 1.0 / (period as real), seedAt, Mean(values[1..period + 1]), i)
  {
  }

  /** The RSI at bar `i` from the averages seeded at `seedAt`. */
  function RsiAt(closes: seq<real>, period: nat, seedAt: nat, i: nat): (r: real)
    requires 1 <= period && period + 1 <= |closes|
    requires seedAt <= i < |closes|
    ensures 0.0 <= r <= 100.0
  {
    RsiFromAverages(Average(Gains(closes), period, seedAt, i), Average(Losses(closes), period, seedAt, i))
  }

  /** The RSI series with both averages seeded at `seedAt`; bars before the seed hold 0,
      like the zero-filled array `calculate_rsi_tradingview` starts from. */
  function SeriesSeededAt(closes: seq<real>, period: nat, seedAt: nat): (r: seq<real>)
    requires 1 <= period && period + 1 <= |closes|
    requires seedAt <= period
    ensures |r| == |closes|
    ensures forall i :: 0 <= i < seedAt ==> r[i] == 0.0
    ensures forall i :: seedAt <= i < |r| ==> r[i] == RsiAt(closes, period, seedAt, i)
  {
    seq(|closes|, i requires 0 <= i < |closes| => if i < seedAt then 0.0 else RsiAt(closes, period, seedAt, i))
  }

  /** `calculate_rsi_tradingview` as written: empty when there are fewer than `period + 1`
      closes; otherwise both averages are seeded at index `period - 1` with the mean of the
      changes at indices 1..period, and the recurrence starts at index `period`, feeding the
      change at index `period` a second time. */
  function SeriesAsWritten(closes: seq<real>, period: nat): (r: seq<real>)
    requires 1 <= period
    ensures |closes| < period + 1 <==> |r| == 0
    ensures |closes| >= period + 1 ==> |r| == |closes|
    ensures forall i :: 0 <= i < |r| && i < period - 1 ==> r[i] == 0.0
    ensures forall i :: period - 1 <= i < |r| ==> 0.0 <= r[i] <= 100.0
    ensures |closes| >= period + 1 ==>
      r[period - 1] == RsiFromAverages(Mean(Gains(closes)[1..period + 1]), Mean(Losses(closes)[1..period + 1]))
    ensures forall i :: period - 1 < i < |r| ==>
      r[i] == RsiFromAverages(Average(Gains(closes), period, period - 1, i), Average(Losses(closes), period, period - 1, i))
  {
    if |closes| < period + 1 then [] else SeriesSeededAt(closes, period, period - 1)
  }

  /** The RMA of Pine Script, which `calculate_rsi_tradingview` sets out to reproduce: the seed (the mean
      of the first `period` changes) sits at index `period`, the last bar it averages, and
      the recurrence starts after it. Bars before index `period` hold 0. */
  function Series(closes: seq<real>, period: nat): (r: seq<real>)
    requires 1 <= period
    ensures |closes| < period + 1 <==> |r| == 0
    ensures |closes| >= period + 1 ==> |r| == |closes|
    ensures forall i :: 0 <= i < |r| && i < period ==> r[i] == 0.0
    ensures forall i :: period <= i < |r| ==> 0.0 <= r[i] <= 100.0
    ensures |closes| >= period + 1 ==>
      r[period] == RsiFromAverages(Mean(Gains(closes)[1..period + 1]), Mean(Losses(closes)[1..period + 1]))
    ensures forall i :: period < i < |r| ==>
      r[i] == RsiFromAverages(Average(Gains(closes), period, period, i), Average(Losses(closes), period, period, i))
  {
    if |closes| < period + 1 then [] else SeriesSeededAt(closes, period, period)
  }

  /** With no losses and positive gains the loss average stays 0 and the gain average
      positive, which reads 100. */
  lemma RisingAt(closes: seq<real>, period: nat, i: nat)
    requires 1 <= period && period + 1 <= |closes| && period - 1 <= i < |closes|
    requires forall j :: 0 <= j < |closes| ==> Losses(closes)[j] == 0.0
    requires forall j :: 0 < j < |closes| ==> 0.0 < Gains(closes)[j]
    ensures SeriesAsWritten(closes, period)[i] == 100.0
  {
    var gains := Gains(closes);
    var losses := Losses(closes);
    AlphaInRange(period);
    MeanWithin(losses[1..period + 1], 0.0, 0.0);
    SmoothWithin(losses, 1.0 / (period as real), period - 1, Mean(losses[1..period + 1]), i, 0.0, 0.0);
    MeanPositive(gains[1..period + 1]);
    SmoothPositive(gains, 1.0 / (period as real), period - 1, Mean(gains[1..period + 1]), i);
  }

  /** Strictly rising closes have no losses, so every bar from the seed on reads 100. */
  lemma {:induction false} RisingClosesGive100(closes: seq<real>, period: nat)
    requires 1 <= period
    requires forall i :: 0 < i < |closes| ==> closes[i - 1] < closes[i]
    ensures forall i :: period - 1 <= i < |SeriesAsWritten(closes, period)| ==> SeriesAsWritten(closes, period)[i] == 100.0
  {
    if |closes| >= period + 1 {
      assert forall j :: 0 <= j < |closes| ==> Losses(closes)[j] == 0.0;
      assert forall j :: 0 < j < |closes| ==> 0.0 < Gains(closes)[j];
      forall i | period - 1 <= i < |closes|
        ensures SeriesAsWritten(closes, period)[i] == 100.0
      {
        RisingAt(closes, period, i);
      }
    }
  }

  /** An average of all-zero values stays 0. */
  lemma ZeroAverage(values: seq<real>, period: nat, seedAt: nat, i: nat)
    requires 1 <= period && period + 1 <= |values| && seedAt <= i < |values|
    requires forall j :: 0 <= j < |values| ==> values[j] == 0.0
    ensures Average(values, period, seedAt, i) == 0.0
  {
    AlphaInRange(period);
    MeanWithin(values[1..period + 1], 0.0, 0.0);
    SmoothWithin(values, 1.0 / (period as real), seedAt, Mean(values[1..period + 1]), i, 0.0, 0.0);
  }

  /** With neither gains nor losses both averages stay 0, which reads 50. */
  lemma FlatAt(closes: seq<real>, period: nat, i: nat)
    requires 1 <= period && period + 1 <= |closes| && period - 1 <= i < |closes|
    requires forall j :: 0 <= j < |closes| ==> Losses(closes)[j] == 0.0 && Gains(closes)[j] == 0.0
    ensures SeriesAsWritten(closes, period)[i] == 50.0
  {
    var gains := Gains(closes);
    var losses := Losses(closes);
    if i == period - 1 {
      MeanWithin(gains[1..period + 1], 0.0, 0.0);
      MeanWithin(losses[1..period + 1], 0.0, 0.0);
    } else {
      ZeroAverage(gains, period, period - 1, i);
      ZeroAverage(losses, period, period - 1, i);
    }
  }

  /** Flat closes have neither gains nor losses, so every bar from the seed on reads 50. */
  lemma {:induction false} FlatClosesGive50(closes: seq<real>, period: nat)
    requires 1 <= period
    requires forall i :: 0 < i < |closes| ==> closes[i - 1] == closes[i]
    ensures forall i :: period - 1 <= i < |SeriesAsWritten(closes, period)| ==> SeriesAsWritten(closes, period)[i] == 50.0
  {
    if |closes| >= period + 1 {
      assert forall j :: 0 <= j < |closes| ==> Losses(closes)[j] == 0.0 && Gains(closes)[j] == 0.0;
      forall i | period - 1 <= i < |closes|
        ensures SeriesAsWritten(closes, period)[i] == 50.0
      {
        FlatAt(closes, period, i);
      }
    }
  }

  /** The value `calculate_rsi_tradingview` reports at index `period - 1` already depends on the close at
      index `period`: two series that agree on their first two closes get different RSI
      values at index 1 when the period is 2. */
  lemma AsWrittenReadsAhead()
    ensures [0.0, 1.0, 2.0][..2] == [0.0, 1.0, 0.0][..2]
    ensures SeriesAsWritten([0.0, 1.0, 2.0], 2)[1] == 100.0
    ensures SeriesAsWritten([0.0, 1.0, 0.0], 2)[1] == 50.0
  {
    var a := [0.0, 1.0, 2.0];
    var b := [0.0, 1.0, 0.0];
    assert Gains(a)[1..3] == [1.0, 1.0];
    assert Losses(a)[1..3] == [0.0, 0.0];
    assert Gains(b)[1..3] == [1.0, 0.0];
    assert Losses(b)[1..3] == [0.0, 1.0];
    assert Mean([1.0, 1.0]) == 1.0;
    assert Mean([0.0, 0.0]) == 0.0;
    assert Mean([1.0, 0.0]) == 0.5;
    assert Mean([0.0, 1.0]) == 0.5;
  }

  /** The corrected series never reads ahead: the RSI at any index from `period` on depends
      only on the closes up to that index. */
  lemma {:induction false} SeriesIsCausal(a: seq<real>, b: seq<real>, period: nat, i: nat)
    requires 1 <= period
    requires period <= i < |a| && i < |b|
    requires a[..i + 1] == b[..i + 1]
    ensures Series(a, period)[i] == Series(b, period)[i]
  {
    assert forall j :: 0 <= j <= i ==> a[j] == a[..i + 1][j] == b[..i + 1][j] == b[j];
    var ga, gb := Gains(a), Gains(b);
    var la, lb := Losses(a), Losses(b);
    assert forall j :: 0 <= j <= i ==> ga[j] == gb[j] && la[j] == lb[j];
    assert ga[1..period + 1] == gb[1..period + 1];
    assert la[1..period + 1] == lb[1..period + 1];
    var alpha := 1.0 / (period as real);
    SmoothLocal(ga, gb, alpha, period, Mean(ga[1..period + 1]), i);
    SmoothLocal(la, lb, alpha, period, Mean(la[1..period + 1]), i);
  }

  // ---------------------------------------------------------------------------
  // Zones
  // ---------------------------------------------------------------------------

  datatype RsiZone =
    | UnsustainableBulls
    | BullishMomentum
    | Near60
    | Near50
    | SwingZone
    | Near40
    | BearishMomentum
    | UnsustainableBears
    | NotClear

  /** The zone's display name (the `RSIZone` enum values). */
  function ZoneName(z: RsiZone): string
  {
    match z
    case UnsustainableBulls => "Unsustainable Bulls"
    case BullishMomentum => "Bullish Momentum"
    case Near60 => "Near 60"
    case Near50 => "Near 50"
    case SwingZone => "Swing Zone (40-60)"
    case Near40 => "Near 40"
    case BearishMomentum => "Bearish Momentum"
    case UnsustainableBears => "Unsustainable Bears"
    case NotClear => "Not Clear"
  }

  function ZoneColor(z: RsiZone): string
  {
    match z
    case UnsustainableBulls => "red"
    case BullishMomentum => "green"
    case Near60 => "lightgreen"
    case Near50 => "gray"
    case SwingZone => "yellow"
    case Near40 => "orange"
    case BearishMomentum => "red"
    case UnsustainableBears => "green"
    case NotClear => "gray"
  }

  function ZoneAction(z: RsiZone): string
  {
    match z
    case UnsustainableBulls => "Look for Bearish Swing"
    case BullishMomentum => "Bullish Bias"
    case Near60 => "Watch for Breakout"
    case Near50 => "Neutral"
    case SwingZone => "Range Trading"
    case Near40 => "Watch for Breakdown"
    case BearishMomentum => "Bearish Bias"
    case UnsustainableBears => "Look for Bullish Swing"
    case NotClear => "No Data"
  }

  datatype RsiReading = RsiReading(value: Option<real>, zone: RsiZone)

  /** `classify_rsi` on a reading already rounded to two decimals; `None` stands for both
      a missing reading and NaN. The branches are tried from the top band down. */
  function ClassifyRsi(v: Option<real>): (r: RsiReading)
    ensures r.value == v
    ensures r.zone == NotClear <==> v.None?
    ensures r.zone != SwingZone
    ensures v.Some? ==> (r.zone == UnsustainableBulls <==> 78.0 <= v.value)
    ensures v.Some? ==> (r.zone == BullishMomentum <==> 60.0 < v.value < 78.0)
    ensures v.Some? ==> (r.zone == Near60 <==> 55.0 <= v.value <= 60.0)
    ensures v.Some? ==> (r.zone == Near50 <==> 45.0 <= v.value < 55.0)
    ensures v.Some? ==> (r.zone == Near40 <==> 40.0 <= v.value < 45.0)
    ensures v.Some? ==> (r.zone == UnsustainableBears <==> v.value <= 22.0)
    ensures v.Some? ==> (r.zone == BearishMomentum <==> 22.0 < v.value < 40.0)
  {
    match v
    case None => RsiReading(None, NotClear)
    case Some(x) =>
      var zone :=
        if x >= 78.0 then UnsustainableBulls
        else if x > 60.0 then BullishMomentum
        else if x >= 55.0 then Near60
        else if x >= 45.0 then Near50
        else if x >= 40.0 then Near40
        else if x <= 22.0 then UnsustainableBears
        else if x < 40.0 then BearishMomentum
        else SwingZone;
      RsiReading(v, zone)
  }

  /** The band edges resolve the way the branch order of `classify_rsi` decides. */
  lemma ZoneBoundaries()
    ensures ClassifyRsi(Some(60.0)).zone == Near60
    ensures ClassifyRsi(Some(22.0)).zone == UnsustainableBears
    ensures ClassifyRsi(Some(78.0)).zone == UnsustainableBulls
    ensures ClassifyRsi(Some(40.0)).zone == Near40
  {
  }
}
