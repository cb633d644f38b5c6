/** EMA, MACD lines and the MACD signal classifier
    (backend/core/technical_indicators.py, `calculate_ema`, `calculate_macd`, `classify_macd`). */
module Macd {
  import opened Wrappers
  import opened Seqs
  import opened Smoothing

  const DefaultFast: nat := 12
  const DefaultSlow: nat := 26
  const DefaultSignal: nat := 9
  const DefaultZeroThreshold: real := 2.0

  // ---------------------------------------------------------------------------
  // EMA
  // ---------------------------------------------------------------------------

  /** The EMA weight of the newest value, 2 / (period + 1). */
  function Multiplier(period: nat): (k: real)
    ensures 0.0 < k <= 2.0
    ensures 1 <= period ==> k <= 1.0
  {
    2.0 / ((period + 1) as real)
  }

  /** `calculate_ema`: all zeros when there are fewer than `period` values; otherwise
      zeros before index `period - 1`, the mean of the first `period` values there, and
      the smoothing recurrence after it. */
  function Ema(data: seq<real>, period: nat): (r: seq<real>)
    requires 1 <= period
    ensures |r| == |data|
    ensures |data| < period ==> forall i :: 0 <= i < |r| ==> r[i] == 0.0
    ensures forall i :: 0 <= i < |r| && i < period - 1 ==> r[i] == 0.0
    ensures |data| >= period ==> r[period - 1] == Mean(data[..period])
    ensures forall i :: period <= i < |r| ==> r[i] == Step(Multiplier(period), data[i], r[i - 1])
  {
    if |data| < period then seq(|data|, i => 0.0)
    else
      seq(|data|, i requires 0 <= i < |data| =>
        if i < period - 1 then 0.0
        else Smooth(data, Multiplier(period), period - 1, Mean(data[..period]), i))
  }

  /** From the seed on, the EMA stays within any band that holds every value. */
  lemma EmaWithin(data: seq<real>, period: nat, lo: real, hi: real)
    requires 1 <= period <= |data|
    requires forall i :: 0 <= i < |data| ==> lo <= data[i] <= hi
    ensures forall i :: period - 1 <= i < |data| ==> lo <= Ema(data, period)[i] <= hi
  {
    MeanWithin(data[..period], lo, hi);
    forall i | period - 1 <= i < |data|
      ensures lo <= Ema(data, period)[i] <= hi
    {
      SmoothWithin(data, Multiplier(period), period - 1, Mean(data[..period]), i, lo, hi);
    }
  }

  /** A constant input gives a constant EMA from index `period - 1` on. */
  lemma EmaConstant(data: seq<real>, period: nat, c: real)
    requires 1 <= period <= |data|
    requires forall i :: 0 <= i < |data| ==> data[i] == c
    ensures forall i :: period - 1 <= i < |data| ==> Ema(data, period)[i] == c
  {
    EmaWithin(data, period, c, c);
  }

  // ---------------------------------------------------------------------------
  // MACD lines
  // ---------------------------------------------------------------------------

  datatype MacdLines = MacdLines(
    macd: seq<real>,
    signal: seq<real>,
    histogram: seq<real>,
    emaFast: seq<real>,
    emaSlow: seq<real>)

  /** `calculate_macd`: `None` unless there are at least `slow + signalPeriod` closes.
      The MACD line is EMA(fast) - EMA(slow) from index `slow - 1` on and 0 before it;
      the signal line is the EMA of that valid part of the MACD line, placed at the same
      offset; the histogram is their difference. */
  function CalculateMacd(closes: seq<real>, fast: nat, slow: nat, signalPeriod: nat): (r: Option<MacdLines>)
    requires 1 <= fast && 1 <= slow && 1 <= signalPeriod
    ensures r.None? <==> |closes| < slow + signalPeriod
    ensures r.Some? ==>
      && |r.value.macd| == |closes| && |r.value.signal| == |closes| && |r.value.histogram| == |closes|
      && r.value.emaFast == Ema(closes, fast) && r.value.emaSlow == Ema(closes, slow)
    ensures r.Some? ==> forall i :: 0 <= i < slow - 1 ==> r.value.macd[i] == 0.0 && r.value.signal[i] == 0.0
    ensures r.Some? ==> forall i :: slow - 1 <= i < |closes| ==> r.value.macd[i] == r.value.emaFast[i] - r.value.emaSlow[i]
    ensures r.Some? ==> r.value.signal[slow - 1..] == Ema(r.value.macd[slow - 1..], signalPeriod)
    ensures r.Some? ==> forall i :: 0 <= i < |closes| ==> r.value.histogram[i] == r.value.macd[i] - r.value.signal[i]
  {
    if |closes| < slow + signalPeriod then None
    else
      var n := |closes|;
      var emaFast := Ema(closes, fast);
      var emaSlow := Ema(closes, slow);
      var macd := seq(n, i requires 0 <= i < n => if i < slow - 1 then 0.0 else emaFast[i] - emaSlow[i]);
      var tail := Ema(macd[slow - 1..], signalPeriod);
      var signal := seq(slow - 1, i => 0.0) + tail;
      var histogram := seq(n, i requires 0 <= i < n => macd[i] - signal[i]);
      assert signal[slow - 1..] == tail;
      Some(MacdLines(macd, signal, histogram, emaFast, emaSlow))
  }

  /** Flat closes give a flat zero MACD: both EMAs equal the price once the slow one is
      seeded, so the MACD line, the signal line and the histogram are 0 everywhere. */
  lemma FlatClosesGiveZeroMacd(closes: seq<real>, fast: nat, slow: nat, signalPeriod: nat, c: real)
    requires 1 <= fast <= slow && 1 <= signalPeriod
    requires |closes| >= slow + signalPeriod
    requires forall i :: 0 <= i < |closes| ==> closes[i] == c
    ensures CalculateMacd(closes, fast, slow, signalPeriod).Some?
    ensures var m := CalculateMacd(closes, fast, slow, signalPeriod).value;
      forall i :: 0 <= i < |closes| ==> m.macd[i] == 0.0 && m.signal[i] == 0.0 && m.histogram[i] == 0.0
  {
    var m := CalculateMacd(closes, fast, slow, signalPeriod).value;
    EmaConstant(closes, fast, c);
    EmaConstant(closes, slow, c);
    assert forall i :: 0 <= i < |closes| ==> m.macd[i] == 0.0;
    ZeroLineZeroSignal(m.macd, m.signal, slow, signalPeriod);
  }

  /** The signal line of an all-zero MACD line is all zero as well. */
  lemma ZeroLineZeroSignal(macd: seq<real>, signal: seq<real>, slow: nat, signalPeriod: nat)
    requires 1 <= slow && 1 <= signalPeriod && slow - 1 + signalPeriod <= |macd| == |signal|
    requires forall i :: 0 <= i < |macd| ==> macd[i] == 0.0
    requires forall i :: 0 <= i < slow - 1 ==> signal[i] == 0.0
    requires signal[slow - 1..] == Ema(macd[slow - 1..], signalPeriod)
    ensures forall i :: 0 <= i < |signal| ==> signal[i] == 0.0
  {
    var tail := macd[slow - 1..];
    assert forall i :: 0 <= i < |tail| ==> tail[i] == macd[slow - 1 + i];
    EmaConstant(tail, signalPeriod, 0.0);
    assert forall i :: slow - 1 <= i < |signal| ==> signal[i] == signal[slow - 1..][i - (slow - 1)];
  }

  // ---------------------------------------------------------------------------
  // Signal classification
  // ---------------------------------------------------------------------------

  /** The `MACDSignal` values. */
  datatype MacdSignal =
    | PcoAboveZero | PcoBelowZero | PcoNearZero
    | NcoBelowZero | NcoAboveZero | NcoNearZero
    | UptickAboveZero | UptickBelowZero
    | DowntickAboveZero | DowntickBelowZero
    | Neutral | NoData

  function SignalName(s: MacdSignal): string
  {
    match s
    case PcoAboveZero => "PCO Above Zero"
    case PcoBelowZero => "PCO Below Zero"
    case PcoNearZero => "PCO Near Zero"
    case NcoBelowZero => "NCO Below Zero"
    case NcoAboveZero => "NCO Above Zero"
    case NcoNearZero => "NCO Near Zero"
    case UptickAboveZero => "Up Tick Above Zero"
    case UptickBelowZero => "Up Tick Below Zero"
    case DowntickAboveZero => "Down Tick Above Zero"
    case DowntickBelowZero => "Down Tick Below Zero"
    case Neutral => "Neutral"
    case NoData => "No Data"
  }

  datatype Crossover = Pco | Nco
  datatype Tick = Up | Down | Flat
  datatype ZeroZone = AboveZero | NearZero | BelowZero

  datatype MacdReading =
    | NoReading
    | Reading(
        macdValue: real,
        signalValue: real,
        histogram: real,
        signal: MacdSignal,
        crossover: Option<Crossover>,
        tick: Tick,
        zone: ZeroZone)
  {
    function Signal(): MacdSignal
    {
      if NoReading? then NoData else signal
    }

    function Color(): string
    {
      match Signal()
      case PcoAboveZero => "green"
      case PcoNearZero => "cyan"
      case PcoBelowZero => "yellow"
      case NcoBelowZero => "red"
      case NcoNearZero => "pink"
      case NcoAboveZero => "orange"
      case UptickAboveZero => "green"
      case UptickBelowZero => "yellow"
      case DowntickBelowZero => "red"
      case DowntickAboveZero => "orange"
      case Neutral => "gray"
      case NoData => "gray"
    }

    function Action(): string
    {
      match Signal()
      case PcoAboveZero => "Strong Buy Signal"
      case PcoNearZero => "Buy Signal"
      case PcoBelowZero => "Early Buy Signal"
      case NcoBelowZero => "Strong Sell Signal"
      case NcoNearZero => "Sell Signal"
      case NcoAboveZero => "Early Sell Signal"
      case UptickAboveZero => "Bullish Momentum"
      case UptickBelowZero => if Reading? && zone == NearZero then "Buy Signal (Near Zero)" else "Potential Reversal"
      case DowntickBelowZero => "Bearish Momentum"
      case DowntickAboveZero => if Reading? && zone == NearZero then "Sell Signal (Near Zero)" else "Weakening"
      case Neutral => "Neutral"
      case NoData => "No Data"
    }
  }

  /** MACD crosses above its signal line between the previous and the current bar. */
  predicate PositiveCrossover(macdPrev: real, macdCurr: real, signalPrev: real, signalCurr: real)
  {
    macdPrev <= signalPrev && macdCurr > signalCurr
  }

  /** MACD crosses below its signal line between the previous and the current bar. */
  predicate NegativeCrossover(macdPrev: real, macdCurr: real, signalPrev: real, signalCurr: real)
  {
    macdPrev >= signalPrev && macdCurr < signalCurr
  }

  /** The signal a reading's crossover, tick and zone stand for: a crossover names its
      zone; otherwise a rising MACD is "above" or "below" zero with near-zero counted
      below, a falling one "below" or "above" with near-zero counted above, and a flat
      one is neutral. */
  function SignalFor(crossover: Option<Crossover>, tick: Tick, zone: ZeroZone): MacdSignal
  {
    match crossover
    case Some(Pco) => (match zone case AboveZero => PcoAboveZero case NearZero => PcoNearZero case BelowZero => PcoBelowZero)
    case Some(Nco) => (match zone case AboveZero => NcoAboveZero case NearZero => NcoNearZero case BelowZero => NcoBelowZero)
    case None =>
      match tick
      case Up => if zone == AboveZero then UptickAboveZero else UptickBelowZero
      case Down => if zone == BelowZero then DowntickBelowZero else DowntickAboveZero
      case Flat => Neutral
  }

  /** The decision of `classify_macd` on the last two (already rounded) MACD and signal
      values and the last histogram value. Crossovers take priority over the tick; a
      positive crossover tests above, near, then below zero, a negative one below, near,
      then above. */
  function ClassifyLastTwo(macdPrev: real, macdCurr: real, signalPrev: real, signalCurr: real, hist: real, threshold: real): (r: MacdReading)
    ensures r.Reading?
    ensures r.macdValue == macdCurr && r.signalValue == signalCurr && r.histogram == hist
    ensures r.crossover == Some(Pco) <==> PositiveCrossover(macdPrev, macdCurr, signalPrev, signalCurr)
    ensures r.crossover == Some(Nco) <==> NegativeCrossover(macdPrev, macdCurr, signalPrev, signalCurr)
    ensures r.crossover.Some? ==> (r.tick == Up <==> macdCurr > macdPrev) && (r.tick == Down <==> macdCurr <= macdPrev)
    ensures r.crossover.None? ==>
      && (r.tick == Up <==> macdCurr > macdPrev)
      && (r.tick == Down <==> macdCurr < macdPrev)
      && (r.tick == Flat <==> macdCurr == macdPrev)
    ensures 0.0 <= threshold ==>
      && (r.zone == AboveZero <==> macdCurr > threshold)
      && (r.zone == BelowZero <==> macdCurr < -threshold)
      && (r.zone == NearZero <==> -threshold <= macdCurr <= threshold)
    ensures r.signal == SignalFor(r.crossover, r.tick, r.zone)
  {
    var pco := PositiveCrossover(macdPrev, macdCurr, signalPrev, signalCurr);
    var nco := NegativeCrossover(macdPrev, macdCurr, signalPrev, signalCurr);
    var uptick := macdCurr > macdPrev;
    var downtick := macdCurr < macdPrev;
    var above := macdCurr > threshold;
    var below := macdCurr < -threshold;
    var near := -threshold <= macdCurr <= threshold;
    var crossTick := if uptick then Up else Down;
    if pco then
      if above then Reading(macdCurr, signalCurr, hist, PcoAboveZero, Some(Pco), crossTick, AboveZero)
      else if near then Reading(macdCurr, signalCurr, hist, PcoNearZero, Some(Pco), crossTick, NearZero)
      else Reading(macdCurr, signalCurr, hist, PcoBelowZero, Some(Pco), crossTick, BelowZero)
    else if nco then
      if below then Reading(macdCurr, signalCurr, hist, NcoBelowZero, Some(Nco), crossTick, BelowZero)
      else if near then Reading(macdCurr, signalCurr, hist, NcoNearZero, Some(Nco), crossTick, NearZero)
      else Reading(macdCurr, signalCurr, hist, NcoAboveZero, Some(Nco), crossTick, AboveZero)
    else if uptick then
      if above then Reading(macdCurr, signalCurr, hist, UptickAboveZero, None, Up, AboveZero)
      else if near then Reading(macdCurr, signalCurr, hist, UptickBelowZero, None, Up, NearZero)
      else Reading(macdCurr, signalCurr, hist, UptickBelowZero, None, Up, BelowZero)
    else if downtick then
      if below then Reading(macdCurr, signalCurr, hist, DowntickBelowZero, None, Down, BelowZero)
      else if near then Reading(macdCurr, signalCurr, hist, DowntickAboveZero, None, Down, NearZero)
      else Reading(macdCurr, signalCurr, hist, DowntickAboveZero, None, Down, AboveZero)
    else
      Reading(macdCurr, signalCurr, hist, Neutral, None, Flat,
        if above then AboveZero else if below then BelowZero else NearZero)
  }

  /** A positive and a negative crossover can never happen on the same bar. */
  lemma CrossoversExclusive(macdPrev: real, macdCurr: real, signalPrev: real, signalCurr: real)
    ensures !(PositiveCrossover(macdPrev, macdCurr, signalPrev, signalCurr)
              && NegativeCrossover(macdPrev, macdCurr, signalPrev, signalCurr))
  {
  }

  /** `classify_macd`: no reading without MACD data or with fewer than two bars;
      otherwise the decision on the last two bars. */
  function ClassifyMacd(data: Option<MacdLines>, threshold: real): (r: MacdReading)
    requires data.Some? ==> |data.value.signal| == |data.value.macd| && |data.value.histogram| == |data.value.macd|
    ensures r.NoReading? <==> data.None? || |data.value.macd| < 2
    ensures r.NoReading? ==> r.Signal() == NoData && r.Color() == "gray" && r.Action() == "No Data"
    ensures r.Reading? ==>
      var n := |data.value.macd|;
      r == ClassifyLastTwo(data.value.macd[n - 2], data.value.macd[n - 1],
                           data.value.signal[n - 2], data.value.signal[n - 1],
                           data.value.histogram[n - 1], threshold)
  {
    match data
    case None => NoReading
    case Some(m) =>
      var n := |m.macd|;
      if n < 2 then NoReading
      else ClassifyLastTwo(m.macd[n - 2], m.macd[n - 1], m.signal[n - 2], m.signal[n - 1], m.histogram[n - 1], threshold)
  }

  /** An unchanged MACD without a crossover reads Neutral with a flat tick, whatever the
      zone. */
  lemma UnchangedMacdIsNeutral(m: real, signalPrev: real, signalCurr: real, hist: real, threshold: real)
    requires !PositiveCrossover(m, m, signalPrev, signalCurr) && !NegativeCrossover(m, m, signalPrev, signalCurr)
    ensures ClassifyLastTwo(m, m, signalPrev, signalCurr, hist, threshold).signal == Neutral
    ensures ClassifyLastTwo(m, m, signalPrev, signalCurr, hist, threshold).tick == Flat
  {
  }

  /** A crossover on a bar where MACD did not move (the signal line moved across it) is
      reported with tick "DOWN", for a negative and for a positive crossover alike. */
  lemma FlatCrossoverReportsDown()
    ensures ClassifyLastTwo(1.0, 1.0, 1.0, 1.5, -0.5, DefaultZeroThreshold).signal == NcoNearZero
    ensures ClassifyLastTwo(1.0, 1.0, 1.0, 1.5, -0.5, DefaultZeroThreshold).tick == Down
    ensures ClassifyLastTwo(0.0, 0.0, 0.5, -0.5, 0.5, DefaultZeroThreshold).signal == PcoNearZero
    ensures ClassifyLastTwo(0.0, 0.0, 0.5, -0.5, 0.5, DefaultZeroThreshold).tick == Down
  {
  }
}
