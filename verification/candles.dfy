/** OHLCV candles and the session-based 4-hour aggregation of hourly candles
    (backend/core/technical_indicators.py, `TechnicalAnalyzer.aggregate_to_4h`). */
module Candles {
  import opened Wrappers
  import opened Seqs

  datatype Candle = Candle(open: real, high: real, low: real, close: real, volume: real)

  /** The highs of a candle series. */
  function Highs(cs: seq<Candle>): (h: seq<real>)
    ensures |h| == |cs| && forall i :: 0 <= i < |cs| ==> h[i] == cs[i].high
  {
    seq(|cs|, i requires 0 <= i < |cs| => cs[i].high)
  }

  /** The lows of a candle series. */
  function Lows(cs: seq<Candle>): (l: seq<real>)
    ensures |l| == |cs| && forall i :: 0 <= i < |cs| ==> l[i] == cs[i].low
  {
    seq(|cs|, i requires 0 <= i < |cs| => cs[i].low)
  }

  /** A bar's timestamp: the calendar date (as a day number), the hour and the minute. */
  datatype Stamp = Stamp(date: int, hour: int, minute: int)

  datatype Bar = Bar(at: Stamp, candle: Candle)

  /** The two Indian-market sessions a trading day is split into: the first four hours
      (bars starting at hours 9 to 12) and the rest of the day (hours 13 and later).
      Bars before hour 9 belong to neither. */
  datatype Session = Morning | Afternoon

  predicate InSession(at: Stamp, s: Session)
  {
    match s
    case Morning => 9 <= at.hour < 13
    case Afternoon => 13 <= at.hour
  }

  /** The session a bar from hour 9 on belongs to. */
  function SessionOf(at: Stamp): (s: Session)
    ensures 9 <= at.hour ==> InSession(at, s)
  {
    if at.hour < 13 then Morning else Afternoon
  }

  // ---------------------------------------------------------------------------
  // Selecting rows
  // ---------------------------------------------------------------------------

  /** The rows of date `d` that fall in session `s`, in their original order. */
  function SessionRows(rows: seq<Bar>, d: int, s: Session): (r: seq<Bar>)
    ensures |r| <= |rows|
  {
    if |rows| == 0 then []
    else (if rows[0].at.date == d && InSession(rows[0].at, s) then [rows[0]] else []) + SessionRows(rows[1..], d, s)
  }

  /** The rows whose date is not `d`, in their original order. */
  function OtherDates(rows: seq<Bar>, d: int): (r: seq<Bar>)
    ensures |r| <= |rows|
    ensures (exists i :: 0 <= i < |rows| && rows[i].at.date == d) ==> |r| < |rows|
  {
    if |rows| == 0 then []
    else (if rows[0].at.date != d then [rows[0]] else []) + OtherDates(rows[1..], d)
  }

  /** The rows from hour 9 on, the only ones any session takes. */
  function Daytime(rows: seq<Bar>): seq<Bar>
  {
    if |rows| == 0 then []
    else (if 9 <= rows[0].at.hour then [rows[0]] else []) + Daytime(rows[1..])
  }

  /** A bucket holds exactly the rows of its date and session. */
  lemma {:induction false} SessionRowsMember(rows: seq<Bar>, d: int, s: Session, b: Bar)
    ensures b in SessionRows(rows, d, s) <==> b in rows && b.at.date == d && InSession(b.at, s)
  {
    if |rows| > 0 {
      SessionRowsMember(rows[1..], d, s, b);
      assert rows == [rows[0]] + rows[1..];
    }
  }

  /** Dropping a date keeps exactly the rows of the other dates. */
  lemma {:induction false} OtherDatesMember(rows: seq<Bar>, d: int, b: Bar)
    ensures b in OtherDates(rows, d) <==> b in rows && b.at.date != d
  {
    if |rows| > 0 {
      OtherDatesMember(rows[1..], d, b);
      assert rows == [rows[0]] + rows[1..];
    }
  }

  /** The earliest date among the rows (pandas groupby visits dates in sorted order). */
  function MinDate(rows: seq<Bar>): (d: int)
    requires |rows| > 0
    ensures forall i :: 0 <= i < |rows| ==> d <= rows[i].at.date
    ensures exists i :: 0 <= i < |rows| && rows[i].at.date == d
  {
    if |rows| == 1 then rows[0].at.date
    else
      var rest := MinDate(rows[1..]);
      assert forall i :: 1 <= i < |rows| ==> rows[i] == rows[1..][i - 1];
      if rows[0].at.date <= rest then rows[0].at.date else rest
  }

  // ---------------------------------------------------------------------------
  // One bucket
  // ---------------------------------------------------------------------------

  function VolumeSum(rows: seq<Bar>): real
  {
    if |rows| == 0 then 0.0 else rows[0].candle.volume + VolumeSum(rows[1..])
  }

  function BarHighs(rows: seq<Bar>): (h: seq<real>)
    ensures |h| == |rows| && forall i :: 0 <= i < |rows| ==> h[i] == rows[i].candle.high
  {
    seq(|rows|, i requires 0 <= i < |rows| => rows[i].candle.high)
  }

  function BarLows(rows: seq<Bar>): (l: seq<real>)
    ensures |l| == |rows| && forall i :: 0 <= i < |rows| ==> l[i] == rows[i].candle.low
  {
    seq(|rows|, i requires 0 <= i < |rows| => rows[i].candle.low)
  }

  /** One 4-hour candle from the hourly candles of its bucket: the first open, the highest
      high, the lowest low, the last close and the total volume. */
  function Summarize(bucket: seq<Bar>): (c: Candle)
    requires |bucket| > 0
    ensures c.open == bucket[0].candle.open
    ensures c.close == bucket[|bucket| - 1].candle.close
    ensures forall i :: 0 <= i < |bucket| ==> bucket[i].candle.high <= c.high && c.low <= bucket[i].candle.low
    ensures exists i :: 0 <= i < |bucket| && bucket[i].candle.high == c.high
    ensures exists i :: 0 <= i < |bucket| && bucket[i].candle.low == c.low
    ensures c.volume == VolumeSum(bucket)
  {
    Candle(bucket[0].candle.open, MaxOf(BarHighs(bucket)), MinOf(BarLows(bucket)),
           bucket[|bucket| - 1].candle.close, VolumeSum(bucket))
  }

  // ---------------------------------------------------------------------------
  // The aggregation
  // ---------------------------------------------------------------------------

  /** `bar` is the 4-hour bar of its own date and session: that bucket of `rows` is not
      empty, the bar carries the bucket's first timestamp and summarises the bucket. */
  ghost predicate IsSessionBar(rows: seq<Bar>, bar: Bar)
  {
    var bucket := SessionRows(rows, bar.at.date, SessionOf(bar.at));
    && 9 <= bar.at.hour
    && |bucket| > 0
    && bar.at == bucket[0].at
    && bar.candle == Summarize(bucket)
  }

  /** Bar `a` comes before bar `b`: an earlier date, or the morning and the afternoon
      bar of the same date. */
  predicate Before(a: Stamp, b: Stamp)
  {
    a.date < b.date || (a.date == b.date && SessionOf(a) == Morning && SessionOf(b) == Afternoon)
  }

  /** The 4-hour bar of date `d` and session `s`, when that bucket has rows: it is
      stamped with the bucket's first time and summarises the bucket. */
  function SessionBar(rows: seq<Bar>, d: int, s: Session): (r: seq<Bar>)
    ensures |r| <= 1
    ensures |r| == 1 <==> exists i :: 0 <= i < |rows| && rows[i].at.date == d && InSession(rows[i].at, s)
    ensures forall k :: 0 <= k < |r| ==> r[k].at.date == d && InSession(r[k].at, s) && IsSessionBar(rows, r[k])
    ensures VolumeSum(r) == VolumeSum(SessionRows(rows, d, s))
  {
    var bucket := SessionRows(rows, d, s);
    BucketEmptyIff(rows, d, s);
    if |bucket| > 0 then
      BucketBar(rows, d, s);
      [Bar(bucket[0].at, Summarize(bucket))]
    else
      []
  }

  /** The bar summarising a non-empty bucket is that bucket's session bar and carries
      its volume. */
  lemma BucketBar(rows: seq<Bar>, d: int, s: Session)
    requires |SessionRows(rows, d, s)| > 0
    ensures var bucket := SessionRows(rows, d, s);
      var b := Bar(bucket[0].at, Summarize(bucket));
      && b.at.date == d && InSession(b.at, s) && IsSessionBar(rows, b)
      && VolumeSum([b]) == VolumeSum(bucket)
  {
    var bucket := SessionRows(rows, d, s);
    SessionRowsMember(rows, d, s, bucket[0]);
    var b := Bar(bucket[0].at, Summarize(bucket));
    assert VolumeSum([b]) == b.candle.volume + VolumeSum([]);
  }

  /** A bucket is empty exactly when no row has its date and session. */
  lemma BucketEmptyIff(rows: seq<Bar>, d: int, s: Session)
    ensures |SessionRows(rows, d, s)| > 0 <==> exists i :: 0 <= i < |rows| && rows[i].at.date == d && InSession(rows[i].at, s)
  {
    var bucket := SessionRows(rows, d, s);
    if |bucket| > 0 {
      SessionRowsMember(rows, d, s, bucket[0]);
    }
    forall i | 0 <= i < |rows| && rows[i].at.date == d && InSession(rows[i].at, s)
      ensures rows[i] in bucket
    {
      SessionRowsMember(rows, d, s, rows[i]);
    }
  }

  /** The 4-hour bars of date `d`: the morning bar, then the afternoon bar, each present
      only when its session has rows. */
  function DayBars(rows: seq<Bar>, d: int): (r: seq<Bar>)
    ensures |r| <= 2
    ensures forall k :: 0 <= k < |r| ==> r[k].at.date == d && 9 <= r[k].at.hour
  {
    SessionBar(rows, d, Morning) + SessionBar(rows, d, Afternoon)
  }

  /** Each bar of a day is the session bar of its bucket and is dated `d`; the morning bar
      comes first. */
  lemma DayBarsSound(rows: seq<Bar>, d: int)
    ensures forall k :: 0 <= k < |DayBars(rows, d)| ==> IsSessionBar(rows, DayBars(rows, d)[k]) && DayBars(rows, d)[k].at.date == d
    ensures forall k, m :: 0 <= k < m < |DayBars(rows, d)| ==> Before(DayBars(rows, d)[k].at, DayBars(rows, d)[m].at)
  {
    var morning := SessionBar(rows, d, Morning);
    var afternoon := SessionBar(rows, d, Afternoon);
    assert DayBars(rows, d) == morning + afternoon;
  }

  /** The groupby loop: the bars of the earliest date, then those of the later dates. */
  function Aggregate(rows: seq<Bar>): (out: seq<Bar>)
    ensures |out| <= 2 * |rows|
    ensures forall k :: 0 <= k < |out| ==> 9 <= out[k].at.hour
    decreases |rows|
  {
    if |rows| == 0 then []
    else
      var d := MinDate(rows);
      DayBars(rows, d) + Aggregate(OtherDates(rows, d))
  }

  /** Dropping the rows of another date does not change a bucket. */
  lemma {:induction false} SessionRowsOfOtherDates(rows: seq<Bar>, d: int, e: int, s: Session)
    requires d != e
    ensures SessionRows(OtherDates(rows, d), e, s) == SessionRows(rows, e, s)
  {
    if |rows| > 0 {
      SessionRowsOfOtherDates(rows[1..], d, e, s);
      var tail := OtherDates(rows[1..], d);
      if rows[0].at.date != d {
        assert OtherDates(rows, d) == [rows[0]] + tail;
        assert ([rows[0]] + tail)[1..] == tail;
      } else {
        assert OtherDates(rows, d) == tail;
      }
    }
  }

  /** Every 4-hour bar summarises the bucket of its own date and session. */
  lemma {:induction false} AggregateSound(rows: seq<Bar>)
    ensures forall k :: 0 <= k < |Aggregate(rows)| ==> IsSessionBar(rows, Aggregate(rows)[k])
    decreases |rows|
  {
    if |rows| > 0 {
      var d := MinDate(rows);
      var rest := OtherDates(rows, d);
      var day := DayBars(rows, d);
      var later := Aggregate(rest);
      assert Aggregate(rows) == day + later;
      DayBarsSound(rows, d);
      AggregateSound(rest);
      forall k | 0 <= k < |later|
        ensures IsSessionBar(rows, later[k])
      {
        var bucket := SessionRows(rest, later[k].at.date, SessionOf(later[k].at));
        SessionRowsMember(rest, later[k].at.date, SessionOf(later[k].at), bucket[0]);
        OtherDatesMember(rows, d, bucket[0]);
        SessionRowsOfOtherDates(rows, d, later[k].at.date, SessionOf(later[k].at));
      }
    }
  }

  /** The bars run date by date in increasing order, the morning bar of a date before
      its afternoon bar; in particular no date has more than two bars. */
  lemma {:induction false} AggregateOrdered(rows: seq<Bar>)
    ensures forall k, m :: 0 <= k < m < |Aggregate(rows)| ==> Before(Aggregate(rows)[k].at, Aggregate(rows)[m].at)
    decreases |rows|
  {
    if |rows| > 0 {
      var d := MinDate(rows);
      var rest := OtherDates(rows, d);
      var day := DayBars(rows, d);
      var later := Aggregate(rest);
      var out := day + later;
      assert Aggregate(rows) == out;
      DayBarsSound(rows, d);
      AggregateOrdered(rest);
      AggregateSound(rest);
      forall m | 0 <= m < |later|
        ensures d < later[m].at.date
      {
        var bucket := SessionRows(rest, later[m].at.date, SessionOf(later[m].at));
        SessionRowsMember(rest, later[m].at.date, SessionOf(later[m].at), bucket[0]);
        OtherDatesMember(rows, d, bucket[0]);
        var i :| 0 <= i < |rows| && rows[i] == bucket[0];
      }
      forall k, m | 0 <= k < m < |out|
        ensures Before(out[k].at, out[m].at)
      {
        if m < |day| {
        } else if k < |day| {
          assert out[m] == later[m - |day|];
        } else {
          assert out[k] == later[k - |day|] && out[m] == later[m - |day|];
        }
      }
    }
  }

  /** Every row of date `d` from hour 9 on has its session's bar among the day's bars. */
  lemma DayBarsComplete(rows: seq<Bar>, d: int, b: Bar)
    requires b in rows && b.at.date == d && 9 <= b.at.hour
    ensures exists k :: 0 <= k < |DayBars(rows, d)| && DayBars(rows, d)[k].at.date == d
                        && SessionOf(DayBars(rows, d)[k].at) == SessionOf(b.at)
  {
    var morning := SessionBar(rows, d, Morning);
    var afternoon := SessionBar(rows, d, Afternoon);
    var day := DayBars(rows, d);
    assert day == morning + afternoon;
    var i :| 0 <= i < |rows| && rows[i] == b;
    if SessionOf(b.at) == Morning {
      assert day[0] == morning[0];
    } else {
      assert day[|morning|] == afternoon[0];
    }
  }

  /** A row of the earliest date has its bar among the output. */
  lemma CompleteOnFirstDate(rows: seq<Bar>, b: Bar)
    requires b in rows && 9 <= b.at.hour && b.at.date == MinDate(rows)
    ensures exists k :: 0 <= k < |Aggregate(rows)| && Aggregate(rows)[k].at.date == b.at.date
                        && SessionOf(Aggregate(rows)[k].at) == SessionOf(b.at)
  {
    var d := MinDate(rows);
    var day := DayBars(rows, d);
    var out := day + Aggregate(OtherDates(rows, d));
    assert Aggregate(rows) == out;
    DayBarsComplete(rows, d, b);
    var k :| 0 <= k < |day| && day[k].at.date == d && SessionOf(day[k].at) == SessionOf(b.at);
    assert out[k] == day[k];
  }

  /** Every row from hour 9 on has the bar of its date and session among the output. */
  lemma {:induction false} AggregateComplete(rows: seq<Bar>, b: Bar)
    requires b in rows && 9 <= b.at.hour
    ensures exists k :: 0 <= k < |Aggregate(rows)| && Aggregate(rows)[k].at.date == b.at.date
                        && SessionOf(Aggregate(rows)[k].at) == SessionOf(b.at)
    decreases |rows|
  {
    var d := MinDate(rows);
    if b.at.date == d {
      CompleteOnFirstDate(rows, b);
    } else {
      var rest := OtherDates(rows, d);
      var day := DayBars(rows, d);
      var later := Aggregate(rest);
      var out := day + later;
      assert Aggregate(rows) == out;
      OtherDatesMember(rows, d, b);
      AggregateComplete(rest, b);
      var k :| 0 <= k < |later| && later[k].at.date == b.at.date && SessionOf(later[k].at) == SessionOf(b.at);
      assert out[|day| + k] == later[k];
    }
  }

  /** The output is empty exactly when no row falls in a session. */
  lemma AggregateEmptyIff(rows: seq<Bar>)
    ensures |Aggregate(rows)| == 0 <==> forall i :: 0 <= i < |rows| ==> rows[i].at.hour < 9
  {
    if i :| 0 <= i < |rows| && 9 <= rows[i].at.hour {
      AggregateComplete(rows, rows[i]);
    }
    if |Aggregate(rows)| > 0 {
      AggregateSound(rows);
      var bar := Aggregate(rows)[0];
      var bucket := SessionRows(rows, bar.at.date, SessionOf(bar.at));
      SessionRowsMember(rows, bar.at.date, SessionOf(bar.at), bucket[0]);
    }
  }

  /** `aggregate_to_4h`: `None` for no rows, and `None` as well when no row falls in a
      session (all of them start before hour 9); otherwise the session bars. */
  function AggregateTo4h(rows: seq<Bar>): (r: Option<seq<Bar>>)
    ensures r.None? <==> forall i :: 0 <= i < |rows| ==> rows[i].at.hour < 9
    ensures r.Some? ==> r.value == Aggregate(rows)
  {
    AggregateEmptyIff(rows);
    if |rows| == 0 then None
    else
      var out := Aggregate(rows);
      if |out| == 0 then None else Some(out)
  }

  // ---------------------------------------------------------------------------
  // Volume is conserved
  // ---------------------------------------------------------------------------

  lemma {:induction false} VolumeSumAppend(a: seq<Bar>, b: seq<Bar>)
    ensures VolumeSum(a + b) == VolumeSum(a) + VolumeSum(b)
  {
    if |a| > 0 {
      VolumeSumAppend(a[1..], b);
      assert (a + b)[1..] == a[1..] + b;
    } else {
      assert a + b == b;
    }
  }

  /** The daytime volume splits into the two sessions of date `d` and the daytime volume
      of the other dates. */
  lemma {:induction false} DaytimeVolumeSplits(rows: seq<Bar>, d: int)
    ensures VolumeSum(Daytime(rows)) ==
      VolumeSum(SessionRows(rows, d, Morning)) + VolumeSum(SessionRows(rows, d, Afternoon))
      + VolumeSum(Daytime(OtherDates(rows, d)))
  {
    if |rows| > 0 {
      DaytimeVolumeSplits(rows[1..], d);
      var x := rows[0];
      var tailOther := OtherDates(rows[1..], d);
      VolumeSumAppend(if 9 <= x.at.hour then [x] else [], Daytime(rows[1..]));
      VolumeSumAppend(if x.at.date == d && InSession(x.at, Morning) then [x] else [], SessionRows(rows[1..], d, Morning));
      VolumeSumAppend(if x.at.date == d && InSession(x.at, Afternoon) then [x] else [], SessionRows(rows[1..], d, Afternoon));
      if x.at.date != d {
        assert OtherDates(rows, d) == [x] + tailOther;
        assert ([x] + tailOther)[1..] == tailOther;
        VolumeSumAppend(if 9 <= x.at.hour then [x] else [], Daytime(tailOther));
      } else {
        assert OtherDates(rows, d) == tailOther;
      }
      assert VolumeSum([x]) == x.candle.volume;
    }
  }

  /** The 4-hour bars carry exactly the volume of the hourly rows from hour 9 on: rows
      before the morning session are the only volume dropped. */
  lemma {:induction false} AggregateConservesVolume(rows: seq<Bar>)
    ensures VolumeSum(Aggregate(rows)) == VolumeSum(Daytime(rows))
    decreases |rows|
  {
    if |rows| > 0 {
      var d := MinDate(rows);
      var rest := OtherDates(rows, d);
      AggregateConservesVolume(rest);
      DaytimeVolumeSplits(rows, d);
      var mBars := SessionBar(rows, d, Morning);
      var aBars := SessionBar(rows, d, Afternoon);
      assert DayBars(rows, d) == mBars + aBars;
      VolumeSumAppend(mBars + aBars, Aggregate(rest));
      VolumeSumAppend(mBars, aBars);
    }
  }
}
