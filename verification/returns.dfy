/** Look-back returns of a price series (backend/core/sector_scanner.py,
    `SectorRelativeStrength.calculate_returns` / `calculate_intraday_returns` and the
    `StockRelativeStrength` versions of both). A return compares the last close with
    an earlier reference close: by bar offset for Daily, 1 Hour and 4 Hour; by the
    last close of an earlier calendar week or month for Weekly and Monthly; by the
    last close on or before a date three months back per look-back step for 3 Month. */
module Returns {
  import opened Wrappers

  // ---------------------------------------------------------------------------
  // Periods and return maps
  // ---------------------------------------------------------------------------

  /** The keys of a returns dict. */
  datatype Period = OneHour | FourHour | Daily | Weekly | Monthly | ThreeMonth

  /** The program's dict key for each period. */
  function PeriodName(p: Period): string
  {
    match p
    case OneHour => "1 Hour"
    case FourHour => "4 Hour"
    case Daily => "Daily"
    case Weekly => "Weekly"
    case Monthly => "Monthly"
    case ThreeMonth => "3 Month"
  }

  /** The period a dict key names, if any. */
  function PeriodNamed(name: string): (p: Option<Period>)
    ensures p.Some? ==> PeriodName(p.value) == name
  {
    if name == "1 Hour" then Some(OneHour)
    else if name == "4 Hour" then Some(FourHour)
    else if name == "Daily" then Some(Daily)
    else if name == "Weekly" then Some(Weekly)
    else if name == "Monthly" then Some(Monthly)
    else if name == "3 Month" then Some(ThreeMonth)
    else None
  }

  /** Every period is found again from its key. */
  lemma PeriodNameRoundTrip(p: Period)
    ensures PeriodNamed(PeriodName(p)) == Some(p)
  {
  }

  /** A returns dict: a key may be absent, or present with `None`. */
  type ReturnMap = map<Period, Option<real>>

  /** `d.get(key)`: the value under `p`, `None` when the key is absent. */
  function Lookup(m: ReturnMap, p: Period): Option<real>
  {
    if p in m then m[p] else None
  }

  /** A closing price. Every return divides by one, so closes are positive. */
  type Price = r: real | 0.0 < r witness 1.0

  /** `reference` grown by `pct` percent is `current`. */
  predicate Grows(reference: real, pct: real, current: real)
  {
    reference * (1.0 + pct / 100.0) == current
  }

  /** `(current - reference) / reference * 100`. */
  function ReturnPct(current: Price, reference: Price): (r: real)
    ensures 0.0 < r <==> reference < current
    ensures r < 0.0 <==> current < reference
    ensures Grows(reference, r, current)
  {
    var q := (current - reference) / reference;
    assert q * reference == current - reference;
    q * 100.0
  }

  /** The close `offset` bars before the last one (`iloc[-(offset + 1)]`) against the
      last close; missing when the series is not longer than the offset. */
  function OffsetReturn(closes: seq<Price>, offset: nat): (r: Option<real>)
    requires 0 < |closes|
    ensures r.Some? <==> offset < |closes|
    ensures r.Some? ==> Grows(closes[|closes| - 1 - offset], r.value, closes[|closes| - 1])
  {
    if offset < |closes| then Some(ReturnPct(closes[|closes| - 1], closes[|closes| - 1 - offset])) else None
  }

  /** An offset of zero compares the last close with itself. */
  lemma ZeroOffsetIsFlat(closes: seq<Price>)
    requires 0 < |closes|
    ensures OffsetReturn(closes, 0) == Some(0.0)
  {
  }

  // ---------------------------------------------------------------------------
  // Intraday returns
  // ---------------------------------------------------------------------------

  /** `SectorRelativeStrength.calculate_intraday_returns` over hourly closes: nothing for
      fewer than two bars, otherwise 1 Hour over `lookback` bars and 4 Hour over
      `4 * lookback` bars, each `None` when the series is too short. */
  function IntradayReturns(closes: seq<Price>, lookback: nat): (r: ReturnMap)
    ensures |closes| < 2 ==> r == map[]
    ensures 2 <= |closes| ==> r.Keys == {OneHour, FourHour}
    ensures 2 <= |closes| ==> (r[OneHour].Some? <==> lookback < |closes|)
    ensures 2 <= |closes| ==> (r[FourHour].Some? <==> 4 * lookback < |closes|)
    ensures 2 <= |closes| && r[OneHour].Some? ==>
      Grows(closes[|closes| - 1 - lookback], r[OneHour].value, closes[|closes| - 1])
    ensures 2 <= |closes| && r[FourHour].Some? ==>
      Grows(closes[|closes| - 1 - 4 * lookback], r[FourHour].value, closes[|closes| - 1])
  {
    if |closes| < 2 then map[]
    else map[OneHour := OffsetReturn(closes, lookback), FourHour := OffsetReturn(closes, 4 * lookback)]
  }

  /** `StockRelativeStrength.calculate_intraday_returns`: the same returns, with a key
      left out where the sector version stores `None`. */
  function StockIntradayReturns(closes: seq<Price>, lookback: nat): (r: ReturnMap)
    ensures |closes| < 2 ==> r == map[]
    ensures r.Keys <= {OneHour, FourHour}
    ensures forall p :: p in r ==> r[p].Some?
    ensures 2 <= |closes| ==> (OneHour in r <==> lookback < |closes|)
    ensures 2 <= |closes| ==> (FourHour in r <==> 4 * lookback < |closes|)
    ensures OneHour in r ==>
      lookback < |closes| && Grows(closes[|closes| - 1 - lookback], r[OneHour].value, closes[|closes| - 1])
    ensures FourHour in r ==>
      4 * lookback < |closes| && Grows(closes[|closes| - 1 - 4 * lookback], r[FourHour].value, closes[|closes| - 1])
  {
    if |closes| < 2 then map[]
    else
      var one := if lookback < |closes| then map[OneHour := OffsetReturn(closes, lookback)] else map[];
      var four := if 4 * lookback < |closes| then map[FourHour := OffsetReturn(closes, 4 * lookback)] else map[];
      one + four
  }

  /** The stock version keeps exactly the present entries of the sector version. */
  lemma StockIntradayIsPresentPart(closes: seq<Price>, lookback: nat)
    ensures forall p :: p in StockIntradayReturns(closes, lookback) <==>
      p in IntradayReturns(closes, lookback) && IntradayReturns(closes, lookback)[p].Some?
    ensures forall p :: p in StockIntradayReturns(closes, lookback) ==>
      StockIntradayReturns(closes, lookback)[p] == IntradayReturns(closes, lookback)[p]
  {
  }

  // ---------------------------------------------------------------------------
  // Calendar
  // ---------------------------------------------------------------------------

  /** A calendar date. */
  datatype Date = Date(year: int, month: int, day: int)

  /** `date <= other` on timestamps at the same time of day. */
  predicate DateLe(a: Date, b: Date)
  {
    a.year < b.year
    || (a.year == b.year && a.month < b.month)
    || (a.year == b.year && a.month == b.month && a.day <= b.day)
  }

  predicate IsLeapYear(y: int)
  {
    y % 4 == 0 && (y % 100 != 0 || y % 400 == 0)
  }

  function DaysInMonth(y: int, m: int): (d: int)
    ensures 28 <= d <= 31
  {
    if m == 2 then (if IsLeapYear(y) then 29 else 28)
    else if m == 4 || m == 6 || m == 9 || m == 11 then 30
    else 31
  }

  /** Months since year 0: the position of a date's month on one line. */
  function MonthIndex(d: Date): int
  {
    d.year * 12 + (d.month - 1)
  }

  /** pandas `date - DateOffset(months=k)`: the same day `k` months earlier, moved back
      to the last day of that month when the month is shorter. */
  function MonthsBack(d: Date, k: nat): (r: Date)
    ensures MonthIndex(r) == MonthIndex(d) - k
    ensures 1 <= r.month <= 12
    ensures r.day <= d.day
    ensures r.day == d.day || r.day == DaysInMonth(r.year, r.month)
  {
    var total := MonthIndex(d) - k;
    var y := total / 12;
    var m := total % 12 + 1;
    var last := DaysInMonth(y, m);
    Date(y, m, if d.day <= last then d.day else last)
  }

  /** A daily bar: its date, the (ISO year, ISO week) that `date.isocalendar()` gives
      for it, and its close. */
  datatype DayBar = DayBar(date: Date, isoYear: int, isoWeek: int, close: Price)

  function Closes(bars: seq<DayBar>): (cs: seq<Price>)
    ensures |cs| == |bars|
    ensures forall i :: 0 <= i < |bars| ==> cs[i] == bars[i].close
  {
    seq(|bars|, i requires 0 <= i < |bars| => bars[i].close)
  }

  // ---------------------------------------------------------------------------
  // Period keys and the earlier period a look-back selects
  // ---------------------------------------------------------------------------

  /** How bars are grouped into periods. */
  datatype Grouping =
    | WeekAsWritten   // calendar year * 100 + ISO week, the key `calculate_returns` builds
    | IsoWeek         // ISO year * 100 + ISO week
    | CalendarMonth   // year * 100 + month

  /** The period key of one bar. */
  function KeyOf(g: Grouping, b: DayBar): int
  {
    match g
    case WeekAsWritten => b.date.year * 100 + b.isoWeek
    case IsoWeek => b.isoYear * 100 + b.isoWeek
    case CalendarMonth => b.date.year * 100 + b.date.month
  }

  function Keys(g: Grouping, bars: seq<DayBar>): (ks: seq<int>)
    ensures |ks| == |bars|
    ensures forall i :: 0 <= i < |bars| ==> ks[i] == KeyOf(g, bars[i])
  {
    seq(|bars|, i requires 0 <= i < |bars| => KeyOf(g, bars[i]))
  }

  /** The distinct keys strictly below `bound`. */
  function KeysBelow(ks: seq<int>, bound: int): set<int>
  {
    set k | k in ks && k < bound
  }

  /** The distinct keys strictly between `lo` and `hi`. */
  function KeysBetween(ks: seq<int>, lo: int, hi: int): set<int>
  {
    set k | k in ks && lo < k < hi
  }

  /** The largest key strictly below `bound`, if any. */
  function MaxBelow(ks: seq<int>, bound: int): (r: Option<int>)
    ensures r.None? <==> forall i :: 0 <= i < |ks| ==> bound <= ks[i]
    ensures r.Some? ==> r.value in ks && r.value < bound
    ensures r.Some? ==> forall i :: 0 <= i < |ks| && ks[i] < bound ==> ks[i] <= r.value
  {
    if |ks| == 0 then None
    else
      var rest := MaxBelow(ks[1..], bound);
      assert forall i :: 1 <= i < |ks| ==> ks[i] == ks[1..][i - 1];
      if ks[0] < bound && (rest.None? || rest.value < ks[0]) then Some(ks[0])
      else rest
  }

  /** The smallest key strictly below `bound`, if any. */
  function MinBelow(ks: seq<int>, bound: int): (r: Option<int>)
    ensures r.None? <==> forall i :: 0 <= i < |ks| ==> bound <= ks[i]
    ensures r.Some? ==> r.value in ks && r.value < bound
    ensures r.Some? ==> forall i :: 0 <= i < |ks| && ks[i] < bound ==> r.value <= ks[i]
  {
    if |ks| == 0 then None
    else
      var rest := MinBelow(ks[1..], bound);
      assert forall i :: 1 <= i < |ks| ==> ks[i] == ks[1..][i - 1];
      if ks[0] < bound && (rest.None? || ks[0] < rest.value) then Some(ks[0])
      else rest
  }

  /** Stepping down `n` distinct keys from `bound`: `prev[-n]` of the sorted distinct
      keys below `bound`, missing when there are fewer than `n` of them. */
  function NthBelow(ks: seq<int>, bound: int, n: nat): (r: Option<int>)
    requires 1 <= n
    decreases n
  {
    match MaxBelow(ks, bound)
    case None => None
    case Some(m) => if n == 1 then Some(m) else NthBelow(ks, m, n - 1)
  }

  /** Below the largest key under `bound` lie all keys under `bound` but that one. */
  lemma KeysBelowStep(ks: seq<int>, bound: int, m: int)
    requires MaxBelow(ks, bound) == Some(m)
    ensures KeysBelow(ks, bound) == KeysBelow(ks, m) + {m}
    ensures m !in KeysBelow(ks, m)
  {
    forall k | k in KeysBelow(ks, bound)
      ensures k in KeysBelow(ks, m) + {m}
    {
      var i :| 0 <= i < |ks| && ks[i] == k;
    }
  }

  /** No key below `bound` when there is no largest one. */
  lemma NoKeysBelow(ks: seq<int>, bound: int)
    requires MaxBelow(ks, bound).None?
    ensures KeysBelow(ks, bound) == {}
  {
  }

  /** Between `t` and `bound` lie the keys between `t` and the largest key `m` below
      `bound`, and `m` itself. */
  lemma KeysBetweenStep(ks: seq<int>, bound: int, m: int, t: int)
    requires MaxBelow(ks, bound) == Some(m)
    requires t < m
    ensures KeysBetween(ks, t, bound) == KeysBetween(ks, t, m) + {m}
    ensures m !in KeysBetween(ks, t, m)
  {
    forall k | k in KeysBetween(ks, t, bound)
      ensures k in KeysBetween(ks, t, m) + {m}
    {
      var i :| 0 <= i < |ks| && ks[i] == k;
    }
  }

  /** No key lies between the largest key below `bound` and `bound`. */
  lemma NothingAboveMax(ks: seq<int>, bound: int, m: int)
    requires MaxBelow(ks, bound) == Some(m)
    ensures KeysBetween(ks, m, bound) == {}
  {
  }

  /** The key `n` steps down is a key below `bound` with exactly `n - 1` distinct keys
      between it and `bound`; it is missing exactly when fewer than `n` keys lie below
      `bound`. */
  lemma {:induction false} NthBelowCounts(ks: seq<int>, bound: int, n: nat)
    requires 1 <= n
    ensures NthBelow(ks, bound, n).None? <==> |KeysBelow(ks, bound)| < n
    ensures NthBelow(ks, bound, n).Some? ==>
      var t := NthBelow(ks, bound, n).value;
      t in ks && t < bound && |KeysBetween(ks, t, bound)| == n - 1
    decreases n
  {
    var mb := MaxBelow(ks, bound);
    if mb.None? {
      NoKeysBelow(ks, bound);
    } else {
      var m := mb.value;
      KeysBelowStep(ks, bound, m);
      if n == 1 {
        NothingAboveMax(ks, bound, m);
      } else {
        NthBelowCounts(ks, m, n - 1);
        var r := NthBelow(ks, m, n - 1);
        if r.Some? {
          KeysBetweenStep(ks, bound, m, r.value);
        }
      }
    }
  }

  /** `prev[-lookback]` over the sorted distinct keys below `current`, with Python's
      indexing: `prev[-0]` is the first, smallest key; an empty list raises, which the
      caller turns into `None`. */
  function TargetKey(ks: seq<int>, current: int, lookback: nat): (r: Option<int>)
    ensures r.Some? ==> r.value in ks && r.value < current
    ensures lookback == 0 ==> (r.None? <==> forall i :: 0 <= i < |ks| ==> current <= ks[i])
    ensures lookback == 0 && r.Some? ==> forall i :: 0 <= i < |ks| && ks[i] < current ==> r.value <= ks[i]
    ensures 1 <= lookback ==> (r.None? <==> |KeysBelow(ks, current)| < lookback)
    ensures 1 <= lookback && r.Some? ==> |KeysBetween(ks, r.value, current)| == lookback - 1
  {
    if lookback == 0 then MinBelow(ks, current)
    else
      NthBelowCounts(ks, current, lookback);
      NthBelow(ks, current, lookback)
  }

  /** The index of the last bar satisfying `p`, if any. */
  function LastWhere(bars: seq<DayBar>, p: DayBar -> bool): (r: Option<nat>)
    ensures r.None? <==> forall i :: 0 <= i < |bars| ==> !p(bars[i])
    ensures r.Some? ==> r.value < |bars| && p(bars[r.value])
    ensures r.Some? ==> forall i :: r.value < i < |bars| ==> !p(bars[i])
  {
    if |bars| == 0 then None
    else if p(bars[|bars| - 1]) then Some(|bars| - 1)
    else LastWhere(bars[..|bars| - 1], p)
  }

  /** The bar whose close a Weekly / Monthly return compares with: the last bar of the
      period `lookback` distinct periods back, counted among the periods whose key is
      below the current bar's key. */
  function PeriodReference(bars: seq<DayBar>, g: Grouping, lookback: nat): (r: Option<nat>)
    requires 0 < |bars|
    ensures r.Some? <==> TargetKey(Keys(g, bars), KeyOf(g, bars[|bars| - 1]), lookback).Some?
    ensures r.Some? ==> r.value < |bars|
    ensures r.Some? ==>
      var t := TargetKey(Keys(g, bars), KeyOf(g, bars[|bars| - 1]), lookback).value;
      && KeyOf(g, bars[r.value]) == t
      && forall j :: r.value < j < |bars| ==> KeyOf(g, bars[j]) != t
  {
    var ks := Keys(g, bars);
    match TargetKey(ks, KeyOf(g, bars[|bars| - 1]), lookback)
    case None => None
    case Some(t) =>
      var at := LastWhere(bars, (b: DayBar) => KeyOf(g, b) == t);
      assert at.Some? by {
        var i :| 0 <= i < |ks| && ks[i] == t;
        assert KeyOf(g, bars[i]) == t;
      }
      at
  }

  /** The Weekly / Monthly return against the close of the reference bar. */
  function PeriodReturn(bars: seq<DayBar>, g: Grouping, lookback: nat): (r: Option<real>)
    requires 0 < |bars|
    ensures r.Some? <==> PeriodReference(bars, g, lookback).Some?
    ensures r.Some? ==>
      Grows(bars[PeriodReference(bars, g, lookback).value].close, r.value, bars[|bars| - 1].close)
  {
    match PeriodReference(bars, g, lookback)
    case None => None
    case Some(i) => Some(ReturnPct(bars[|bars| - 1].close, bars[i].close))
  }

  /** With a positive look-back the Weekly / Monthly return is present exactly when at
      least `lookback` distinct periods precede the current one. */
  lemma PeriodReturnPresent(bars: seq<DayBar>, g: Grouping, lookback: nat)
    requires 0 < |bars| && 1 <= lookback
    ensures PeriodReturn(bars, g, lookback).Some? <==>
      lookback <= |KeysBelow(Keys(g, bars), KeyOf(g, bars[|bars| - 1]))|
  {
    NthBelowCounts(Keys(g, bars), KeyOf(g, bars[|bars| - 1]), lookback);
  }

  /** The bar a 3 Month return compares with: the last one dated on or before the date
      `3 * lookback` months before the last bar's date. */
  function QuarterReference(bars: seq<DayBar>, lookback: nat): (r: Option<nat>)
    requires 0 < |bars|
    ensures var cutoff := MonthsBack(bars[|bars| - 1].date, 3 * lookback);
      && (r.None? <==> forall i :: 0 <= i < |bars| ==> !DateLe(bars[i].date, cutoff))
      && (r.Some? ==> r.value < |bars| && DateLe(bars[r.value].date, cutoff))
      && (r.Some? ==> forall j :: r.value < j < |bars| ==> !DateLe(bars[j].date, cutoff))
  {
    var cutoff := MonthsBack(bars[|bars| - 1].date, 3 * lookback);
    LastWhere(bars, (b: DayBar) => DateLe(b.date, cutoff))
  }

  /** The 3 Month return against the close of the reference bar. */
  function QuarterReturn(bars: seq<DayBar>, lookback: nat): (r: Option<real>)
    requires 0 < |bars|
    ensures r.Some? <==> QuarterReference(bars, lookback).Some?
    ensures r.Some? ==>
      Grows(bars[QuarterReference(bars, lookback).value].close, r.value, bars[|bars| - 1].close)
  {
    match QuarterReference(bars, lookback)
    case None => None
    case Some(i) => Some(ReturnPct(bars[|bars| - 1].close, bars[i].close))
  }

  // ---------------------------------------------------------------------------
  // The daily returns dicts
  // ---------------------------------------------------------------------------

  /** `SectorRelativeStrength.calculate_returns`: nothing for fewer than two bars,
      otherwise all four of Daily, Weekly, Monthly and 3 Month, each `None` when it
      cannot be had. The weekly grouping is a parameter so that the key as written
      and the ISO key share one definition. */
  function DailyReturnsWith(bars: seq<DayBar>, lookback: nat, week: Grouping): (r: ReturnMap)
    ensures |bars| < 2 ==> r == map[]
    ensures 2 <= |bars| ==> r.Keys == {Daily, Weekly, Monthly, ThreeMonth}
    ensures 2 <= |bars| ==> (r[Daily].Some? <==> lookback < |bars|)
    ensures 2 <= |bars| && r[Daily].Some? ==>
      Grows(bars[|bars| - 1 - lookback].close, r[Daily].value, bars[|bars| - 1].close)
    ensures 2 <= |bars| ==> r[Weekly] == PeriodReturn(bars, week, lookback)
    ensures 2 <= |bars| ==> r[Monthly] == PeriodReturn(bars, CalendarMonth, lookback)
    ensures 2 <= |bars| ==> r[ThreeMonth] == QuarterReturn(bars, lookback)
  {
    if |bars| < 2 then map[]
    else
      var closes := Closes(bars);
      var daily := OffsetReturn(closes, lookback);
      assert daily.Some? ==> closes[|bars| - 1 - lookback] == bars[|bars| - 1 - lookback].close;
      assert closes[|bars| - 1] == bars[|bars| - 1].close;
      var weekly := PeriodReturn(bars, week, lookback);
      var monthly := PeriodReturn(bars, CalendarMonth, lookback);
      var quarter := QuarterReturn(bars, lookback);
      map[Daily := daily, Weekly := weekly, Monthly := monthly, ThreeMonth := quarter]
  }

  /** The program's dict, with its weekly key of calendar year and ISO week: it
      differs from the ISO-keyed dict in the Weekly entry alone. */
  function DailyReturnsAsWritten(bars: seq<DayBar>, lookback: nat): (r: ReturnMap)
    ensures 2 <= |bars| ==> r.Keys == {Daily, Weekly, Monthly, ThreeMonth}
    ensures 2 <= |bars| ==> r[Weekly] == PeriodReturn(bars, WeekAsWritten, lookback)
    ensures forall p :: p != Weekly ==> (p in r <==> p in DailyReturns(bars, lookback))
    ensures forall p :: p != Weekly && p in r ==> r[p] == DailyReturns(bars, lookback)[p]
  {
    DailyReturnsWith(bars, lookback, WeekAsWritten)
  }

  /** The dict with weeks keyed by ISO year and ISO week. */
  function DailyReturns(bars: seq<DayBar>, lookback: nat): (r: ReturnMap)
    ensures 2 <= |bars| ==> r.Keys == {Daily, Weekly, Monthly, ThreeMonth}
    ensures 2 <= |bars| ==> r[Weekly] == PeriodReturn(bars, IsoWeek, lookback)
    ensures 2 <= |bars| ==> r[Monthly] == PeriodReturn(bars, CalendarMonth, lookback)
  {
    DailyReturnsWith(bars, lookback, IsoWeek)
  }

  /** A dict holding each of Daily, Weekly and Monthly only when its value is present. */
  function PresentEntries(daily: Option<real>, weekly: Option<real>, monthly: Option<real>): (r: ReturnMap)
    ensures r.Keys <= {Daily, Weekly, Monthly}
    ensures forall p :: p in r ==> r[p].Some?
    ensures Daily in r <==> daily.Some?
    ensures Weekly in r <==> weekly.Some?
    ensures Monthly in r <==> monthly.Some?
    ensures Daily in r ==> r[Daily] == daily
    ensures Weekly in r ==> r[Weekly] == weekly
    ensures Monthly in r ==> r[Monthly] == monthly
  {
    (if daily.Some? then map[Daily := daily] else map[])
    + (if weekly.Some? then map[Weekly := weekly] else map[])
    + (if monthly.Some? then map[Monthly := monthly] else map[])
  }

  /** `StockRelativeStrength.calculate_returns`: Daily, Weekly and Monthly only, each
      key left out when the value cannot be had. The weekly grouping is a parameter,
      as for the sector dict. */
  function StockDailyReturnsWith(bars: seq<DayBar>, lookback: nat, week: Grouping): (r: ReturnMap)
    ensures |bars| < 2 ==> r == map[]
    ensures r.Keys <= {Daily, Weekly, Monthly}
    ensures forall p :: p in r ==> r[p].Some?
    ensures 2 <= |bars| ==> (Daily in r <==> lookback < |bars|)
    ensures Daily in r ==>
      lookback < |bars| && Grows(bars[|bars| - 1 - lookback].close, r[Daily].value, bars[|bars| - 1].close)
    ensures 2 <= |bars| ==> (Weekly in r <==> PeriodReturn(bars, week, lookback).Some?)
    ensures Weekly in r ==> 2 <= |bars| && r[Weekly] == PeriodReturn(bars, week, lookback)
    ensures 2 <= |bars| ==> (Monthly in r <==> PeriodReturn(bars, CalendarMonth, lookback).Some?)
    ensures Monthly in r ==> 2 <= |bars| && r[Monthly] == PeriodReturn(bars, CalendarMonth, lookback)
  {
    if |bars| < 2 then map[]
    else
      var closes := Closes(bars);
      var daily := OffsetReturn(closes, lookback);
      assert daily.Some? ==> closes[|bars| - 1 - lookback] == bars[|bars| - 1 - lookback].close;
      assert closes[|bars| - 1] == bars[|bars| - 1].close;
      PresentEntries(daily, PeriodReturn(bars, week, lookback), PeriodReturn(bars, CalendarMonth, lookback))
  }

  /** The program's stock dict, with its weekly key of calendar year and ISO week. */
  function StockDailyReturnsAsWritten(bars: seq<DayBar>, lookback: nat): (r: ReturnMap)
    ensures 2 <= |bars| ==> (Weekly in r <==> PeriodReturn(bars, WeekAsWritten, lookback).Some?)
    ensures forall p :: p != Weekly ==> (p in r <==> p in StockDailyReturns(bars, lookback))
    ensures forall p :: p != Weekly && p in r ==> r[p] == StockDailyReturns(bars, lookback)[p]
  {
    StockDailyReturnsWith(bars, lookback, WeekAsWritten)
  }

  /** The stock dict with weeks keyed by ISO year and ISO week. */
  function StockDailyReturns(bars: seq<DayBar>, lookback: nat): (r: ReturnMap)
    ensures 2 <= |bars| ==> (Weekly in r <==> PeriodReturn(bars, IsoWeek, lookback).Some?)
    ensures Weekly in r ==> 2 <= |bars| && r[Weekly] == PeriodReturn(bars, IsoWeek, lookback)
  {
    StockDailyReturnsWith(bars, lookback, IsoWeek)
  }

  /** One period of `StockDailyIsPresentPart`. */
  lemma StockDailyAt(bars: seq<DayBar>, lookback: nat, week: Grouping, p: Period)
    requires p != ThreeMonth
    ensures p in StockDailyReturnsWith(bars, lookback, week) <==>
      p in DailyReturnsWith(bars, lookback, week) && DailyReturnsWith(bars, lookback, week)[p].Some?
    ensures p in StockDailyReturnsWith(bars, lookback, week) ==>
      StockDailyReturnsWith(bars, lookback, week)[p] == DailyReturnsWith(bars, lookback, week)[p]
  {
    if 2 <= |bars| {
      var d := DailyReturnsWith(bars, lookback, week);
      assert d[Daily] == OffsetReturn(Closes(bars), lookback);
      assert d[Weekly] == PeriodReturn(bars, week, lookback);
      assert d[Monthly] == PeriodReturn(bars, CalendarMonth, lookback);
    }
  }

  /** Whichever weekly key both use, the stock dict keeps exactly the present Daily,
      Weekly and Monthly entries of the sector dict. */
  lemma StockDailyIsPresentPart(bars: seq<DayBar>, lookback: nat, week: Grouping)
    ensures forall p :: p != ThreeMonth ==>
      (p in StockDailyReturnsWith(bars, lookback, week) <==>
        p in DailyReturnsWith(bars, lookback, week) && DailyReturnsWith(bars, lookback, week)[p].Some?)
    ensures forall p :: p in StockDailyReturnsWith(bars, lookback, week) ==>
      StockDailyReturnsWith(bars, lookback, week)[p] == DailyReturnsWith(bars, lookback, week)[p]
  {
    forall p | p != ThreeMonth
      ensures p in StockDailyReturnsWith(bars, lookback, week) <==>
        p in DailyReturnsWith(bars, lookback, week) && DailyReturnsWith(bars, lookback, week)[p].Some?
      ensures p in StockDailyReturnsWith(bars, lookback, week) ==>
        StockDailyReturnsWith(bars, lookback, week)[p] == DailyReturnsWith(bars, lookback, week)[p]
    {
      StockDailyAt(bars, lookback, week, p);
    }
  }

  // ---------------------------------------------------------------------------
  // The week key across a year boundary
  // ---------------------------------------------------------------------------

  /** Friday 27 December 2024 (ISO 2024-W52) and Monday 30 December 2024 (ISO 2025-W01):
      with the calendar-year key the later week gets key 202401, below 202452, so no
      earlier week is found; with the ISO key the previous week is found. */
  lemma WeekKeyAcrossYearEnd()
    ensures var bars := [DayBar(Date(2024, 12, 27), 2024, 52, 100.0), DayBar(Date(2024, 12, 30), 2025, 1, 110.0)];
      && DailyReturnsAsWritten(bars, 1)[Weekly] == None
      && DailyReturns(bars, 1)[Weekly] == Some(10.0)
  {
    var bars := [DayBar(Date(2024, 12, 27), 2024, 52, 100.0), DayBar(Date(2024, 12, 30), 2025, 1, 110.0)];
    var ks := Keys(WeekAsWritten, bars);
    assert ks == [202452, 202401];
    assert MaxBelow(ks, 202401) == None;
    var iso := Keys(IsoWeek, bars);
    assert iso == [202452, 202501];
    assert MaxBelow(iso[1..], 202501) == None;
    assert MaxBelow(iso, 202501) == Some(202452);
    assert LastWhere(bars, (b: DayBar) => KeyOf(IsoWeek, b) == 202452) == Some(0) by {
      assert LastWhere(bars[..1], (b: DayBar) => KeyOf(IsoWeek, b) == 202452) == Some(0);
    }
  }

  /** ISO weeks ordered as (year, week) get ordered keys. */
  predicate IsoBefore(a: DayBar, b: DayBar)
  {
    a.isoYear < b.isoYear || (a.isoYear == b.isoYear && a.isoWeek < b.isoWeek)
  }

  predicate ValidIsoWeek(b: DayBar)
  {
    1 <= b.isoWeek <= 53
  }

  /** With the ISO key, any bar in an earlier ISO week makes the one-week return
      present. */
  lemma IsoWeekReturnFindsEarlierWeek(bars: seq<DayBar>, i: nat)
    requires 0 < |bars| && i < |bars|
    requires ValidIsoWeek(bars[i]) && ValidIsoWeek(bars[|bars| - 1])
    requires IsoBefore(bars[i], bars[|bars| - 1])
    ensures PeriodReturn(bars, IsoWeek, 1).Some?
  {
    var ks := Keys(IsoWeek, bars);
    assert ks[i] < KeyOf(IsoWeek, bars[|bars| - 1]);
    assert ks[i] in KeysBelow(ks, KeyOf(IsoWeek, bars[|bars| - 1]));
    PeriodReturnPresent(bars, IsoWeek, 1);
  }

  /** The stock dict over the same two bars: the key as written leaves Weekly out,
      the ISO key reports the 10 % rise. */
  lemma StockWeekKeyAcrossYearEnd()
    ensures var bars := [DayBar(Date(2024, 12, 27), 2024, 52, 100.0), DayBar(Date(2024, 12, 30), 2025, 1, 110.0)];
      && Weekly !in StockDailyReturnsAsWritten(bars, 1)
      && Weekly in StockDailyReturns(bars, 1)
      && StockDailyReturns(bars, 1)[Weekly] == Some(10.0)
  {
    var bars := [DayBar(Date(2024, 12, 27), 2024, 52, 100.0), DayBar(Date(2024, 12, 30), 2025, 1, 110.0)];
    WeekKeyAcrossYearEnd();
    StockDailyAt(bars, 1, WeekAsWritten, Weekly);
    StockDailyAt(bars, 1, IsoWeek, Weekly);
  }

  /** With the ISO key, any bar in an earlier ISO week puts a one-week return in the
      stock dict. */
  lemma StockIsoWeekFindsEarlierWeek(bars: seq<DayBar>, i: nat)
    requires 0 < |bars| && i < |bars|
    requires ValidIsoWeek(bars[i]) && ValidIsoWeek(bars[|bars| - 1])
    requires IsoBefore(bars[i], bars[|bars| - 1])
    ensures Weekly in StockDailyReturns(bars, 1)
  {
    IsoWeekReturnFindsEarlierWeek(bars, i);
  }
}
