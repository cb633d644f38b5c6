/** Relative strength against the benchmark, the out/neutral/under categorisation and
    the rankings (backend/core/sector_scanner.py: `calculate_relative_strength`,
    `categorize_sectors`, `get_sector_ranking`, `get_stock_ranking` and the per-stock
    relative strength, categorisation and sorting of
    `StockRelativeStrength.analyze_sector_stocks`). */
module Relative {
  import opened Wrappers
  import opened Seqs
  import opened Returns

  // ---------------------------------------------------------------------------
  // Relative strength
  // ---------------------------------------------------------------------------

  /** `calculate_relative_strength`: for every period of the sector's dict, the sector
      return minus the benchmark return, `None` unless both are present. */
  function RelativeStrength(sector: ReturnMap, benchmark: ReturnMap): (r: ReturnMap)
    ensures r.Keys == sector.Keys
    ensures forall p :: p in r ==> (r[p].Some? <==> sector[p].Some? && Lookup(benchmark, p).Some?)
    ensures forall p :: p in r && r[p].Some? ==> Lookup(benchmark, p).value + r[p].value == sector[p].value
  {
    map p | p in sector ::
      if sector[p].Some? && Lookup(benchmark, p).Some? then Some(sector[p].value - Lookup(benchmark, p).value) else None
  }

  /** A series measured against itself is level wherever it has a return, and missing
      wherever its return is missing. */
  lemma RelativeToItselfIsLevel(m: ReturnMap)
    ensures forall p :: p in m && m[p].Some? ==> RelativeStrength(m, m)[p] == Some(0.0)
    ensures forall p :: p in m && m[p].None? ==> RelativeStrength(m, m)[p] == None
  {
  }

  /** Swapping sector and benchmark negates every relative strength and keeps every
      missing one missing. */
  lemma RelativeSwapNegates(a: ReturnMap, b: ReturnMap)
    ensures forall p :: p in a && p in b ==>
      RelativeStrength(a, b)[p].Some? == RelativeStrength(b, a)[p].Some?
    ensures forall p :: p in a && p in b && RelativeStrength(a, b)[p].Some? ==>
      RelativeStrength(a, b)[p].value == -RelativeStrength(b, a)[p].value
  {
  }

  /** The per-stock relative strength of `analyze_sector_stocks`: only the periods with
      both returns present, each the difference. */
  function StockRelative(periodReturns: ReturnMap, benchmark: ReturnMap): (r: ReturnMap)
    ensures forall p :: p in r <==> Lookup(periodReturns, p).Some? && Lookup(benchmark, p).Some?
    ensures forall p :: p in r ==> r[p].Some? && Lookup(benchmark, p).value + r[p].value == Lookup(periodReturns, p).value
  {
    map p | p in periodReturns && Lookup(periodReturns, p).Some? && Lookup(benchmark, p).Some? ::
      Some(Lookup(periodReturns, p).value - Lookup(benchmark, p).value)
  }

  /** The stock relative strength is the present part of the sector one. */
  lemma StockRelativeIsPresentPart(periodReturns: ReturnMap, benchmark: ReturnMap)
    ensures forall p :: p in StockRelative(periodReturns, benchmark) <==>
      p in RelativeStrength(periodReturns, benchmark) && RelativeStrength(periodReturns, benchmark)[p].Some?
    ensures forall p :: p in StockRelative(periodReturns, benchmark) ==>
      StockRelative(periodReturns, benchmark)[p] == RelativeStrength(periodReturns, benchmark)[p]
  {
  }

  // ---------------------------------------------------------------------------
  // Status against the ±1 % band
  // ---------------------------------------------------------------------------

  datatype Status = Outperforming | Neutral | Underperforming

  function StatusName(s: Status): string
  {
    match s
    case Outperforming => "outperforming"
    case Neutral => "neutral"
    case Underperforming => "underperforming"
  }

  /** More than 1 % ahead of the benchmark is outperforming, more than 1 % behind is
      underperforming, anything in between (the edges included) is neutral. */
  function StatusOf(v: real): (s: Status)
    ensures s == Outperforming <==> 1.0 < v
    ensures s == Underperforming <==> v < -1.0
    ensures s == Neutral <==> -1.0 <= v <= 1.0
  {
    if v > 1.0 then Outperforming
    else if v < -1.0 then Underperforming
    else Neutral
  }

  /** The entries a classifier puts in class `c`, in their original order. */
  function WithStatus<T>(xs: seq<T>, cls: T -> Option<Status>, c: Status): seq<T>
  {
    if |xs| == 0 then []
    else if cls(xs[0]) == Some(c) then [xs[0]] + WithStatus(xs[1..], cls, c)
    else WithStatus(xs[1..], cls, c)
  }

  /** The entries a classifier gives any class, in their original order. */
  function Classified<T>(xs: seq<T>, cls: T -> Option<Status>): seq<T>
  {
    if |xs| == 0 then []
    else if cls(xs[0]).Some? then [xs[0]] + Classified(xs[1..], cls)
    else Classified(xs[1..], cls)
  }

  /** Class `c` holds exactly the entries the classifier puts in `c`. */
  lemma {:induction false} WithStatusMember<T>(xs: seq<T>, cls: T -> Option<Status>, c: Status)
    ensures forall i :: 0 <= i < |WithStatus(xs, cls, c)| ==>
      WithStatus(xs, cls, c)[i] in xs && cls(WithStatus(xs, cls, c)[i]) == Some(c)
    ensures forall i :: 0 <= i < |xs| && cls(xs[i]) == Some(c) ==> xs[i] in WithStatus(xs, cls, c)
  {
    if |xs| > 0 {
      WithStatusMember(xs[1..], cls, c);
      assert forall i :: 1 <= i < |xs| ==> xs[i] == xs[1..][i - 1];
    }
  }

  /** A classified entry is kept by `Classified`. */
  lemma {:induction false} ClassifiedMember<T>(xs: seq<T>, cls: T -> Option<Status>, i: nat)
    requires i < |xs| && cls(xs[i]).Some?
    ensures xs[i] in Classified(xs, cls)
  {
    if i > 0 {
      ClassifiedMember(xs[1..], cls, i - 1);
    }
  }

  /** Putting the first entry in front of the rest adds it to its class only. */
  lemma WithStatusCons<T>(xs: seq<T>, cls: T -> Option<Status>, c: Status)
    requires 0 < |xs|
    ensures multiset(WithStatus(xs, cls, c)) ==
      (if cls(xs[0]) == Some(c) then multiset{xs[0]} else multiset{}) + multiset(WithStatus(xs[1..], cls, c))
  {
  }

  lemma ClassifiedCons<T>(xs: seq<T>, cls: T -> Option<Status>)
    requires 0 < |xs|
    ensures multiset(Classified(xs, cls)) ==
      (if cls(xs[0]).Some? then multiset{xs[0]} else multiset{}) + multiset(Classified(xs[1..], cls))
  {
  }

  /** The three classes split the classified entries: every one of them lands in
      exactly one class, as often as it occurs. */
  lemma {:induction false} StatusPartition<T>(xs: seq<T>, cls: T -> Option<Status>)
    ensures multiset(WithStatus(xs, cls, Outperforming)) + multiset(WithStatus(xs, cls, Neutral))
      + multiset(WithStatus(xs, cls, Underperforming)) == multiset(Classified(xs, cls))
  {
    if |xs| > 0 {
      StatusPartition(xs[1..], cls);
      WithStatusCons(xs, cls, Outperforming);
      WithStatusCons(xs, cls, Neutral);
      WithStatusCons(xs, cls, Underperforming);
      ClassifiedCons(xs, cls);
      var one := multiset{xs[0]};
      match cls(xs[0])
      case None =>
      case Some(Outperforming) =>
        assert multiset(WithStatus(xs, cls, Outperforming)) == one + multiset(WithStatus(xs[1..], cls, Outperforming));
      case Some(Neutral) =>
        assert multiset(WithStatus(xs, cls, Neutral)) == one + multiset(WithStatus(xs[1..], cls, Neutral));
      case Some(Underperforming) =>
        assert multiset(WithStatus(xs, cls, Underperforming)) == one + multiset(WithStatus(xs[1..], cls, Underperforming));
    }
  }

  /** A classifier that classifies everything keeps every entry. */
  lemma {:induction false} ClassifiedTotal<T>(xs: seq<T>, cls: T -> Option<Status>)
    requires forall i :: 0 <= i < |xs| ==> cls(xs[i]).Some?
    ensures Classified(xs, cls) == xs
  {
    if |xs| > 0 {
      ClassifiedTotal(xs[1..], cls);
      assert xs == [xs[0]] + xs[1..];
    }
  }

  /** Three lists, one per status. */
  datatype Split<T> = Split(out: seq<T>, neutral: seq<T>, under: seq<T>)

  /** Every element of `ys` is an element of `xs` in class `c`. */
  ghost predicate AllIn<T>(ys: seq<T>, xs: seq<T>, cls: T -> Option<Status>, c: Status)
  {
    forall i :: 0 <= i < |ys| ==> ys[i] in xs && cls(ys[i]) == Some(c)
  }

  /** A permutation of a class keeps only members of that class. */
  lemma PermutedClass<T>(ys: seq<T>, xs: seq<T>, cls: T -> Option<Status>, c: Status)
    requires multiset(ys) == multiset(WithStatus(xs, cls, c))
    ensures AllIn(ys, xs, cls, c)
  {
    WithStatusMember(xs, cls, c);
    forall i | 0 <= i < |ys|
      ensures ys[i] in xs && cls(ys[i]) == Some(c)
    {
      assert ys[i] in multiset(WithStatus(xs, cls, c));
    }
  }

  /** The entries split by class: outperformers sorted strongest first,
      underperformers weakest first, neutral ones in their original order. */
  function SplitByStatus<T>(xs: seq<T>, cls: T -> Option<Status>, key: T -> real): (c: Split<T>)
    ensures AllIn(c.out, xs, cls, Outperforming)
    ensures AllIn(c.neutral, xs, cls, Neutral)
    ensures AllIn(c.under, xs, cls, Underperforming)
    ensures multiset(c.out) + multiset(c.neutral) + multiset(c.under) == multiset(Classified(xs, cls))
    ensures SortedDesc(c.out, key)
    ensures SortedAsc(c.under, key)
    ensures c.neutral == WithStatus(xs, cls, Neutral)
    ensures forall v :: Ties(c.out, key, v) == Ties(WithStatus(xs, cls, Outperforming), key, v)
    ensures forall v :: Ties(c.under, key, v) == Ties(WithStatus(xs, cls, Underperforming), key, v)
  {
    StatusPartition(xs, cls);
    var out := SortDesc(WithStatus(xs, cls, Outperforming), key);
    var neutral := WithStatus(xs, cls, Neutral);
    var under := SortAsc(WithStatus(xs, cls, Underperforming), key);
    PermutedClass(out, xs, cls, Outperforming);
    PermutedClass(neutral, xs, cls, Neutral);
    PermutedClass(under, xs, cls, Underperforming);
    Split(out, neutral, under)
  }

  /** An entry the classifier puts in a class lands in that class's list of the split. */
  lemma SplitFinds<T>(xs: seq<T>, cls: T -> Option<Status>, key: T -> real, i: nat)
    requires i < |xs| && cls(xs[i]).Some?
    ensures var c := SplitByStatus(xs, cls, key);
      && (cls(xs[i]) == Some(Outperforming) ==> xs[i] in c.out)
      && (cls(xs[i]) == Some(Neutral) ==> xs[i] in c.neutral)
      && (cls(xs[i]) == Some(Underperforming) ==> xs[i] in c.under)
  {
    var c := SplitByStatus(xs, cls, key);
    ClassifiedMember(xs, cls, i);
    assert xs[i] in multiset(c.out) + multiset(c.neutral) + multiset(c.under);
  }

  // ---------------------------------------------------------------------------
  // Sectors
  // ---------------------------------------------------------------------------

  /** One entry of `analyze_all_sectors`' results. */
  datatype SectorResult = SectorResult(name: string, isBenchmark: bool, periodReturns: ReturnMap, relative: ReturnMap)

  /** `relative.get(timeframe)` for a timeframe given by its dict key. */
  function RelAt(relative: ReturnMap, timeframe: string): (v: Option<real>)
    ensures v.Some? ==> PeriodNamed(timeframe).Some? && Lookup(relative, PeriodNamed(timeframe).value) == v
  {
    match PeriodNamed(timeframe)
    case None => None
    case Some(p) => Lookup(relative, p)
  }

  /** The class `categorize_sectors` gives a result: none for the benchmark or a
      missing relative strength, otherwise its status. */
  function SectorClass(timeframe: string, s: SectorResult): Option<Status>
  {
    if s.isBenchmark then None
    else
      match RelAt(s.relative, timeframe)
      case None => None
      case Some(v) => Some(StatusOf(v))
  }

  /** `relative.get(timeframe, 0)`, the sort key of `categorize_sectors`. */
  function RelOrZero(timeframe: string, s: SectorResult): real
  {
    RelAt(s.relative, timeframe).GetOr(0.0)
  }

  function SectorClassifier(timeframe: string): SectorResult -> Option<Status>
  {
    (s: SectorResult) => SectorClass(timeframe, s)
  }

  function RelOrZeroKey(timeframe: string): SectorResult -> real
  {
    (s: SectorResult) => RelOrZero(timeframe, s)
  }

  /** `categorize_sectors`: the non-benchmark results with a relative strength for the
      timeframe, split at ±1 %, outperformers strongest first, underperformers weakest
      first, neutral ones in their original order; ties keep their original order. */
  function CategorizeSectors(results: seq<SectorResult>, timeframe: string): (c: Split<SectorResult>)
    ensures forall i :: 0 <= i < |c.out| ==> c.out[i] in results && SectorClass(timeframe, c.out[i]) == Some(Outperforming)
    ensures forall i :: 0 <= i < |c.neutral| ==> c.neutral[i] in results && SectorClass(timeframe, c.neutral[i]) == Some(Neutral)
    ensures forall i :: 0 <= i < |c.under| ==> c.under[i] in results && SectorClass(timeframe, c.under[i]) == Some(Underperforming)
    ensures multiset(c.out) + multiset(c.neutral) + multiset(c.under)
      == multiset(Classified(results, SectorClassifier(timeframe)))
    ensures SortedDesc(c.out, RelOrZeroKey(timeframe))
    ensures SortedAsc(c.under, RelOrZeroKey(timeframe))
    ensures c.neutral == WithStatus(results, SectorClassifier(timeframe), Neutral)
    ensures forall v ::
      Ties(c.out, RelOrZeroKey(timeframe), v)
        == Ties(WithStatus(results, SectorClassifier(timeframe), Outperforming), RelOrZeroKey(timeframe), v)
    ensures forall v ::
      Ties(c.under, RelOrZeroKey(timeframe), v)
        == Ties(WithStatus(results, SectorClassifier(timeframe), Underperforming), RelOrZeroKey(timeframe), v)
  {
    SplitByStatus(results, SectorClassifier(timeframe), RelOrZeroKey(timeframe))
  }

  /** The class a sector gets decides the one list it lands in. */
  lemma CategoryOfSector(results: seq<SectorResult>, timeframe: string, s: SectorResult)
    requires s in results
    ensures var c := CategorizeSectors(results, timeframe);
      && (s in c.out <==> !s.isBenchmark && RelAt(s.relative, timeframe).Some? && 1.0 < RelAt(s.relative, timeframe).value)
      && (s in c.under <==> !s.isBenchmark && RelAt(s.relative, timeframe).Some? && RelAt(s.relative, timeframe).value < -1.0)
      && (s in c.neutral <==>
            !s.isBenchmark && RelAt(s.relative, timeframe).Some? && -1.0 <= RelAt(s.relative, timeframe).value <= 1.0)
  {
    var cls := SectorClassifier(timeframe);
    var i :| 0 <= i < |results| && results[i] == s;
    assert cls(s) == SectorClass(timeframe, s);
    if cls(s).Some? {
      SplitFinds(results, cls, RelOrZeroKey(timeframe), i);
    }
  }

  // ---------------------------------------------------------------------------
  // Rankings
  // ---------------------------------------------------------------------------

  datatype Ranked<T> = Ranked(item: T, rank: nat)

  function Items<T>(r: seq<Ranked<T>>): (xs: seq<T>)
    ensures |xs| == |r|
    ensures forall i :: 0 <= i < |r| ==> xs[i] == r[i].item
  {
    seq(|r|, i requires 0 <= i < |r| => r[i].item)
  }

  /** `v or -999`: a missing value, and also a value of exactly zero, sort as -999. */
  function RankKey(v: Option<real>): (k: real)
    ensures k == -999.0 <==> v.None? || v.value == 0.0 || v.value == -999.0
    ensures v.Some? && v.value != 0.0 ==> k == v.value
  {
    if v.None? || v.value == 0.0 then -999.0 else v.value
  }

  /** A relative strength of exactly zero ranks below every other value above -999,
      negative ones included. */
  lemma ZeroRanksBelowNegatives(v: real)
    requires -999.0 < v && v != 0.0
    ensures RankKey(Some(0.0)) < RankKey(Some(v))
  {
  }

  /** `for i, x in enumerate(sorted(xs, key, reverse=True), 1): x['rank'] = i`: the
      entries strongest first, numbered from 1. */
  function RankBy<T>(xs: seq<T>, key: T -> real): (r: seq<Ranked<T>>)
    ensures |r| == |xs|
    ensures forall i :: 0 <= i < |r| ==> r[i].rank == i + 1
    ensures multiset(Items(r)) == multiset(xs)
    ensures forall i, j :: 0 <= i < j < |r| ==> key(r[j].item) <= key(r[i].item)
    ensures forall c :: Ties(Items(r), key, c) == Ties(xs, key, c)
  {
    var sorted := SortDesc(xs, key);
    var r := seq(|sorted|, i requires 0 <= i < |sorted| => Ranked(sorted[i], i + 1));
    assert Items(r) == sorted;
    r
  }

  /** The results other than the benchmark, in order. */
  function NonBenchmark(results: seq<SectorResult>): (r: seq<SectorResult>)
    ensures forall i :: 0 <= i < |r| ==> !r[i].isBenchmark
  {
    Filter(results, (s: SectorResult) => !s.isBenchmark)
  }

  /** The sort key of `get_sector_ranking`. */
  function SectorRankKey(timeframe: string, s: SectorResult): real
  {
    RankKey(RelAt(s.relative, timeframe))
  }

  function SectorKey(timeframe: string): SectorResult -> real
  {
    (s: SectorResult) => SectorRankKey(timeframe, s)
  }

  /** `get_sector_ranking`: every result but the benchmark, strongest relative strength
      first, ranked 1 to n. */
  function GetSectorRanking(results: seq<SectorResult>, timeframe: string): (r: seq<Ranked<SectorResult>>)
    ensures |r| == |NonBenchmark(results)|
    ensures forall i :: 0 <= i < |r| ==> r[i].rank == i + 1 && !r[i].item.isBenchmark
    ensures multiset(Items(r)) == multiset(NonBenchmark(results))
    ensures forall i, j :: 0 <= i < j < |r| ==> SectorRankKey(timeframe, r[j].item) <= SectorRankKey(timeframe, r[i].item)
    ensures forall c :: Ties(Items(r), SectorKey(timeframe), c) == Ties(NonBenchmark(results), SectorKey(timeframe), c)
  {
    var r := RankBy(NonBenchmark(results), SectorKey(timeframe));
    RankedFrom(r, NonBenchmark(results));
    r
  }

  /** A ranking that rearranges `xs` ranks only elements of `xs`. */
  lemma RankedFrom<T>(r: seq<Ranked<T>>, xs: seq<T>)
    requires multiset(Items(r)) == multiset(xs)
    ensures forall i :: 0 <= i < |r| ==> r[i].item in xs
  {
    forall i | 0 <= i < |r|
      ensures r[i].item in xs
    {
      assert Items(r)[i] == r[i].item;
      assert r[i].item in multiset(Items(r));
    }
  }

  /** One stock of `analyze_sector_stocks`. */
  datatype StockData = StockData(symbol: string, periodReturns: ReturnMap, relative: ReturnMap)

  /** The sort key of `get_stock_ranking`. */
  function StockRankKey(timeframe: string, d: StockData): real
  {
    RankKey(RelAt(d.relative, timeframe))
  }

  function StockKey(timeframe: string): StockData -> real
  {
    (d: StockData) => StockRankKey(timeframe, d)
  }

  /** `get_stock_ranking`: every stock, strongest relative strength first, ranked 1 to n. */
  function GetStockRanking(stocks: seq<StockData>, timeframe: string): (r: seq<Ranked<StockData>>)
    ensures |r| == |stocks|
    ensures forall i :: 0 <= i < |r| ==> r[i].rank == i + 1
    ensures multiset(Items(r)) == multiset(stocks)
    ensures forall i, j :: 0 <= i < j < |r| ==> StockRankKey(timeframe, r[j].item) <= StockRankKey(timeframe, r[i].item)
    ensures forall c :: Ties(Items(r), StockKey(timeframe), c) == Ties(stocks, StockKey(timeframe), c)
  {
    RankBy(stocks, StockKey(timeframe))
  }

  // ---------------------------------------------------------------------------
  // The stocks of one sector
  // ---------------------------------------------------------------------------

  /** What fetching one stock gave: its returns (daily and intraday merged), or nothing
      when its data was empty or a step raised, in which case the stock is skipped. */
  datatype StockFetch = Fetched(symbol: string, periodReturns: ReturnMap) | Unavailable(symbol: string)

  predicate IsFetched(f: StockFetch)
  {
    f.Fetched?
  }

  /** The row a fetched stock contributes: its returns and their strength against the
      benchmark. */
  function RowOf(f: StockFetch, benchmark: ReturnMap): StockData
    requires f.Fetched?
  {
    StockData(f.symbol, f.periodReturns, StockRelative(f.periodReturns, benchmark))
  }

  /** The analysed stocks: one row per fetched stock, in input order, the unavailable
      ones skipped as the loop's `continue` skips them. */
  function StockRows(fetches: seq<StockFetch>, benchmark: ReturnMap): (r: seq<StockData>)
    ensures |r| <= |fetches|
    ensures |r| == |Positions(fetches, IsFetched)|
    ensures forall k :: 0 <= k < |r| ==>
      fetches[Positions(fetches, IsFetched)[k]].Fetched? && r[k] == RowOf(fetches[Positions(fetches, IsFetched)[k]], benchmark)
    ensures forall i :: 0 <= i < |r| ==> r[i].relative == StockRelative(r[i].periodReturns, benchmark)
    ensures forall i :: 0 <= i < |fetches| && fetches[i].Fetched? ==> RowOf(fetches[i], benchmark) in r
  {
    var kept := Filter(fetches, IsFetched);
    var r := seq(|kept|, k requires 0 <= k < |kept| => RowOf(kept[k], benchmark));
    forall i | 0 <= i < |fetches| && fetches[i].Fetched?
      ensures RowOf(fetches[i], benchmark) in r
    {
      assert IsFetched(fetches[i]);
      var k :| 0 <= k < |kept| && kept[k] == fetches[i];
      assert r[k] == RowOf(fetches[i], benchmark);
    }
    r
  }

  /** `relative.get('Weekly', 0) or 0`: the weekly relative strength, zero when missing. */
  function WeeklyOrZero(d: StockData): real
  {
    Lookup(d.relative, Weekly).GetOr(0.0)
  }

  /** The status of a stock, always from its weekly relative strength. */
  function WeeklyClass(d: StockData): Option<Status>
  {
    Some(StatusOf(WeeklyOrZero(d)))
  }

  datatype SectorStocks = SectorStocks(
    benchmark: Option<ReturnMap>,
    stocks: seq<StockData>,
    out: seq<StockData>,
    neutral: seq<StockData>,
    under: seq<StockData>)

  /** The categorisation and sorting of `StockRelativeStrength.analyze_sector_stocks`,
      given the benchmark's returns and what fetching each stock gave: nothing at all
      without benchmark returns; otherwise every fetched stock, split at ±1 % on its
      weekly relative strength, with the stocks and outperformers strongest first and
      the underperformers weakest first. */
  function AnalyzeSectorStocks(fetches: seq<StockFetch>, benchmark: ReturnMap): (r: SectorStocks)
    ensures |benchmark| == 0 ==> r == SectorStocks(None, [], [], [], [])
    ensures |benchmark| != 0 ==> r.benchmark == Some(benchmark)
    ensures |benchmark| != 0 ==> multiset(r.stocks) == multiset(StockRows(fetches, benchmark))
    ensures multiset(r.out) + multiset(r.neutral) + multiset(r.under) == multiset(r.stocks)
    ensures forall i :: 0 <= i < |r.out| ==> 1.0 < WeeklyOrZero(r.out[i])
    ensures forall i :: 0 <= i < |r.neutral| ==> -1.0 <= WeeklyOrZero(r.neutral[i]) <= 1.0
    ensures forall i :: 0 <= i < |r.under| ==> WeeklyOrZero(r.under[i]) < -1.0
    ensures SortedDesc(r.stocks, WeeklyOrZero)
    ensures SortedDesc(r.out, WeeklyOrZero)
    ensures SortedAsc(r.under, WeeklyOrZero)
    ensures |benchmark| != 0 ==> r.neutral == WithStatus(StockRows(fetches, benchmark), WeeklyClass, Neutral)
    ensures |benchmark| != 0 ==>
      forall c :: Ties(r.stocks, WeeklyOrZero, c) == Ties(StockRows(fetches, benchmark), WeeklyOrZero, c)
    ensures |benchmark| != 0 ==>
      forall c :: Ties(r.out, WeeklyOrZero, c) == Ties(WithStatus(StockRows(fetches, benchmark), WeeklyClass, Outperforming), WeeklyOrZero, c)
    ensures |benchmark| != 0 ==>
      forall c :: Ties(r.under, WeeklyOrZero, c) == Ties(WithStatus(StockRows(fetches, benchmark), WeeklyClass, Underperforming), WeeklyOrZero, c)
  {
    if |benchmark| == 0 then SectorStocks(None, [], [], [], [])
    else
      var rows := StockRows(fetches, benchmark);
      ClassifiedTotal(rows, WeeklyClass);
      var c := SplitByStatus(rows, WeeklyClass, WeeklyOrZero);
      SectorStocks(Some(benchmark), SortDesc(rows, WeeklyOrZero), c.out, c.neutral, c.under)
  }

  /** A stock without a weekly relative strength counts as neutral. */
  lemma MissingWeeklyIsNeutral(d: StockData)
    requires Weekly !in d.relative
    ensures WeeklyClass(d) == Some(Neutral)
  {
  }
}
