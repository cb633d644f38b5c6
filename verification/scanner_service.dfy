/** The scanner service's post-processing of sector and stock results
    (backend/services/scanner.py: `convert_returns`, `get_status` and the partition,
    sort and rank steps of `ScannerService.analyze_sectors` and
    `ScannerService.analyze_sector_stocks`).

    In the service the rows placed in the outperforming / neutral / underperforming
    lists are the very dicts held in the sectors list, so the ranks written into the
    sectors list after sorting show up in the three lists as well. Rows here carry
    their position in the input (`pos`), and each list entry is given the rank of the
    sectors row at the same position. */
module ScannerService {
  import opened Wrappers
  import opened Seqs
  import opened Returns
  import opened Relative

  // ---------------------------------------------------------------------------
  // API keys
  // ---------------------------------------------------------------------------

  /** The key `convert_returns` gives each period. */
  function ApiKey(p: Period): string
  {
    match p
    case OneHour => "one_hour"
    case FourHour => "four_hour"
    case Daily => "daily"
    case Weekly => "weekly"
    case Monthly => "monthly"
    case ThreeMonth => "three_month"
  }

  /** The period an API key names, if any. */
  function ApiPeriod(key: string): (p: Option<Period>)
    ensures p.Some? ==> ApiKey(p.value) == key
  {
    if key == "one_hour" then Some(OneHour)
    else if key == "four_hour" then Some(FourHour)
    else if key == "daily" then Some(Daily)
    else if key == "weekly" then Some(Weekly)
    else if key == "monthly" then Some(Monthly)
    else if key == "three_month" then Some(ThreeMonth)
    else None
  }

  lemma ApiKeyRoundTrip(p: Period)
    ensures ApiPeriod(ApiKey(p)) == Some(p)
  {
  }

  /** An API returns dict. */
  type ApiReturns = map<string, Option<real>>

  /** `convert_returns`: exactly the six API keys, each holding the value of its period
      or `None` when the period is missing. */
  function ConvertReturns(m: ReturnMap): (r: ApiReturns)
    ensures forall k :: k in r <==> ApiPeriod(k).Some?
    ensures forall p :: ApiKey(p) in r && r[ApiKey(p)] == Lookup(m, p)
  {
    map[
      ApiKey(OneHour) := Lookup(m, OneHour),
      ApiKey(FourHour) := Lookup(m, FourHour),
      ApiKey(Daily) := Lookup(m, Daily),
      ApiKey(Weekly) := Lookup(m, Weekly),
      ApiKey(Monthly) := Lookup(m, Monthly),
      ApiKey(ThreeMonth) := Lookup(m, ThreeMonth)]
  }

  /** Converting forgets only the difference between an absent period and one present
      with `None`: two dicts convert alike exactly when they agree on every lookup. */
  lemma ConvertKeepsLookups(a: ReturnMap, b: ReturnMap)
    ensures ConvertReturns(a) == ConvertReturns(b) <==> forall p :: Lookup(a, p) == Lookup(b, p)
  {
    if forall p :: Lookup(a, p) == Lookup(b, p) {
      var ca, cb := ConvertReturns(a), ConvertReturns(b);
      forall k | k in ca
        ensures ca[k] == cb[k]
      {
        ApiKeyRoundTrip(ApiPeriod(k).value);
      }
    } else {
      var p :| Lookup(a, p) != Lookup(b, p);
      assert ConvertReturns(a)[ApiKey(p)] != ConvertReturns(b)[ApiKey(p)];
    }
  }

  // ---------------------------------------------------------------------------
  // Timeframes and status
  // ---------------------------------------------------------------------------

  /** The service's timeframe table, on a lower-cased name. The stock view's sort-key
      table has no "3m" entry. */
  function TimeframeTable(name: string, withQuarter: bool): (r: Option<Period>)
    ensures r.Some? ==> Names(name, r.value, withQuarter)
    ensures forall p :: Names(name, p, withQuarter) ==> r == Some(p)
  {
    if name == "1h" then Some(OneHour)
    else if name == "4h" then Some(FourHour)
    else if name == "daily" then Some(Daily)
    else if name == "weekly" then Some(Weekly)
    else if name == "monthly" then Some(Monthly)
    else if withQuarter && name == "3m" then Some(ThreeMonth)
    else None
  }

  /** The timeframe name the API accepts for each period. */
  function TimeframeName(p: Period): string
  {
    match p
    case OneHour => "1h"
    case FourHour => "4h"
    case Daily => "daily"
    case Weekly => "weekly"
    case Monthly => "monthly"
    case ThreeMonth => "3m"
  }

  /** `name` selects `p` in the table, with or without its "3m" entry. */
  predicate Names(name: string, p: Period, withQuarter: bool)
  {
    name == TimeframeName(p) && (withQuarter || p != ThreeMonth)
  }

  /** `table.get(timeframe.lower(), weekly)`: the period the lower-cased name selects,
      and Weekly when it selects none. */
  function SelectedPeriod(timeframe: string, withQuarter: bool): (r: Period)
    ensures forall p :: Names(Lower(timeframe), p, withQuarter) ==> r == p
    ensures (forall p :: !Names(Lower(timeframe), p, withQuarter)) ==> r == Weekly
  {
    TimeframeTable(Lower(timeframe), withQuarter).GetOr(Weekly)
  }

  /** The choice of period ignores letter case. */
  lemma SelectedPeriodIgnoresCase(a: string, b: string, withQuarter: bool)
    requires Lower(a) == Lower(b)
    ensures SelectedPeriod(a, withQuarter) == SelectedPeriod(b, withQuarter)
  {
  }

  /** An unknown timeframe falls back to Weekly, and so does "3m" in the table
      without it. */
  lemma TimeframeFallbacks()
    ensures SelectedPeriod("yearly", true) == Weekly
    ensures SelectedPeriod("3m", true) == ThreeMonth
    ensures SelectedPeriod("3m", false) == Weekly
    ensures SelectedPeriod("DAILY", false) == Daily
  {
    assert Lower("yearly") == "yearly";
    assert Lower("3m") == "3m";
    assert Lower("DAILY") == "daily";
  }

  /** `get_status`: the relative strength of the selected period, a missing one (or
      one present as `None`) counting as zero, against the ±1 % band. */
  function GetStatus(relative: ReturnMap, timeframe: string): (s: Status)
    ensures var v := Lookup(relative, SelectedPeriod(timeframe, true));
      && (s == Outperforming <==> v.Some? && 1.0 < v.value)
      && (s == Underperforming <==> v.Some? && v.value < -1.0)
      && (s == Neutral <==> v.None? || -1.0 <= v.value <= 1.0)
  {
    StatusOf(Lookup(relative, SelectedPeriod(timeframe, true)).GetOr(0.0))
  }

  // ---------------------------------------------------------------------------
  // Rows and the ranked board
  // ---------------------------------------------------------------------------

  /** One output row, with its position in the input. */
  datatype Row = Row(
    pos: nat,
    name: string,
    isBenchmark: bool,
    periodReturns: ApiReturns,
    relativeStrength: ApiReturns,
    status: Status,
    rank: Option<nat>)

  /** `x['relative_strength'].get(tf_key) or -999`. */
  /** A row's sort key for period `p`: its relative strength for `p`, with a missing
      entry, a missing value and a value of zero all sorting as -999. */
  function SortKey(p: Period, x: Row): (k: real)
    ensures k == -999.0 <==>
      || ApiKey(p) !in x.relativeStrength
      || x.relativeStrength[ApiKey(p)].None?
      || x.relativeStrength[ApiKey(p)].value in {0.0, -999.0}
    ensures ApiKey(p) in x.relativeStrength && x.relativeStrength[ApiKey(p)].Some? && x.relativeStrength[ApiKey(p)].value != 0.0 ==>
      k == x.relativeStrength[ApiKey(p)].value
  {
    RankKey(if ApiKey(p) in x.relativeStrength then x.relativeStrength[ApiKey(p)] else None)
  }

  function RowKey(p: Period): Row -> real
  {
    (x: Row) => SortKey(p, x)
  }

  ghost predicate Increasing(rows: seq<Row>)
  {
    forall i, j :: 0 <= i < j < |rows| ==> rows[i].pos < rows[j].pos
  }

  ghost predicate DistinctPos(rows: seq<Row>)
  {
    forall i, j :: 0 <= i < |rows| && 0 <= j < |rows| && i != j ==> rows[i].pos != rows[j].pos
  }

  ghost predicate Unranked(rows: seq<Row>)
  {
    forall i :: 0 <= i < |rows| ==> rows[i].rank.None?
  }

  /** Filtering keeps positions increasing. */
  lemma FilterIncreasing(xs: seq<Row>, p: Row -> bool)
    requires Increasing(xs)
    ensures Increasing(Filter(xs, p))
  {
    var r := Filter(xs, p);
    var ps := Positions(xs, p);
    forall i, j | 0 <= i < j < |r|
      ensures r[i].pos < r[j].pos
    {
      assert r[i] == xs[ps[i]] && r[j] == xs[ps[j]];
    }
  }

  /** An element occurring at two indices occurs at least twice. */
  lemma TwiceCounted(xs: seq<Row>, i: nat, j: nat)
    requires i < j < |xs| && xs[i] == xs[j]
    ensures multiset(xs)[xs[i]] >= 2
  {
    assert xs == xs[..j] + xs[j..];
    assert xs[i] in xs[..j];
    assert xs[j] == xs[j..][0];
  }

  /** Rows with distinct positions occur at most once each. */
  lemma {:induction false} DistinctCountsOnce(xs: seq<Row>, x: Row)
    requires DistinctPos(xs)
    ensures multiset(xs)[x] <= 1
  {
    if |xs| > 0 {
      assert DistinctPos(xs[1..]) by {
        forall i, j | 0 <= i < |xs[1..]| && 0 <= j < |xs[1..]| && i != j
          ensures xs[1..][i].pos != xs[1..][j].pos
        {
          assert xs[1..][i] == xs[i + 1] && xs[1..][j] == xs[j + 1];
        }
      }
      DistinctCountsOnce(xs[1..], x);
      assert xs == [xs[0]] + xs[1..];
      if xs[0] == x {
        assert x !in xs[1..] by {
          forall k | 0 <= k < |xs[1..]|
            ensures xs[1..][k] != x
          {
            assert xs[1..][k] == xs[k + 1];
          }
        }
      }
    }
  }

  /** A rearrangement of rows with distinct positions has distinct positions. */
  lemma PermutationKeepsDistinct(a: seq<Row>, b: seq<Row>)
    requires multiset(a) == multiset(b)
    requires DistinctPos(a)
    ensures DistinctPos(b)
  {
    forall i, j | 0 <= i < |b| && 0 <= j < |b| && i != j
      ensures b[i].pos != b[j].pos
    {
      if b[i] == b[j] {
        if i < j { TwiceCounted(b, i, j); } else { TwiceCounted(b, j, i); }
        DistinctCountsOnce(a, b[i]);
      } else {
        assert b[i] in multiset(a) && b[j] in multiset(a);
        var p :| 0 <= p < |a| && a[p] == b[i];
        var q :| 0 <= q < |a| && a[q] == b[j];
      }
    }
  }

  /** One plus the index of the row at position `pos`, if any. */
  function RankOf(sorted: seq<Row>, pos: nat): (r: Option<nat>)
    ensures r.Some? ==> 1 <= r.value <= |sorted| && sorted[r.value - 1].pos == pos
    ensures r.None? ==> forall j :: 0 <= j < |sorted| ==> sorted[j].pos != pos
  {
    if |sorted| == 0 then None
    else if sorted[0].pos == pos then Some(1)
    else
      match RankOf(sorted[1..], pos)
      case None => None
      case Some(k) => Some(k + 1)
  }

  /** With distinct positions the rank of a row is one plus its index. */
  lemma RankOfIndex(sorted: seq<Row>, j: nat)
    requires DistinctPos(sorted) && j < |sorted|
    ensures RankOf(sorted, sorted[j].pos) == Some(j + 1)
  {
  }

  /** The rows of `xs` with the ranks the sorted list gives their positions. */
  function WithRanks(sorted: seq<Row>, xs: seq<Row>): (r: seq<Row>)
    ensures |r| == |xs|
    ensures forall i :: 0 <= i < |xs| ==> r[i] == xs[i].(rank := RankOf(sorted, xs[i].pos))
  {
    seq(|xs|, i requires 0 <= i < |xs| => xs[i].(rank := RankOf(sorted, xs[i].pos)))
  }

  /** The sorted, ranked rows and the three status lists, sharing their rows. */
  datatype Board = Board(sectors: seq<Row>, out: seq<Row>, neutral: seq<Row>, under: seq<Row>)

  function StatusClass(x: Row): Option<Status>
  {
    Some(x.status)
  }

  /** The rows sorted strongest first on `p`. */
  function SortRows(rows: seq<Row>, p: Period): (sorted: seq<Row>)
    requires DistinctPos(rows) && Unranked(rows)
    ensures multiset(sorted) == multiset(rows)
    ensures DistinctPos(sorted) && Unranked(sorted)
    ensures SortedDesc(sorted, RowKey(p))
    ensures forall c :: Ties(sorted, RowKey(p), c) == Ties(rows, RowKey(p), c)
  {
    var s := SortDesc(rows, RowKey(p));
    PermutationKeepsDistinct(rows, s);
    forall j | 0 <= j < |s|
      ensures s[j].rank.None?
    {
      assert s[j] in multiset(rows);
    }
    s
  }

  /** The sorted rows numbered from 1. */
  function Numbered(sorted: seq<Row>): (ranked: seq<Row>)
    requires DistinctPos(sorted)
    ensures |ranked| == |sorted|
    ensures forall j :: 0 <= j < |sorted| ==> ranked[j] == sorted[j].(rank := Some(j + 1))
  {
    forall j | 0 <= j < |sorted|
      ensures RankOf(sorted, sorted[j].pos) == Some(j + 1)
    {
      RankOfIndex(sorted, j);
    }
    WithRanks(sorted, sorted)
  }

  /** A status list whose rows take the rank of the same row in the numbered list. */
  function RankList(sorted: seq<Row>, ranked: seq<Row>, ys: seq<Row>, c: Status): (zs: seq<Row>)
    requires DistinctPos(sorted)
    requires |ranked| == |sorted| && forall j :: 0 <= j < |sorted| ==> ranked[j] == sorted[j].(rank := Some(j + 1))
    requires forall i :: 0 <= i < |ys| ==> ys[i] in sorted && ys[i].status == c
    requires forall j :: 0 <= j < |sorted| && sorted[j].status == c ==> sorted[j] in ys
    ensures |zs| == |ys|
    ensures forall k :: 0 <= k < |zs| ==> zs[k] in ranked && zs[k].status == c
    ensures forall k :: 0 <= k < |zs| ==> zs[k].relativeStrength == ys[k].relativeStrength
    ensures Stripped(zs) == Stripped(ys)
    ensures forall j :: 0 <= j < |ranked| && ranked[j].status == c ==> ranked[j] in zs
  {
    var zs := WithRanks(sorted, ys);
    forall k | 0 <= k < |zs|
      ensures zs[k] in ranked
    {
      var j :| 0 <= j < |sorted| && sorted[j] == ys[k];
      RankOfIndex(sorted, j);
      assert zs[k] == ranked[j];
    }
    forall j | 0 <= j < |sorted| && sorted[j].status == c
      ensures ranked[j] in zs
    {
      var k :| 0 <= k < |ys| && ys[k] == sorted[j];
      RankOfIndex(sorted, j);
      assert zs[k] == ranked[j];
    }
    zs
  }

  /** Each row lands in the list of its own status. */
  lemma ListedByStatus(rows: seq<Row>, s: Split<Row>, x: Row)
    requires AllIn(s.out, rows, StatusClass, Outperforming)
    requires AllIn(s.neutral, rows, StatusClass, Neutral)
    requires AllIn(s.under, rows, StatusClass, Underperforming)
    requires multiset(s.out) + multiset(s.neutral) + multiset(s.under) == multiset(rows)
    requires x in rows
    ensures x.status == Outperforming ==> x in s.out
    ensures x.status == Neutral ==> x in s.neutral
    ensures x.status == Underperforming ==> x in s.under
  {
    assert x in multiset(rows);
    if x in s.out {
      var k :| 0 <= k < |s.out| && s.out[k] == x;
    } else if x in s.neutral {
      var k :| 0 <= k < |s.neutral| && s.neutral[k] == x;
    } else {
      assert x in multiset(s.under);
      var k :| 0 <= k < |s.under| && s.under[k] == x;
    }
  }

  /** What the split of `rows` says about the rows of a rearrangement of them. */
  lemma SplitCovers(rows: seq<Row>, sorted: seq<Row>, s: Split<Row>)
    requires multiset(sorted) == multiset(rows)
    requires AllIn(s.out, rows, StatusClass, Outperforming)
    requires AllIn(s.neutral, rows, StatusClass, Neutral)
    requires AllIn(s.under, rows, StatusClass, Underperforming)
    requires multiset(s.out) + multiset(s.neutral) + multiset(s.under) == multiset(rows)
    ensures forall i :: 0 <= i < |s.out| ==> s.out[i] in sorted && s.out[i].status == Outperforming
    ensures forall i :: 0 <= i < |s.neutral| ==> s.neutral[i] in sorted && s.neutral[i].status == Neutral
    ensures forall i :: 0 <= i < |s.under| ==> s.under[i] in sorted && s.under[i].status == Underperforming
    ensures forall j :: 0 <= j < |sorted| && sorted[j].status == Outperforming ==> sorted[j] in s.out
    ensures forall j :: 0 <= j < |sorted| && sorted[j].status == Neutral ==> sorted[j] in s.neutral
    ensures forall j :: 0 <= j < |sorted| && sorted[j].status == Underperforming ==> sorted[j] in s.under
    ensures |s.out| + |s.neutral| + |s.under| == |sorted|
  {
    forall y | y in rows
      ensures y in sorted
    {
      assert y in multiset(sorted);
    }
    forall j | 0 <= j < |sorted|
      ensures sorted[j].status == Outperforming ==> sorted[j] in s.out
      ensures sorted[j].status == Neutral ==> sorted[j] in s.neutral
      ensures sorted[j].status == Underperforming ==> sorted[j] in s.under
    {
      assert sorted[j] in multiset(rows);
      ListedByStatus(rows, s, sorted[j]);
    }
    assert |multiset(s.out) + multiset(s.neutral) + multiset(s.under)| == |multiset(sorted)|;
  }

  /** Equal keys row by row keep an order. */
  lemma SameKeysSorted(xs: seq<Row>, ys: seq<Row>, p: Period)
    requires |xs| == |ys|
    requires forall k :: 0 <= k < |xs| ==> xs[k].relativeStrength == ys[k].relativeStrength
    ensures SortedDesc(ys, RowKey(p)) ==> SortedDesc(xs, RowKey(p))
    ensures SortedAsc(ys, RowKey(p)) ==> SortedAsc(xs, RowKey(p))
  {
    assert forall k :: 0 <= k < |xs| ==> SortKey(p, xs[k]) == SortKey(p, ys[k]);
  }

  /** The three status lists of the numbered rows: each list of `split` with the ranks
      of its rows filled in. */
  function StatusLists(rows: seq<Row>, p: Period, sorted: seq<Row>, ranked: seq<Row>, split: Split<Row>): (b: Board)
    requires DistinctPos(sorted) && multiset(sorted) == multiset(rows)
    requires |ranked| == |sorted| && forall j :: 0 <= j < |sorted| ==> ranked[j] == sorted[j].(rank := Some(j + 1))
    requires AllIn(split.out, rows, StatusClass, Outperforming)
    requires AllIn(split.neutral, rows, StatusClass, Neutral)
    requires AllIn(split.under, rows, StatusClass, Underperforming)
    requires multiset(split.out) + multiset(split.neutral) + multiset(split.under) == multiset(rows)
    requires SortedDesc(split.out, RowKey(p)) && SortedAsc(split.under, RowKey(p))
    ensures b.sectors == ranked
    ensures forall k :: 0 <= k < |b.out| ==> b.out[k] in ranked && b.out[k].status == Outperforming
    ensures forall k :: 0 <= k < |b.neutral| ==> b.neutral[k] in ranked && b.neutral[k].status == Neutral
    ensures forall k :: 0 <= k < |b.under| ==> b.under[k] in ranked && b.under[k].status == Underperforming
    ensures forall j :: 0 <= j < |ranked| && ranked[j].status == Outperforming ==> ranked[j] in b.out
    ensures forall j :: 0 <= j < |ranked| && ranked[j].status == Neutral ==> ranked[j] in b.neutral
    ensures forall j :: 0 <= j < |ranked| && ranked[j].status == Underperforming ==> ranked[j] in b.under
    ensures |b.out| + |b.neutral| + |b.under| == |ranked|
    ensures SortedDesc(b.out, RowKey(p))
    ensures SortedAsc(b.under, RowKey(p))
    ensures Stripped(b.out) == Stripped(split.out)
    ensures Stripped(b.neutral) == Stripped(split.neutral)
    ensures Stripped(b.under) == Stripped(split.under)
  {
    SplitCovers(rows, sorted, split);
    var out := RankList(sorted, ranked, split.out, Outperforming);
    var neutral := RankList(sorted, ranked, split.neutral, Neutral);
    var under := RankList(sorted, ranked, split.under, Underperforming);
    SameKeysSorted(out, split.out, p);
    SameKeysSorted(under, split.under, p);
    Board(ranked, out, neutral, under)
  }

  /** The rows with their ranks cleared. */
  function Stripped(xs: seq<Row>): (r: seq<Row>)
    ensures |r| == |xs|
    ensures forall i :: 0 <= i < |xs| ==> r[i] == xs[i].(rank := None)
  {
    seq(|xs|, i requires 0 <= i < |xs| => xs[i].(rank := None))
  }

  /** The numbered rows are a rearrangement of the input rows, in key order. */
  lemma NumberedRows(rows: seq<Row>, p: Period, sorted: seq<Row>, ranked: seq<Row>)
    requires multiset(sorted) == multiset(rows) && Unranked(sorted)
    requires SortedDesc(sorted, RowKey(p))
    requires |ranked| == |sorted| && forall j :: 0 <= j < |sorted| ==> ranked[j] == sorted[j].(rank := Some(j + 1))
    ensures |ranked| == |rows|
    ensures Stripped(ranked) == sorted
    ensures multiset(Stripped(ranked)) == multiset(rows)
    ensures SortedDesc(ranked, RowKey(p))
  {
    assert |multiset(rows)| == |multiset(sorted)|;
    assert Stripped(ranked) == sorted;
    SameKeysSorted(ranked, sorted, p);
  }

  /** A status list of unranked rows has no rank to clear. */
  lemma UnrankedStripped(ys: seq<Row>, rows: seq<Row>, cls: Row -> Option<Status>, c: Status)
    requires Unranked(rows) && AllIn(ys, rows, cls, c)
    ensures Stripped(ys) == ys
  {
    forall k | 0 <= k < |ys|
      ensures ys[k].rank.None?
    {
      var j :| 0 <= j < |rows| && rows[j] == ys[k];
    }
  }

  /** Sort the rows strongest first on `p`, number them from 1, and split them by
      status into outperformers (strongest first), neutral rows (in input order) and
      underperformers (weakest first), each list entry carrying the rank of its row. */
  function RankBoard(rows: seq<Row>, p: Period): (b: Board)
    requires DistinctPos(rows) && Unranked(rows)
    ensures |b.sectors| == |rows|
    ensures forall i :: 0 <= i < |b.sectors| ==> b.sectors[i].rank == Some(i + 1)
    ensures multiset(Stripped(b.sectors)) == multiset(rows)
    ensures SortedDesc(b.sectors, RowKey(p))
    ensures forall k :: 0 <= k < |b.out| ==> b.out[k] in b.sectors && b.out[k].status == Outperforming
    ensures forall k :: 0 <= k < |b.neutral| ==> b.neutral[k] in b.sectors && b.neutral[k].status == Neutral
    ensures forall k :: 0 <= k < |b.under| ==> b.under[k] in b.sectors && b.under[k].status == Underperforming
    ensures forall j :: 0 <= j < |b.sectors| && b.sectors[j].status == Outperforming ==> b.sectors[j] in b.out
    ensures forall j :: 0 <= j < |b.sectors| && b.sectors[j].status == Neutral ==> b.sectors[j] in b.neutral
    ensures forall j :: 0 <= j < |b.sectors| && b.sectors[j].status == Underperforming ==> b.sectors[j] in b.under
    ensures |b.out| + |b.neutral| + |b.under| == |b.sectors|
    ensures SortedDesc(b.out, RowKey(p))
    ensures SortedAsc(b.under, RowKey(p))
    ensures forall c :: Ties(Stripped(b.sectors), RowKey(p), c) == Ties(rows, RowKey(p), c)
    ensures Stripped(b.neutral) == WithStatus(rows, StatusClass, Neutral)
    ensures forall c :: Ties(Stripped(b.out), RowKey(p), c) == Ties(WithStatus(rows, StatusClass, Outperforming), RowKey(p), c)
    ensures forall c :: Ties(Stripped(b.under), RowKey(p), c) == Ties(WithStatus(rows, StatusClass, Underperforming), RowKey(p), c)
  {
    var sorted := SortRows(rows, p);
    var ranked := Numbered(sorted);
    NumberedRows(rows, p, sorted, ranked);
    ClassifiedTotal(rows, StatusClass);
    var split := SplitByStatus(rows, StatusClass, RowKey(p));
    UnrankedStripped(split.out, rows, StatusClass, Outperforming);
    UnrankedStripped(split.neutral, rows, StatusClass, Neutral);
    UnrankedStripped(split.under, rows, StatusClass, Underperforming);
    StatusLists(rows, p, sorted, ranked, split)
  }

  // ---------------------------------------------------------------------------
  // analyze_sectors and analyze_sector_stocks
  // ---------------------------------------------------------------------------

  /** The benchmark entry of a response. */
  datatype BenchmarkView = BenchmarkView(name: string, periodReturns: ApiReturns)

  /** The name the stock analysis gives its benchmark. */
  const BenchmarkName: string := "NIFTY 50"

  /** The row built for the sector result at position `i`. */
  function SectorRow(s: SectorResult, i: nat, timeframe: string): Row
  {
    Row(i, s.name, s.isBenchmark, ConvertReturns(s.periodReturns), ConvertReturns(s.relative),
        GetStatus(s.relative, timeframe), None)
  }

  function SectorRows(results: seq<SectorResult>, timeframe: string): (rows: seq<Row>)
    ensures |rows| == |results|
    ensures forall i :: 0 <= i < |rows| ==> rows[i] == SectorRow(results[i], i, timeframe)
  {
    seq(|results|, i requires 0 <= i < |results| => SectorRow(results[i], i, timeframe))
  }

  /** The benchmark entry the loop leaves behind: that of the last benchmark result. */
  function LastBenchmark(results: seq<SectorResult>): (b: Option<BenchmarkView>)
    ensures b.None? <==> forall i :: 0 <= i < |results| ==> !results[i].isBenchmark
    ensures b.Some? ==>
      exists i :: 0 <= i < |results| && results[i].isBenchmark
        && b.value == BenchmarkView(results[i].name, ConvertReturns(results[i].periodReturns))
        && forall j :: i < j < |results| ==> !results[j].isBenchmark
  {
    var at := LastBenchmarkAt(results);
    if at.None? then None
    else
      var s := results[at.value];
      Some(BenchmarkView(s.name, ConvertReturns(s.periodReturns)))
  }

  /** The position of the last benchmark result, if any. */
  function LastBenchmarkAt(results: seq<SectorResult>): (r: Option<nat>)
    ensures r.None? <==> forall i :: 0 <= i < |results| ==> !results[i].isBenchmark
    ensures r.Some? ==> r.value < |results| && results[r.value].isBenchmark
    ensures r.Some? ==> forall j :: r.value < j < |results| ==> !results[j].isBenchmark
  {
    if |results| == 0 then None
    else if results[|results| - 1].isBenchmark then Some(|results| - 1)
    else
      var at := LastBenchmarkAt(results[..|results| - 1]);
      assert forall i :: 0 <= i < |results| - 1 ==> results[..|results| - 1][i] == results[i];
      at
  }

  function IsSectorRow(x: Row): bool
  {
    !x.isBenchmark
  }

  /** The non-benchmark rows, in input order, are fit for ranking. */
  lemma SectorRowsRankable(results: seq<SectorResult>, timeframe: string)
    ensures DistinctPos(Filter(SectorRows(results, timeframe), IsSectorRow))
    ensures Unranked(Filter(SectorRows(results, timeframe), IsSectorRow))
  {
    var rows := SectorRows(results, timeframe);
    FilterIncreasing(rows, IsSectorRow);
    var xs := Filter(rows, IsSectorRow);
    forall i | 0 <= i < |xs|
      ensures xs[i].rank.None?
    {
      var k :| 0 <= k < |rows| && rows[k] == xs[i];
    }
  }

  datatype SectorsView = SectorsView(benchmark: Option<BenchmarkView>, board: Board)

  /** `ScannerService.analyze_sectors` after the scan: nothing when there are no
      results; otherwise the benchmark entry, and every non-benchmark result as one
      row, ranked from 1 strongest first on the requested timeframe (weekly when it is
      not one of the six), with the status lists drawn from the same rows. */
  function AnalyzeSectors(results: seq<SectorResult>, timeframe: string): (v: Option<SectorsView>)
    ensures v.None? <==> |results| == 0
    ensures v.Some? ==> v.value.benchmark == LastBenchmark(results)
    ensures v.Some? ==>
      multiset(Stripped(v.value.board.sectors)) == multiset(Filter(SectorRows(results, timeframe), IsSectorRow))
    ensures v.Some? ==> forall i :: 0 <= i < |v.value.board.sectors| ==> v.value.board.sectors[i].rank == Some(i + 1)
    ensures v.Some? ==> SortedDesc(v.value.board.sectors, RowKey(SelectedPeriod(timeframe, true)))
    ensures v.Some? ==> var b := v.value.board;
      && (forall k :: 0 <= k < |b.out| ==> b.out[k] in b.sectors && b.out[k].status == Outperforming)
      && (forall k :: 0 <= k < |b.neutral| ==> b.neutral[k] in b.sectors && b.neutral[k].status == Neutral)
      && (forall k :: 0 <= k < |b.under| ==> b.under[k] in b.sectors && b.under[k].status == Underperforming)
      && |b.out| + |b.neutral| + |b.under| == |b.sectors|
    ensures v.Some? ==> forall c ::
      Ties(Stripped(v.value.board.sectors), RowKey(SelectedPeriod(timeframe, true)), c)
        == Ties(Filter(SectorRows(results, timeframe), IsSectorRow), RowKey(SelectedPeriod(timeframe, true)), c)
    ensures v.Some? ==>
      Stripped(v.value.board.neutral) == WithStatus(Filter(SectorRows(results, timeframe), IsSectorRow), StatusClass, Neutral)
    ensures v.Some? ==> forall c ::
      Ties(Stripped(v.value.board.out), RowKey(SelectedPeriod(timeframe, true)), c)
        == Ties(WithStatus(Filter(SectorRows(results, timeframe), IsSectorRow), StatusClass, Outperforming), RowKey(SelectedPeriod(timeframe, true)), c)
    ensures v.Some? ==> forall c ::
      Ties(Stripped(v.value.board.under), RowKey(SelectedPeriod(timeframe, true)), c)
        == Ties(WithStatus(Filter(SectorRows(results, timeframe), IsSectorRow), StatusClass, Underperforming), RowKey(SelectedPeriod(timeframe, true)), c)
  {
    if |results| == 0 then None
    else
      var rows := Filter(SectorRows(results, timeframe), IsSectorRow);
      SectorRowsRankable(results, timeframe);
      Some(SectorsView(LastBenchmark(results), RankBoard(rows, SelectedPeriod(timeframe, true))))
  }

  /** Every non-benchmark result appears in the ranking, exactly as its row. */
  lemma EveryNonBenchmarkRanked(results: seq<SectorResult>, timeframe: string, i: nat)
    requires i < |results| && !results[i].isBenchmark
    ensures SectorRow(results[i], i, timeframe) in Stripped(AnalyzeSectors(results, timeframe).value.board.sectors)
  {
    var rows := SectorRows(results, timeframe);
    var st := Stripped(AnalyzeSectors(results, timeframe).value.board.sectors);
    assert rows[i] in Filter(rows, IsSectorRow);
    assert rows[i] in multiset(st);
  }

  /** A rearrangement of the non-benchmark rows, ranks aside, holds only such rows. */
  lemma RankedRowOrigin(results: seq<SectorResult>, timeframe: string, ranked: seq<Row>, k: nat)
    requires multiset(Stripped(ranked)) == multiset(Filter(SectorRows(results, timeframe), IsSectorRow))
    requires k < |ranked|
    ensures ranked[k].pos < |results| && !results[ranked[k].pos].isBenchmark
    ensures ranked[k].status == GetStatus(results[ranked[k].pos].relative, timeframe)
    ensures ranked[k].relativeStrength == ConvertReturns(results[ranked[k].pos].relative)
  {
    var rows := SectorRows(results, timeframe);
    var st := Stripped(ranked);
    assert st[k] in multiset(Filter(rows, IsSectorRow));
    assert st[k] in rows;
    var q :| 0 <= q < |rows| && rows[q] == st[k];
  }

  /** Every ranked row is a non-benchmark result, with the status and relative
      strength of that result. */
  lemma EveryRankedIsNonBenchmark(results: seq<SectorResult>, timeframe: string, k: nat)
    requires |results| > 0
    requires k < |AnalyzeSectors(results, timeframe).value.board.sectors|
    ensures var x := AnalyzeSectors(results, timeframe).value.board.sectors[k];
      && x.pos < |results| && !results[x.pos].isBenchmark
      && x.status == GetStatus(results[x.pos].relative, timeframe)
      && x.relativeStrength == ConvertReturns(results[x.pos].relative)
  {
    RankedRowOrigin(results, timeframe, AnalyzeSectors(results, timeframe).value.board.sectors, k);
  }

  /** The row built for the stock at position `i`. */
  function StockRow(d: StockData, i: nat, timeframe: string): Row
  {
    Row(i, d.symbol, false, ConvertReturns(d.periodReturns), ConvertReturns(d.relative),
        GetStatus(d.relative, timeframe), None)
  }

  function StockViewRows(stocks: seq<StockData>, timeframe: string): (rows: seq<Row>)
    ensures |rows| == |stocks|
    ensures forall i :: 0 <= i < |rows| ==> rows[i] == StockRow(stocks[i], i, timeframe)
    ensures DistinctPos(rows) && Unranked(rows)
  {
    seq(|stocks|, i requires 0 <= i < |stocks| => StockRow(stocks[i], i, timeframe))
  }

  datatype StocksView = StocksView(benchmark: Option<BenchmarkView>, board: Board, totalStocks: nat)

  /** `ScannerService.analyze_sector_stocks` after the scan: nothing when no stock was
      analysed; otherwise every stock as one row, ranked from 1 strongest first. The
      status follows the requested timeframe, "3m" included, but the sort key table has
      no "3m" entry, so that timeframe sorts on the weekly figure. */
  function AnalyzeSectorStocksView(results: SectorStocks, timeframe: string): (v: Option<StocksView>)
    ensures v.None? <==> |results.stocks| == 0
    ensures v.Some? ==> v.value.totalStocks == |results.stocks| == |v.value.board.sectors|
    ensures v.Some? ==> (v.value.benchmark.Some? <==> results.benchmark.Some?)
    ensures v.Some? && results.benchmark.Some? ==>
      v.value.benchmark.value == BenchmarkView(BenchmarkName, ConvertReturns(results.benchmark.value))
    ensures v.Some? ==> multiset(Stripped(v.value.board.sectors)) == multiset(StockViewRows(results.stocks, timeframe))
    ensures v.Some? ==> forall i :: 0 <= i < |v.value.board.sectors| ==> v.value.board.sectors[i].rank == Some(i + 1)
    ensures v.Some? ==> SortedDesc(v.value.board.sectors, RowKey(SelectedPeriod(timeframe, false)))
    ensures v.Some? ==> var b := v.value.board;
      && (forall k :: 0 <= k < |b.out| ==> b.out[k] in b.sectors && b.out[k].status == Outperforming)
      && (forall k :: 0 <= k < |b.neutral| ==> b.neutral[k] in b.sectors && b.neutral[k].status == Neutral)
      && (forall k :: 0 <= k < |b.under| ==> b.under[k] in b.sectors && b.under[k].status == Underperforming)
      && |b.out| + |b.neutral| + |b.under| == |b.sectors|
    ensures v.Some? ==> forall c ::
      Ties(Stripped(v.value.board.sectors), RowKey(SelectedPeriod(timeframe, false)), c)
        == Ties(StockViewRows(results.stocks, timeframe), RowKey(SelectedPeriod(timeframe, false)), c)
    ensures v.Some? ==> Stripped(v.value.board.neutral) == WithStatus(StockViewRows(results.stocks, timeframe), StatusClass, Neutral)
    ensures v.Some? ==> forall c ::
      Ties(Stripped(v.value.board.out), RowKey(SelectedPeriod(timeframe, false)), c)
        == Ties(WithStatus(StockViewRows(results.stocks, timeframe), StatusClass, Outperforming), RowKey(SelectedPeriod(timeframe, false)), c)
    ensures v.Some? ==> forall c ::
      Ties(Stripped(v.value.board.under), RowKey(SelectedPeriod(timeframe, false)), c)
        == Ties(WithStatus(StockViewRows(results.stocks, timeframe), StatusClass, Underperforming), RowKey(SelectedPeriod(timeframe, false)), c)
  {
    if |results.stocks| == 0 then None
    else
      var benchmark := match results.benchmark
        case None => None
        case Some(m) => Some(BenchmarkView(BenchmarkName, ConvertReturns(m)));
      var rows := StockViewRows(results.stocks, timeframe);
      Some(StocksView(benchmark, RankBoard(rows, SelectedPeriod(timeframe, false)), |rows|))
  }

  /** Asked for "3m", the stock view reports statuses on the three-month figure but
      orders the stocks on the weekly one. */
  lemma QuarterStocksSortWeekly(results: SectorStocks, relative: ReturnMap)
    requires |results.stocks| > 0
    ensures SortedDesc(AnalyzeSectorStocksView(results, "3m").value.board.sectors, RowKey(Weekly))
    ensures GetStatus(relative, "3m") == StatusOf(Lookup(relative, ThreeMonth).GetOr(0.0))
  {
    TimeframeFallbacks();
  }
}
