/** Sequence helpers used across the model: sums and means, extremes,
    substring search, ASCII lower-casing and a stable descending sort. */
module Seqs {

  // ---------------------------------------------------------------------------
  // Sums and means
  // ---------------------------------------------------------------------------

  function Sum(xs: seq<real>): real
  {
    if |xs| == 0 then 0.0 else xs[0] + Sum(xs[1..])
  }

  /** numpy's `mean` of a non-empty slice. */
  function Mean(xs: seq<real>): (m: real)
    requires |xs| > 0
    ensures (forall i :: 0 <= i < |xs| ==> 0.0 <= xs[i]) ==> 0.0 <= m
  {
    assert (forall i :: 0 <= i < |xs| ==> 0.0 <= xs[i]) ==> 0.0 <= Sum(xs) by {
      if forall i :: 0 <= i < |xs| ==> 0.0 <= xs[i] {
        SumAtLeast(xs, 0.0);
      }
    }
    Sum(xs) / (|xs| as real)
  }

  lemma {:induction false} SumAtLeast(xs: seq<real>, lo: real)
    requires forall i :: 0 <= i < |xs| ==> lo <= xs[i]
    ensures (|xs| as real) * lo <= Sum(xs)
  {
    if |xs| > 0 {
      SumAtLeast(xs[1..], lo);
    }
  }

  lemma {:induction false} SumAtMost(xs: seq<real>, hi: real)
    requires forall i :: 0 <= i < |xs| ==> xs[i] <= hi
    ensures Sum(xs) <= (|xs| as real) * hi
  {
    if |xs| > 0 {
      SumAtMost(xs[1..], hi);
    }
  }

  lemma {:induction false} SumAbove(xs: seq<real>, lo: real)
    requires |xs| > 0
    requires forall i :: 0 <= i < |xs| ==> lo < xs[i]
    ensures (|xs| as real) * lo < Sum(xs)
  {
    if |xs| > 1 {
      SumAbove(xs[1..], lo);
    }
  }

  /** A mean never leaves the band that holds every value averaged. */
  lemma MeanWithin(xs: seq<real>, lo: real, hi: real)
    requires |xs| > 0
    requires forall i :: 0 <= i < |xs| ==> lo <= xs[i] <= hi
    ensures lo <= Mean(xs) <= hi
  {
    SumAtLeast(xs, lo);
    SumAtMost(xs, hi);
    var n := |xs| as real;
    assert n * lo <= Sum(xs) <= n * hi;
    assert Mean(xs) * n == Sum(xs);
  }

  /** The mean of strictly positive values is strictly positive. */
  lemma MeanPositive(xs: seq<real>)
    requires |xs| > 0
    requires forall i :: 0 <= i < |xs| ==> 0.0 < xs[i]
    ensures 0.0 < Mean(xs)
  {
    SumAbove(xs, 0.0);
  }

  // ---------------------------------------------------------------------------
  // Extremes of a non-empty sequence
  // ---------------------------------------------------------------------------

  /** pandas `max()` of a non-empty window. */
  function MaxOf(xs: seq<real>): (m: real)
    requires |xs| > 0
    ensures forall i :: 0 <= i < |xs| ==> xs[i] <= m
    ensures exists i :: 0 <= i < |xs| && xs[i] == m
  {
    if |xs| == 1 then xs[0]
    else
      var rest := MaxOf(xs[1..]);
      assert forall i :: 1 <= i < |xs| ==> xs[i] == xs[1..][i - 1];
      if xs[0] >= rest then xs[0] else rest
  }

  /** pandas `min()` of a non-empty window. */
  function MinOf(xs: seq<real>): (m: real)
    requires |xs| > 0
    ensures forall i :: 0 <= i < |xs| ==> m <= xs[i]
    ensures exists i :: 0 <= i < |xs| && xs[i] == m
  {
    if |xs| == 1 then xs[0]
    else
      var rest := MinOf(xs[1..]);
      assert forall i :: 1 <= i < |xs| ==> xs[i] == xs[1..][i - 1];
      if xs[0] <= rest then xs[0] else rest
  }

  // ---------------------------------------------------------------------------
  // Strings
  // ---------------------------------------------------------------------------

  /** Python's `word in text` on strings: `word` occurs as a contiguous piece of `text`. */
  predicate Contains(text: string, word: string)
    decreases |text|
  {
    |word| <= |text| && (text[..|word|] == word || Contains(text[1..], word))
  }

  /** `word` occurs in `text` starting at position `k`. */
  ghost predicate OccursAt(text: string, word: string, k: int)
  {
    0 <= k && k + |word| <= |text| && text[k..k + |word|] == word
  }

  /** An occurrence at any position is found by the search. */
  lemma {:induction false} ContainsAt(text: string, word: string, k: int)
    requires OccursAt(text, word, k)
    ensures Contains(text, word)
    decreases k
  {
    if k > 0 {
      assert text[1..][k - 1..k - 1 + |word|] == text[k..k + |word|];
      ContainsAt(text[1..], word, k - 1);
    }
  }

  /** Every match the search reports sits at some position of the text. */
  lemma {:induction false} ContainsHasPosition(text: string, word: string)
    requires Contains(text, word)
    ensures exists k :: OccursAt(text, word, k)
    decreases |text|
  {
    if text[..|word|] != word {
      ContainsHasPosition(text[1..], word);
      var k :| OccursAt(text[1..], word, k);
      assert text[k + 1..k + 1 + |word|] == text[1..][k..k + |word|];
      assert OccursAt(text, word, k + 1);
    } else {
      assert OccursAt(text, word, 0);
    }
  }

  /** `word` is absent when no position of `text` starts with its first two characters. */
  lemma {:induction false} NotContainsByPrefix(text: string, word: string)
    requires 2 <= |word|
    requires forall k :: 0 <= k && k + |word| <= |text| ==> text[k] != word[0] || text[k + 1] != word[1]
    ensures !Contains(text, word)
    decreases |text|
  {
    if |word| <= |text| {
      assert text[..|word|][0] == text[0] && text[..|word|][1] == text[1];
      NotContainsByPrefix(text[1..], word);
    }
  }

  function LowerChar(c: char): char
  {
    if 'A' <= c <= 'Z' then (c as int - 'A' as int + 'a' as int) as char else c
  }

  /** `str.lower()` restricted to ASCII letters. */
  function Lower(s: string): (r: string)
    ensures |r| == |s|
    ensures forall i :: 0 <= i < |s| ==> r[i] == LowerChar(s[i])
  {
    seq(|s|, i requires 0 <= i < |s| => LowerChar(s[i]))
  }

  // ---------------------------------------------------------------------------
  // Stable sort, descending by a real key
  // ---------------------------------------------------------------------------

  ghost predicate SortedDesc<T>(xs: seq<T>, key: T -> real)
  {
    forall i, j :: 0 <= i < j < |xs| ==> key(xs[j]) <= key(xs[i])
  }

  /** Places `x` in front of the first element whose key does not exceed its own,
      so that `x` stays ahead of the elements it ties with. */
  function InsertDesc<T>(x: T, xs: seq<T>, key: T -> real): (r: seq<T>)
    requires SortedDesc(xs, key)
    ensures multiset(r) == multiset(xs) + multiset{x}
    ensures SortedDesc(r, key)
  {
    if |xs| == 0 then [x]
    else if key(xs[0]) <= key(x) then [x] + xs
    else
      var rest := InsertDesc(x, xs[1..], key);
      assert xs == [xs[0]] + xs[1..];
      BelowHead(xs[0], x, xs[1..], rest, key);
      ConsSortedDesc(xs[0], rest, key);
      [xs[0]] + rest
  }

  /** A permutation of a sorted tail and `x`, all with keys below the head's. */
  lemma BelowHead<T>(h: T, x: T, tail: seq<T>, rest: seq<T>, key: T -> real)
    requires key(x) < key(h)
    requires SortedDesc([h] + tail, key)
    requires multiset(rest) == multiset(tail) + multiset{x}
    ensures forall k :: 0 <= k < |rest| ==> key(rest[k]) <= key(h)
  {
    forall k | 0 <= k < |rest|
      ensures key(rest[k]) <= key(h)
    {
      assert rest[k] in multiset(tail) + multiset{x};
      if rest[k] in multiset(tail) {
        var m :| 0 <= m < |tail| && tail[m] == rest[k];
        assert ([h] + tail)[0] == h && ([h] + tail)[m + 1] == rest[k];
      } else {
        assert rest[k] == x;
      }
    }
  }

  /** A head whose key bounds a sorted list keeps it sorted. */
  lemma ConsSortedDesc<T>(h: T, rest: seq<T>, key: T -> real)
    requires SortedDesc(rest, key)
    requires forall k :: 0 <= k < |rest| ==> key(rest[k]) <= key(h)
    ensures SortedDesc([h] + rest, key)
  {
    var r := [h] + rest;
    assert forall k :: 1 <= k < |r| ==> r[k] == rest[k - 1];
  }

  /** The elements whose key is exactly `c`, in their order: one group of ties. */
  function Ties<T>(xs: seq<T>, key: T -> real, c: real): seq<T>
  {
    if |xs| == 0 then []
    else (if key(xs[0]) == c then [xs[0]] else []) + Ties(xs[1..], key, c)
  }

  /** Inserting `x` into a sorted list puts it ahead of every element it ties with. */
  lemma {:induction false} InsertKeepsTies<T>(x: T, xs: seq<T>, key: T -> real, c: real)
    requires SortedDesc(xs, key)
    ensures Ties(InsertDesc(x, xs, key), key, c) == (if key(x) == c then [x] else []) + Ties(xs, key, c)
  {
    if |xs| == 0 {
      assert [x][1..] == xs;
    } else if key(xs[0]) <= key(x) {
      assert ([x] + xs)[1..] == xs;
    } else {
      InsertKeepsTies(x, xs[1..], key, c);
      TiesBehindHead(x, xs[0], InsertDesc(x, xs[1..], key), xs[1..], key, c);
      assert xs == [xs[0]] + xs[1..];
    }
  }

  /** An element with a greater key than `x` in front of both lists leaves `x`'s
      place among its ties unchanged. */
  lemma TiesBehindHead<T>(x: T, h: T, rest: seq<T>, tail: seq<T>, key: T -> real, c: real)
    requires key(x) < key(h)
    requires Ties(rest, key, c) == (if key(x) == c then [x] else []) + Ties(tail, key, c)
    ensures Ties([h] + rest, key, c) == (if key(x) == c then [x] else []) + Ties([h] + tail, key, c)
  {
    assert ([h] + rest)[1..] == rest;
    assert ([h] + tail)[1..] == tail;
  }

  /** Python's stable `sorted(xs, key=key, reverse=True)`: a permutation of `xs`
      in non-increasing key order, ties kept in their original order.
      An ascending stable sort is the same sort on the negated key. */
  function SortDesc<T>(xs: seq<T>, key: T -> real): (r: seq<T>)
    ensures multiset(r) == multiset(xs)
    ensures |r| == |xs|
    ensures SortedDesc(r, key)
    ensures forall c :: Ties(r, key, c) == Ties(xs, key, c)
  {
    if |xs| == 0 then []
    else
      var rest := SortDesc(xs[1..], key);
      var r := InsertDesc(xs[0], rest, key);
      assert xs == [xs[0]] + xs[1..];
      assert |r| == |multiset(r)| == |multiset(xs)| == |xs|;
      assert forall c :: Ties(r, key, c) == Ties(xs, key, c) by {
        forall c
          ensures Ties(r, key, c) == Ties(xs, key, c)
        {
          InsertKeepsTies(xs[0], rest, key, c);
        }
      }
      r
  }

  ghost predicate SortedAsc<T>(xs: seq<T>, key: T -> real)
  {
    forall i, j :: 0 <= i < j < |xs| ==> key(xs[i]) <= key(xs[j])
  }

  /** The key negated, so that a descending sort on it sorts ascending on `key`. */
  function Negated<T>(key: T -> real): T -> real
  {
    (x: T) => -key(x)
  }

  /** Negating the key keeps every group of ties, at the negated value. */
  lemma {:induction false} TiesNegated<T>(xs: seq<T>, key: T -> real, c: real)
    ensures Ties(xs, Negated(key), -c) == Ties(xs, key, c)
  {
    if |xs| > 0 {
      TiesNegated(xs[1..], key, c);
    }
  }

  /** Python's stable `sorted(xs, key=key)`: the descending sort on the negated key. */
  function SortAsc<T>(xs: seq<T>, key: T -> real): (r: seq<T>)
    ensures multiset(r) == multiset(xs)
    ensures |r| == |xs|
    ensures SortedAsc(r, key)
    ensures forall c :: Ties(r, key, c) == Ties(xs, key, c)
  {
    var r := SortDesc(xs, Negated(key));
    assert forall c :: Ties(r, key, c) == Ties(xs, key, c) by {
      forall c
        ensures Ties(r, key, c) == Ties(xs, key, c)
      {
        TiesNegated(r, key, c);
        TiesNegated(xs, key, c);
      }
    }
    r
  }

  // ---------------------------------------------------------------------------
  // Filtering
  // ---------------------------------------------------------------------------

  /** The indices from `s` on of the elements satisfying `p`, in increasing order. */
  function PositionsFrom<T>(xs: seq<T>, p: T -> bool, s: nat): (r: seq<nat>)
    requires s <= |xs|
    ensures forall k :: 0 <= k < |r| ==> s <= r[k] < |xs| && p(xs[r[k]])
    ensures forall k, l :: 0 <= k < l < |r| ==> r[k] < r[l]
    ensures forall i {:trigger i in r} :: s <= i < |xs| && p(xs[i]) ==> i in r
    decreases |xs| - s
  {
    if s == |xs| then []
    else
      var rest := PositionsFrom(xs, p, s + 1);
      if p(xs[s]) then
        var r := [s] + rest;
        assert forall k :: 1 <= k < |r| ==> r[k] == rest[k - 1];
        r
      else
        rest
  }

  /** The indices of the elements satisfying `p`, in increasing order. */
  function Positions<T>(xs: seq<T>, p: T -> bool): (r: seq<nat>)
    ensures forall k :: 0 <= k < |r| ==> r[k] < |xs| && p(xs[r[k]])
    ensures forall k, l :: 0 <= k < l < |r| ==> r[k] < r[l]
    ensures forall i {:trigger i in r} :: 0 <= i < |xs| && p(xs[i]) ==> i in r
  {
    PositionsFrom(xs, p, 0)
  }

  /** Every index one further on. */
  function Shifted(ks: seq<nat>): (r: seq<nat>)
    ensures |r| == |ks|
    ensures forall k :: 0 <= k < |ks| ==> r[k] == ks[k] + 1
  {
    seq(|ks|, k requires 0 <= k < |ks| => ks[k] + 1)
  }

  /** Dropping the head of a list moves every later position down by one. */
  lemma {:induction false} PositionsShift<T>(xs: seq<T>, p: T -> bool, s: nat)
    requires 0 < |xs| && s < |xs|
    ensures PositionsFrom(xs, p, s + 1) == Shifted(PositionsFrom(xs[1..], p, s))
    decreases |xs| - s
  {
    if s + 1 < |xs| {
      PositionsShift(xs, p, s + 1);
      assert xs[1..][s] == xs[s + 1];
    }
  }

  /** `r` is `xs` at the indices `ps`, one element per index. */
  ghost predicate PicksAt<T>(r: seq<T>, xs: seq<T>, ps: seq<nat>)
  {
    |r| == |ps| && forall k :: 0 <= k < |r| ==> ps[k] < |xs| && r[k] == xs[ps[k]]
  }

  /** Picks from the tail of a list are picks from the list at the shifted indices. */
  lemma PicksShifted<T>(rest: seq<T>, xs: seq<T>, later: seq<nat>)
    requires 0 < |xs|
    requires PicksAt(rest, xs[1..], later)
    ensures PicksAt(rest, xs, Shifted(later))
  {
    var shifted := Shifted(later);
    forall k | 0 <= k < |rest|
      ensures shifted[k] < |xs| && rest[k] == xs[shifted[k]]
    {
      assert rest[k] == xs[1..][later[k]];
    }
  }

  /** Putting back the head of a list keeps the picks exact. */
  lemma PicksStep<T>(xs: seq<T>, p: T -> bool, rest: seq<T>)
    requires 0 < |xs|
    requires PicksAt(rest, xs[1..], Positions(xs[1..], p))
    ensures PicksAt(if p(xs[0]) then [xs[0]] + rest else rest, xs, Positions(xs, p))
  {
    var shifted := Shifted(Positions(xs[1..], p));
    PositionsShift(xs, p, 0);
    PicksShifted(rest, xs, Positions(xs[1..], p));
    if p(xs[0]) {
      assert Positions(xs, p) == [0] + shifted;
      var r := [xs[0]] + rest;
      assert forall k :: 1 <= k < |r| ==> r[k] == rest[k - 1];
    } else {
      assert Positions(xs, p) == shifted;
    }
  }

  /** Exact picks hold exactly the elements satisfying `p`. */
  lemma PicksMembers<T>(r: seq<T>, xs: seq<T>, p: T -> bool)
    requires PicksAt(r, xs, Positions(xs, p))
    ensures forall k :: 0 <= k < |r| ==> r[k] in xs && p(r[k])
    ensures forall i :: 0 <= i < |xs| && p(xs[i]) ==> xs[i] in r
  {
    var ps := Positions(xs, p);
    forall i | 0 <= i < |xs| && p(xs[i])
      ensures xs[i] in r
    {
      assert i in ps;
      var k :| 0 <= k < |ps| && ps[k] == i;
      assert r[k] == xs[i];
    }
  }

  /** A list comprehension `[x for x in xs if p(x)]`: the elements satisfying `p`, in
      their original order, each as often as it occurs there. */
  function Filter<T>(xs: seq<T>, p: T -> bool): (r: seq<T>)
    ensures forall i :: 0 <= i < |r| ==> r[i] in xs && p(r[i])
    ensures forall i :: 0 <= i < |xs| && p(xs[i]) ==> xs[i] in r
    ensures |r| <= |xs|
    ensures |r| == |Positions(xs, p)|
    ensures forall k :: 0 <= k < |r| ==> r[k] == xs[Positions(xs, p)[k]]
  {
    if |xs| == 0 then []
    else
      var rest := Filter(xs[1..], p);
      var r := if p(xs[0]) then [xs[0]] + rest else rest;
      PicksStep(xs, p, rest);
      PicksMembers(r, xs, p);
      r
  }

  /** A group of ties is the comprehension that keeps the elements with that key. */
  lemma {:induction false} TiesAreFiltered<T>(xs: seq<T>, key: T -> real, c: real)
    ensures Ties(xs, key, c) == Filter(xs, (x: T) => key(x) == c)
  {
    if |xs| > 0 {
      TiesAreFiltered(xs[1..], key, c);
    }
  }
}
