/** The few pandas operations the backend's endpoints rely on, on plain sequences:
    `value_counts()` (as a map and ranked by frequency), `.head(n)`, and the row
    selection `DataFrame.sample(n)` makes. */
module Pandas {
  import opened Text

  /** Counts of a ranked list never increase along it. */
  predicate NonIncreasing<T(==)>(s: seq<T>, all: seq<T>) {
    forall i, j :: 0 <= i < j < |s| ==> Count(all, s[i]) >= Count(all, s[j])
  }

  predicate Distinct<T(==)>(s: seq<T>) {
    forall i, j :: 0 <= i < j < |s| ==> s[i] != s[j]
  }

  /** A label counted at least as often as every label of a ranking can head it. */
  lemma ConsRanked<T>(h: T, t: seq<T>, all: seq<T>)
    requires NonIncreasing(t, all) && Distinct(t) && h !in t
    requires forall y :: y in t ==> Count(all, h) >= Count(all, y)
    ensures NonIncreasing([h] + t, all) && Distinct([h] + t)
  {
    forall i, j | 0 <= i < j < |[h] + t|
      ensures Count(all, ([h] + t)[i]) >= Count(all, ([h] + t)[j]) && ([h] + t)[i] != ([h] + t)[j]
    {
      assert ([h] + t)[j] == t[j - 1];
      if i > 0 { assert ([h] + t)[i] == t[i - 1]; }
    }
  }

  /** Insert a new label into a ranking, after every label counted at least as often. */
  function RankInsert<T(==,!new)>(x: T, s: seq<T>, all: seq<T>): (r: seq<T>)
    requires NonIncreasing(s, all) && Distinct(s) && x !in s
    ensures NonIncreasing(r, all) && Distinct(r)
    ensures forall y :: y in r <==> y == x || y in s
    ensures |r| == |s| + 1
  {
    if s == [] then [x]
    else if Count(all, x) > Count(all, s[0]) then
      assert forall y :: y in s ==> Count(all, s[0]) >= Count(all, y) by {
        forall y | y in s ensures Count(all, s[0]) >= Count(all, y) {
          var j :| 0 <= j < |s| && s[j] == y;
        }
      }
      ConsRanked(x, s, all);
      [x] + s
    else
      assert NonIncreasing(s[1..], all) && Distinct(s[1..]) by {
        forall i, j | 0 <= i < j < |s[1..]| ensures Count(all, s[1..][i]) >= Count(all, s[1..][j]) && s[1..][i] != s[1..][j] {
          assert s[1..][i] == s[i + 1] && s[1..][j] == s[j + 1];
        }
      }
      var rest := RankInsert(x, s[1..], all);
      assert forall y :: y in rest ==> Count(all, s[0]) >= Count(all, y) by {
        forall y | y in rest ensures Count(all, s[0]) >= Count(all, y) {
          if y != x {
            var j :| 0 <= j < |s[1..]| && s[1..][j] == y;
            assert s[j + 1] == y;
          }
        }
      }
      assert s[0] !in rest by {
        forall j | 0 <= j < |s[1..]| ensures s[1..][j] != s[0] { assert s[1..][j] == s[j + 1]; }
      }
      ConsRanked(s[0], rest, all);
      [s[0]] + rest
  }

  /** The distinct values of `xs`, most frequent in `all` first. */
  function Ranking<T(==,!new)>(xs: seq<T>, all: seq<T>): (r: seq<T>)
    ensures NonIncreasing(r, all) && Distinct(r)
    ensures forall y :: y in r <==> y in xs
    ensures |r| <= |xs|
  {
    if xs == [] then []
    else
      var s := Ranking(xs[..|xs| - 1], all);
      var x := xs[|xs| - 1];
      assert forall y :: y in xs <==> y in xs[..|xs| - 1] || y == x;
      if x in s then s else RankInsert(x, s, all)
  }

  /** The labels of a (label, count) list. */
  function Labels<T>(r: seq<(T, nat)>): (ls: seq<T>)
    ensures |ls| == |r| && forall i :: 0 <= i < |r| ==> ls[i] == r[i].0
  {
    seq(|r|, i requires 0 <= i < |r| => r[i].0)
  }

  /** The counts of a (label, count) list. */
  function Counts<T>(r: seq<(T, nat)>): (cs: seq<nat>)
    ensures |cs| == |r| && forall i :: 0 <= i < |r| ==> cs[i] == r[i].1
  {
    seq(|r|, i requires 0 <= i < |r| => r[i].1)
  }

  /** `Series.value_counts().head(n)`: the n most frequent values with their counts,
      most frequent first (the order among equal counts is not specified by pandas;
      this one keeps first occurrences first). */
  function TopCounts<T(==,!new)>(xs: seq<T>, n: nat): (r: seq<(T, nat)>)
    ensures |r| <= n
    ensures forall i :: 0 <= i < |r| ==> r[i].1 == Count(xs, r[i].0) && r[i].1 > 0
    ensures forall i, j :: 0 <= i < j < |r| ==> r[i].1 >= r[j].1 && r[i].0 != r[j].0
  {
    var ranked := Ranking(xs, xs);
    var top := ranked[..if n < |ranked| then n else |ranked|];
    assert forall i :: 0 <= i < |top| ==> top[i] in ranked;
    seq(|top|, i requires 0 <= i < |top| => (top[i], Count(xs, top[i])))
  }

  /** No value left out of `TopCounts(xs, n)` is more frequent than the last one kept,
      and a value is left out only when n values were kept. */
  lemma TopCountsComplete<T(!new)>(xs: seq<T>, n: nat, x: T)
    requires x in xs
    ensures var r := TopCounts(xs, n);
      x in Labels(r) || (|r| == n && (n == 0 || Count(xs, x) <= r[n - 1].1))
  {
    var ranked := Ranking(xs, xs);
    var k :| 0 <= k < |ranked| && ranked[k] == x;
    var r := TopCounts(xs, n);
    if k < n {
      assert r[k].0 == x;
      assert Labels(r)[k] == x;
    } else if n > 0 {
      assert |r| == n;
      assert r[n - 1] == (ranked[n - 1], Count(xs, ranked[n - 1]));
    }
  }

  /** With no cut-off (`value_counts()` without `.head`), every value is listed. */
  lemma TopCountsAll<T(!new)>(xs: seq<T>, n: nat, x: T)
    requires x in xs && n >= |xs|
    ensures x in Labels(TopCounts(xs, n))
  {
    var ranked := Ranking(xs, xs);
    var k :| 0 <= k < |ranked| && ranked[k] == x;
    assert TopCounts(xs, n)[k].0 == x;
    assert Labels(TopCounts(xs, n))[k] == x;
  }

  /** `Series.value_counts()` as a map from value to count. */
  function ValueCounts<T(==,!new)>(xs: seq<T>): (m: map<T, nat>)
    ensures forall x :: x in m <==> x in xs
    ensures forall x :: x in m ==> m[x] == Count(xs, x)
  {
    if xs == [] then map[]
    else
      var m := ValueCounts(xs[1..]);
      m[xs[0] := Count(xs, xs[0])]
  }

  /** The rows at the positions marked true, in table order: the rows a random draw
      such as `DataFrame.sample(k)` keeps, the randomness given as the mask. */
  function Pick<T>(rows: seq<T>, mask: seq<bool>): (r: seq<T>)
    requires |mask| == |rows|
    ensures |r| == Count(mask, true)
    ensures IsSubsequence(r, rows)
    ensures forall x :: x in r ==> x in rows
  {
    if rows == [] then []
    else
      var rest := Pick(rows[1..], mask[1..]);
      if mask[0] then [rows[0]] + rest else rest
  }

  /** Boolean-mask indexing `xs[mask]` with the mask given by `p`: the elements meeting
      `p`, in their original order. */
  function Filter<T(!new)>(xs: seq<T>, p: T -> bool): (r: seq<T>)
    ensures |r| <= |xs|
    ensures forall x :: x in r <==> x in xs && p(x)
    ensures forall x :: Count(r, x) == if p(x) then Count(xs, x) else 0
    ensures IsSubsequence(r, xs)
  {
    if xs == [] then []
    else
      var rest := Filter(xs[1..], p);
      if p(xs[0]) then [xs[0]] + rest else rest
  }

  lemma {:induction false} FilterAppend<T(!new)>(xs: seq<T>, ys: seq<T>, p: T -> bool)
    ensures Filter(xs + ys, p) == Filter(xs, p) + Filter(ys, p)
  {
    if xs == [] {
      assert xs + ys == ys;
    } else {
      assert (xs + ys)[0] == xs[0] && (xs + ys)[1..] == xs[1..] + ys;
      FilterAppend(xs[1..], ys, p);
    }
  }
}
