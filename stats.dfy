/** The numeric steps the recorder borrows from numpy and torch: the mean of a
    series and of its last ten values, the row-wise argmax of a score matrix,
    and the number of rows on which two score matrices agree. */
module Stats {

  /** How many trailing values the "Last 10" column averages. */
  const RecentWindow: nat := 10

  function Sum(s: seq<real>): (r: real)
  {
    if s == [] then 0.0 else s[0] + Sum(s[1..])
  }

  /** `np.array(s).mean()` for a non-empty series, over the reals. */
  function Mean(s: seq<real>): (r: real)
    requires |s| > 0
  {
    Sum(s) / |s| as real
  }

  /** `values[-10:]`: the last `min(10, |s|)` values. */
  function Recent(s: seq<real>): (r: seq<real>)
  {
    if |s| <= RecentWindow then s else s[|s| - RecentWindow..]
  }

  /** The window holds `min(10, |s|)` values, the last ones of `s` in order. */
  lemma RecentSuffix(s: seq<real>)
    ensures var r := Recent(s);
            && |r| == (if |s| < RecentWindow then |s| else RecentWindow)
            && (|s| <= RecentWindow ==> r == s)
            && forall i :: 0 <= i < |r| ==> r[i] == s[|s| - |r| + i]
  {
  }

  lemma {:induction false} SumBounds(s: seq<real>, lo: real, hi: real)
    requires forall i :: 0 <= i < |s| ==> lo <= s[i] <= hi
    ensures lo * |s| as real <= Sum(s) <= hi * |s| as real
    decreases |s|
  {
    if s != [] {
      SumBounds(s[1..], lo, hi);
      var n := (|s| - 1) as real;
      assert lo * (n + 1.0) == lo * n + lo;
      assert hi * (n + 1.0) == hi * n + hi;
    }
  }

  /** The mean lies between any bounds of the values. */
  lemma MeanBetween(s: seq<real>, lo: real, hi: real)
    requires |s| > 0
    requires forall i :: 0 <= i < |s| ==> lo <= s[i] <= hi
    ensures lo <= Mean(s) <= hi
  {
    SumBounds(s, lo, hi);
    var n := |s| as real;
    assert Mean(s) * n == Sum(s);
  }

  /** A series whose values are all `c` has mean `c`, and so does its tail. */
  lemma MeanConstant(s: seq<real>, c: real)
    requires |s| > 0
    requires forall i :: 0 <= i < |s| ==> s[i] == c
    ensures Mean(s) == c
    ensures Mean(Recent(s)) == c
  {
    MeanBetween(s, c, c);
    RecentSuffix(s);
    MeanBetween(Recent(s), c, c);
  }

  /** `row.max(0)[1]` with a fixed tie-break: the FIRST index holding the
      largest score. */
  function ArgMax(row: seq<real>): (k: nat)
    requires |row| > 0
    ensures k < |row|
    ensures forall j :: 0 <= j < |row| ==> row[j] <= row[k]
    ensures forall j :: 0 <= j < k ==> row[j] < row[k]
  {
    if |row| == 1 then 0
    else
      var k := ArgMax(row[..|row| - 1]);
      if row[|row| - 1] > row[k] then |row| - 1 else k
  }

  /** The conditions above pin the index down: any index that is maximal and
      beats every earlier score is the one `ArgMax` returns. */
  lemma ArgMaxUnique(row: seq<real>, k: nat)
    requires k < |row|
    requires forall j :: 0 <= j < |row| ==> row[j] <= row[k]
    requires forall j :: 0 <= j < k ==> row[j] < row[k]
    ensures ArgMax(row) == k
  {
    var m := ArgMax(row);
  }

  /** Every row of a score matrix has at least one column. */
  ghost predicate Rows(m: seq<seq<real>>)
  {
    forall i :: 0 <= i < |m| ==> |m[i]| > 0
  }

  /** One row is predicted correctly: both argmaxes agree. */
  predicate SameArgMax(scores: seq<real>, truth: seq<real>)
  {
    |scores| > 0 && |truth| > 0 && ArgMax(scores) == ArgMax(truth)
  }

  /** Row `i` is predicted correctly. */
  predicate Hit(logits: seq<seq<real>>, truth: seq<seq<real>>, i: int)
  {
    0 <= i < |truth| && i < |logits| && SameArgMax(logits[i], truth[i])
  }

  /** The number of hits among the first `n` rows. */
  function HitsBelow(logits: seq<seq<real>>, truth: seq<seq<real>>, n: nat): (c: nat)
    ensures c <= n
  {
    if n == 0 then 0 else HitsBelow(logits, truth, n - 1) + if Hit(logits, truth, n - 1) then 1 else 0
  }

  /** `sum(logits.max(1)[1] == truth.max(1)[1])`: the number of rows whose
      argmaxes agree. */
  function MatchCount(logits: seq<seq<real>>, truth: seq<seq<real>>): (c: nat)
    requires |logits| == |truth| && Rows(logits) && Rows(truth)
    ensures c <= |truth|
  {
    HitsBelow(logits, truth, |truth|)
  }

  lemma {:induction false} HitsBelowAll(logits: seq<seq<real>>, truth: seq<seq<real>>, n: nat)
    ensures HitsBelow(logits, truth, n) == n <==> forall i :: 0 <= i < n ==> Hit(logits, truth, i)
  {
    if n > 0 {
      HitsBelowAll(logits, truth, n - 1);
    }
  }

  lemma {:induction false} HitsBelowNone(logits: seq<seq<real>>, truth: seq<seq<real>>, n: nat)
    ensures HitsBelow(logits, truth, n) == 0 <==> forall i :: 0 <= i < n ==> !Hit(logits, truth, i)
  {
    if n > 0 {
      HitsBelowNone(logits, truth, n - 1);
    }
  }

  /** Every row is counted exactly when every row is a hit. */
  lemma MatchCountAll(logits: seq<seq<real>>, truth: seq<seq<real>>)
    requires |logits| == |truth| && Rows(logits) && Rows(truth)
    ensures MatchCount(logits, truth) == |truth| <==> forall i :: 0 <= i < |truth| ==> Hit(logits, truth, i)
  {
    HitsBelowAll(logits, truth, |truth|);
  }

  /** Nothing is counted exactly when no row is a hit. */
  lemma MatchCountNone(logits: seq<seq<real>>, truth: seq<seq<real>>)
    requires |logits| == |truth| && Rows(logits) && Rows(truth)
    ensures MatchCount(logits, truth) == 0 <==> forall i :: 0 <= i < |truth| ==> !Hit(logits, truth, i)
  {
    HitsBelowNone(logits, truth, |truth|);
  }

  lemma RowsAppend(a: seq<seq<real>>, b: seq<seq<real>>)
    requires Rows(a) && Rows(b)
    ensures Rows(a + b)
  {
    forall i | 0 <= i < |a + b| ensures |(a + b)[i]| > 0 {
      if i >= |a| {
        assert (a + b)[i] == b[i - |a|];
      }
    }
  }

  /** Two pairs of matrices that hit on the same rows below `n` count the
      same number of hits there. */
  lemma {:induction false} HitsBelowSame(l: seq<seq<real>>, t: seq<seq<real>>,
                                         l': seq<seq<real>>, t': seq<seq<real>>, n: nat, d: nat)
    requires forall i :: 0 <= i < n ==> Hit(l, t, d + i) == Hit(l', t', i)
    ensures HitsBelow(l', t', n) == HitsBelow(l, t, d + n) - HitsBelow(l, t, d)
  {
    if n > 0 {
      HitsBelowSame(l, t, l', t', n - 1, d);
    }
  }

  /** Counting distributes over splitting the batch: rows are counted one by
      one and independently of each other. */
  lemma MatchCountAppend(l1: seq<seq<real>>, t1: seq<seq<real>>, l2: seq<seq<real>>, t2: seq<seq<real>>)
    requires |l1| == |t1| && Rows(l1) && Rows(t1)
    requires |l2| == |t2| && Rows(l2) && Rows(t2)
    ensures Rows(l1 + l2) && Rows(t1 + t2)
    ensures MatchCount(l1 + l2, t1 + t2) == MatchCount(l1, t1) + MatchCount(l2, t2)
  {
    RowsAppend(l1, l2);
    RowsAppend(t1, t2);
    var l, t := l1 + l2, t1 + t2;
    forall i | 0 <= i < |t1| ensures Hit(l, t, 0 + i) == Hit(l1, t1, i) {
      assert l[i] == l1[i] && t[i] == t1[i];
    }
    HitsBelowSame(l, t, l1, t1, |t1|, 0);
    forall i | 0 <= i < |t2| ensures Hit(l, t, |t1| + i) == Hit(l2, t2, i) {
      assert l[|t1| + i] == l2[i] && t[|t1| + i] == t2[i];
    }
    HitsBelowSame(l, t, l2, t2, |t2|, |t1|);
  }
}
