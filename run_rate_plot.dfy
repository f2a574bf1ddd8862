/** The aggregation behind create_run_rate_plot: per-over running run rate, smoothed by a centred rolling mean. */
module RunRatePlot {
  import opened Deliveries

  /** One plotted point: a delivery's over and the smoothed run rate at that delivery. */
  datatype RatePoint = RatePoint(over: real, rate: real)

  /** Strictly earlier in (over, ballnumber) order. */
  predicate KeyLess(a: Delivery, b: Delivery)
  {
    a.over < b.over || (a.over == b.over && a.ballNumber < b.ballNumber)
  }

  predicate SortedByOverBall(s: seq<Delivery>)
  {
    forall i, j :: 0 <= i < j < |s| ==> !KeyLess(s[j], s[i])
  }

  /** Places d after every row whose key is not greater than its own. */
  function InsertRow(s: seq<Delivery>, d: Delivery): (r: seq<Delivery>)
    ensures multiset(r) == multiset(s) + multiset{d}
  {
    if s == [] then [d]
    else if KeyLess(d, s[0]) then [d] + s
    else
      assert s == [s[0]] + s[1..];
      [s[0]] + InsertRow(s[1..], d)
  }

  /** Every row of the insertion's result is one of the rows, or the row inserted. */
  lemma InsertRowElements(s: seq<Delivery>, d: Delivery, lo: Delivery)
    requires forall j :: 0 <= j < |s| ==> !KeyLess(s[j], lo)
    requires !KeyLess(d, lo)
    ensures forall j :: 0 <= j < |InsertRow(s, d)| ==> !KeyLess(InsertRow(s, d)[j], lo)
  {
    var r := InsertRow(s, d);
    forall j | 0 <= j < |r| ensures !KeyLess(r[j], lo) {
      assert r[j] in multiset(r);
      if r[j] != d {
        assert r[j] in multiset(s);
        var k :| 0 <= k < |s| && s[k] == r[j];
      }
    }
  }

  /** A row no later than every row of a sorted sequence can go in front of it. */
  lemma ConsSorted(x: Delivery, rest: seq<Delivery>)
    requires SortedByOverBall(rest)
    requires forall j :: 0 <= j < |rest| ==> !KeyLess(rest[j], x)
    ensures SortedByOverBall([x] + rest)
  {
    var r := [x] + rest;
    forall i, j | 0 <= i < j < |r| ensures !KeyLess(r[j], r[i]) {
      assert r[j] == rest[j - 1];
      if i > 0 {
        assert r[i] == rest[i - 1];
      }
    }
  }

  /** Inserting into a sorted sequence keeps it sorted. */
  lemma {:induction false} InsertRowSorted(s: seq<Delivery>, d: Delivery)
    requires SortedByOverBall(s)
    ensures SortedByOverBall(InsertRow(s, d))
  {
    if s == [] {
    } else if KeyLess(d, s[0]) {
      ConsSorted(d, s);
    } else {
      var tail := s[1..];
      InsertRowSorted(tail, d);
      InsertRowElements(tail, d, s[0]);
      ConsSorted(s[0], InsertRow(tail, d));
    }
  }

  /** `sort_values(by=['over', 'ballnumber'])`: the same rows, in (over, ballnumber) order. */
  function SortByOverBall(s: seq<Delivery>): (r: seq<Delivery>)
    ensures SortedByOverBall(r)
    ensures multiset(r) == multiset(s)
  {
    if s == [] then []
    else
      assert s == s[..|s| - 1] + [s[|s| - 1]];
      var sortedInit := SortByOverBall(s[..|s| - 1]);
      InsertRowSorted(sortedInit, s[|s| - 1]);
      InsertRow(sortedInit, s[|s| - 1])
  }

  /** `groupby('over')['score'].cumsum()` at row i: runs so far within row i's over. */
  function LocalRuns(t: seq<Delivery>, i: nat): int
    requires i < |t|
  {
    OverRuns(t[..i + 1], t[i].over)
  }

  /** `groupby('over').cumcount() + 1` at row i: balls so far within row i's over. */
  function LocalCount(t: seq<Delivery>, i: nat): (r: nat)
    requires i < |t|
    ensures r >= 1
  {
    CountsOwnRow(t[..i + 1], t[i].over);
    OverCount(t[..i + 1], t[i].over)
  }

  lemma CountsOwnRow(s: seq<Delivery>, o: real)
    requires s != [] && s[|s| - 1].over == o
    ensures OverCount(s, o) >= 1
  {
  }

  /** `cumulative_runs / (cumulative_overs / 6)` at row i: runs per six balls within the over. */
  function RowRunRate(t: seq<Delivery>, i: nat): (r: real)
    requires i < |t|
    ensures r == LocalRuns(t, i) as real * 6.0 / LocalCount(t, i) as real
  {
    LocalRuns(t, i) as real / (LocalCount(t, i) as real / 6.0)
  }

  function SumReal(xs: seq<real>): real
  {
    if xs == [] then 0.0 else SumReal(xs[..|xs| - 1]) + xs[|xs| - 1]
  }

  function Mean(xs: seq<real>): real
    requires xs != []
  {
    SumReal(xs) / |xs| as real
  }

  /** First position of the centred window of width 5 around i. */
  function WindowStart(i: nat): nat
  {
    if i >= 2 then i - 2 else 0
  }

  /** One past the last position of that window, cut at the end of a series of length n. */
  function WindowEnd(n: nat, i: nat): nat
  {
    if i + 3 <= n then i + 3 else n
  }

  /** `rolling(window=5, min_periods=1, center=True).mean()`. */
  function Smooth(xs: seq<real>): (r: seq<real>)
    ensures |r| == |xs|
    ensures forall i :: 0 <= i < |xs| ==>
      && WindowStart(i) <= i < WindowEnd(|xs|, i)
      && WindowEnd(|xs|, i) - WindowStart(i) <= 5
      && r[i] == Mean(xs[WindowStart(i)..WindowEnd(|xs|, i)])
  {
    seq(|xs|, i requires 0 <= i < |xs| => Mean(xs[WindowStart(i)..WindowEnd(|xs|, i)]))
  }

  /** The `run_rate` column: one per-over run rate per row. */
  function RunRates(t: seq<Delivery>): (r: seq<real>)
    ensures |r| == |t|
  {
    seq(|t|, i requires 0 <= i < |t| => RowRunRate(t, i))
  }

  /** The aggregation part of create_run_rate_plot. */
  function RunRatePlot(df: seq<Delivery>, matchNo: int, inning: int): (r: seq<RatePoint>)
    ensures |r| == |Select(df, matchNo, inning)|
  {
    var t := SortByOverBall(Select(df, matchNo, inning));
    var smoothed := Smooth(RunRates(t));
    seq(|t|, i requires 0 <= i < |t| => RatePoint(t[i].over, smoothed[i]))
  }

  /**
   * After sorting, the running values restart at each new over: the first
   * ball of an over has count 1 and runs equal to its own score, and every
   * later ball of the same over adds one ball and its score to the previous row's.
   */
  lemma LocalValuesRestart(t: seq<Delivery>, i: nat)
    requires SortedByOverBall(t)
    requires i < |t|
    ensures i == 0 || t[i - 1].over != t[i].over ==>
      LocalCount(t, i) == 1 && LocalRuns(t, i) == t[i].score
    ensures 0 < i && t[i - 1].over == t[i].over ==>
      LocalCount(t, i) == LocalCount(t, i - 1) + 1 && LocalRuns(t, i) == LocalRuns(t, i - 1) + t[i].score
  {
    var prefix := t[..i + 1];
    assert prefix[..i] == t[..i];
    if i == 0 || t[i - 1].over != t[i].over {
      forall j | 0 <= j < i ensures t[..i][j].over != t[i].over {
        assert !KeyLess(t[i - 1], t[j]);
        assert !KeyLess(t[i], t[i - 1]);
      }
      AbsentOver(t[..i], t[i].over);
    } else {
      assert t[..i] == t[..i - 1 + 1];
    }
  }

  lemma {:induction false} SumRealBounded(xs: seq<real>, lo: real, hi: real)
    requires forall i :: 0 <= i < |xs| ==> lo <= xs[i] <= hi
    ensures |xs| as real * lo <= SumReal(xs) <= |xs| as real * hi
  {
    if xs != [] {
      SumRealBounded(xs[..|xs| - 1], lo, hi);
    }
  }

  /** A mean lies between any bounds on the values it averages. */
  lemma MeanBounded(xs: seq<real>, lo: real, hi: real)
    requires xs != []
    requires forall i :: 0 <= i < |xs| ==> lo <= xs[i] <= hi
    ensures lo <= Mean(xs) <= hi
  {
    SumRealBounded(xs, lo, hi);
    var n := |xs| as real;
    assert SumReal(xs) / n <= (n * hi) / n;
    assert (n * lo) / n <= SumReal(xs) / n;
  }

  /** Smoothing never leaves the range of the series it smooths. */
  lemma SmoothBounded(xs: seq<real>, lo: real, hi: real)
    requires forall i :: 0 <= i < |xs| ==> lo <= xs[i] <= hi
    ensures forall i :: 0 <= i < |xs| ==> lo <= Smooth(xs)[i] <= hi
  {
    forall i | 0 <= i < |xs| ensures lo <= Smooth(xs)[i] <= hi {
      var w := xs[WindowStart(i)..WindowEnd(|xs|, i)];
      assert forall j :: 0 <= j < |w| ==> w[j] == xs[WindowStart(i) + j];
      MeanBounded(w, lo, hi);
    }
  }

  /** With every score between 0 and 6, each per-over run rate lies between 0 and 36. */
  lemma RowRunRateBounded(t: seq<Delivery>, i: nat)
    requires i < |t|
    requires ScoresWithin(t, 0, 6)
    ensures 0.0 <= RowRunRate(t, i) <= 36.0
  {
    OverRunsBounded(t[..i + 1], t[i].over);
    var runs := LocalRuns(t, i) as real;
    var balls := LocalCount(t, i) as real;
    assert runs * 6.0 <= 36.0 * balls;
    QuotientAtMost(runs * 6.0, balls, 36.0);
  }

  /** Sorting the selected rows keeps every score in the range it had in the table. */
  lemma SortedSelectionScores(df: seq<Delivery>, matchNo: int, inning: int)
    requires ScoresWithin(df, 0, 6)
    ensures ScoresWithin(SortByOverBall(Select(df, matchNo, inning)), 0, 6)
  {
    var sel := Select(df, matchNo, inning);
    var t := SortByOverBall(sel);
    forall k | 0 <= k < |t| ensures 0 <= t[k].score <= 6 {
      assert t[k] in multiset(sel);
      assert t[k] in df;
    }
  }

  /** With every score between 0 and 6, the whole `run_rate` column lies between 0 and 36. */
  lemma RunRatesBounded(t: seq<Delivery>)
    requires ScoresWithin(t, 0, 6)
    ensures forall i :: 0 <= i < |t| ==> 0.0 <= RunRates(t)[i] <= 36.0
  {
    forall i | 0 <= i < |t| ensures 0.0 <= RunRates(t)[i] <= 36.0 {
      RowRunRateBounded(t, i);
    }
  }

  /** The plotted curve follows (over, ballnumber) order, so its overs never go down. */
  lemma RunRatePlotOrder(df: seq<Delivery>, matchNo: int, inning: int)
    ensures var r := RunRatePlot(df, matchNo, inning);
      forall i, j :: 0 <= i < j < |r| ==> r[i].over <= r[j].over
  {
    var t := SortByOverBall(Select(df, matchNo, inning));
    var r := RunRatePlot(df, matchNo, inning);
    assert forall i :: 0 <= i < |r| ==> r[i].over == t[i].over;
    forall i, j | 0 <= i < j < |r| ensures r[i].over <= r[j].over {
      assert !KeyLess(t[j], t[i]);
    }
  }

  /** With every score between 0 and 6, every smoothed rate of the plotted curve lies between 0 and 36. */
  lemma RunRatePlotBounded(df: seq<Delivery>, matchNo: int, inning: int)
    requires ScoresWithin(df, 0, 6)
    ensures var r := RunRatePlot(df, matchNo, inning);
      forall i :: 0 <= i < |r| ==> 0.0 <= r[i].rate <= 36.0
  {
    var t := SortByOverBall(Select(df, matchNo, inning));
    var r := RunRatePlot(df, matchNo, inning);
    SortedSelectionScores(df, matchNo, inning);
    RunRatesBounded(t);
    var smoothed := Smooth(RunRates(t));
    SmoothBounded(RunRates(t), 0.0, 36.0);
    forall i | 0 <= i < |r| ensures 0.0 <= r[i].rate <= 36.0 {
      assert r[i].rate == smoothed[i];
    }
  }
}
