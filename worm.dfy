/** The aggregation behind the worm chart: cumulative runs at each over that occurs. */
module Worm {
  import opened Deliveries

  /** One point of the worm: an over that occurs and the runs scored up to and including it. */
  datatype WormPoint = WormPoint(over: real, runs: int)

  predicate StrictlyAscending(keys: seq<real>)
  {
    forall i, j :: 0 <= i < j < |keys| ==> keys[i] < keys[j]
  }

  /** The over values the rows carry, as a set. */
  function OverValues(s: seq<Delivery>): set<real>
  {
    set d | d in s :: d.over
  }

  /** Sum of `score` over the rows bowled in over o or earlier. */
  function ScoreUpTo(s: seq<Delivery>, o: real): int
  {
    if s == [] then 0
    else ScoreUpTo(s[..|s| - 1], o) + (if s[|s| - 1].over <= o then s[|s| - 1].score else 0)
  }

  /** Adds a key to an ascending key list, keeping it ascending and free of repeats. */
  function InsertKey(keys: seq<real>, x: real): (r: seq<real>)
    requires StrictlyAscending(keys)
    ensures StrictlyAscending(r)
    ensures forall y :: y in r <==> y in keys || y == x
  {
    if keys == [] then [x]
    else if x < keys[0] then [x] + keys
    else if x == keys[0] then keys
    else
      var rest := InsertKey(keys[1..], x);
      assert forall j :: 0 <= j < |rest| ==> rest[j] in keys[1..] || rest[j] == x;
      assert forall j :: 0 <= j < |keys| - 1 ==> keys[1..][j] == keys[j + 1];
      [keys[0]] + rest
  }

  /** The group keys of `groupby('over')`: the distinct over values present, ascending. */
  function OversPresent(s: seq<Delivery>): (r: seq<real>)
    ensures StrictlyAscending(r)
    ensures forall y :: y in r <==> y in OverValues(s)
  {
    if s == [] then []
    else
      var init := s[..|s| - 1];
      assert s == init + [s[|s| - 1]];
      assert OverValues(s) == OverValues(init) + {s[|s| - 1].over};
      InsertKey(OversPresent(init), s[|s| - 1].over)
  }

  /** `cumsum()`: a running total, carried forward one entry at a time. */
  function CumSum(xs: seq<int>): (r: seq<int>)
    ensures |r| == |xs|
  {
    if xs == [] then []
    else
      var prev := CumSum(xs[..|xs| - 1]);
      prev + [(if prev == [] then 0 else prev[|prev| - 1]) + xs[|xs| - 1]]
  }

  /** Entry i of the running total is the sum of entries 0..i. */
  lemma {:induction false} CumSumIsPrefixSum(xs: seq<int>, i: nat)
    requires i < |xs|
    ensures CumSum(xs)[i] == Sum(xs[..i + 1])
  {
    var init := xs[..|xs| - 1];
    if i < |init| {
      CumSumIsPrefixSum(init, i);
      assert init[..i + 1] == xs[..i + 1];
    } else if init != [] {
      CumSumIsPrefixSum(init, |init| - 1);
      assert init[..|init|] == init;
      assert xs[..i + 1] == xs;
    } else {
      assert xs[..i + 1] == xs;
    }
  }

  /** The aggregation part of create_worm_chart. */
  function WormChart(df: seq<Delivery>, matchNo: int, inning: int): seq<WormPoint>
  {
    var subset := Select(df, matchNo, inning);
    var keys := OversPresent(subset);
    var cumulative := CumSum(GroupSums(subset, keys));
    seq(|keys|, i requires 0 <= i < |keys| => WormPoint(keys[i], cumulative[i]))
  }

  /** Rows whose over is among the first keys are exactly the rows bowled up to the last of them. */
  lemma {:induction false} PrefixKeysScore(s: seq<Delivery>, keys: seq<real>, o: real)
    requires forall i :: 0 <= i < |s| ==> (s[i].over in keys <==> s[i].over <= o)
    ensures ScoreWithOverIn(s, keys) == ScoreUpTo(s, o)
  {
    if s != [] {
      PrefixKeysScore(s[..|s| - 1], keys, o);
    }
  }

  lemma GroupSumsPrefix(s: seq<Delivery>, keys: seq<real>, n: nat)
    requires n <= |keys|
    ensures GroupSums(s, keys)[..n] == GroupSums(s, keys[..n])
  {
  }

  /**
   * The worm chart has one point per over that occurs, in strictly ascending
   * over order, with no point for an over that is absent, and the point at
   * over o carries the total score of every row bowled in over o or earlier.
   */
  lemma WormChartMeaning(df: seq<Delivery>, matchNo: int, inning: int)
    ensures var r := WormChart(df, matchNo, inning);
      && (forall i, j :: 0 <= i < j < |r| ==> r[i].over < r[j].over)
      && (forall o :: o in OverValues(Select(df, matchNo, inning)) <==> exists i :: 0 <= i < |r| && r[i].over == o)
      && (forall i :: 0 <= i < |r| ==> r[i].runs == ScoreUpTo(Select(df, matchNo, inning), r[i].over))
  {
    var subset := Select(df, matchNo, inning);
    var keys := OversPresent(subset);
    var r := WormChart(df, matchNo, inning);
    forall o | o in OverValues(subset) ensures exists i :: 0 <= i < |r| && r[i].over == o {
      var i :| 0 <= i < |keys| && keys[i] == o;
      assert r[i].over == o;
    }
    forall i | 0 <= i < |r| ensures r[i].runs == ScoreUpTo(subset, r[i].over) {
      var prefix := keys[..i + 1];
      CumSumIsPrefixSum(GroupSums(subset, keys), i);
      GroupSumsPrefix(subset, keys, i + 1);
      GroupSumsTotal(subset, prefix);
      forall j | 0 <= j < |subset| ensures subset[j].over in prefix <==> subset[j].over <= keys[i] {
        assert subset[j] in subset;
        assert subset[j].over in OverValues(subset);
      }
      PrefixKeysScore(subset, prefix, keys[i]);
    }
  }

  /** With no negative scores, the runs grow with the over. */
  lemma {:induction false} ScoreUpToMonotone(s: seq<Delivery>, o1: real, o2: real)
    requires o1 <= o2
    requires forall i :: 0 <= i < |s| ==> 0 <= s[i].score
    ensures ScoreUpTo(s, o1) <= ScoreUpTo(s, o2)
  {
    if s != [] {
      ScoreUpToMonotone(s[..|s| - 1], o1, o2);
    }
  }

  /** When no score is negative the worm never goes down. */
  lemma WormNonDecreasing(df: seq<Delivery>, matchNo: int, inning: int)
    requires forall i :: 0 <= i < |df| ==> 0 <= df[i].score
    ensures var r := WormChart(df, matchNo, inning);
      forall i, j :: 0 <= i <= j < |r| ==> r[i].runs <= r[j].runs
  {
    var subset := Select(df, matchNo, inning);
    var r := WormChart(df, matchNo, inning);
    WormChartMeaning(df, matchNo, inning);
    forall k | 0 <= k < |subset| ensures 0 <= subset[k].score {
      assert subset[k] in multiset(subset);
      assert subset[k] in df;
    }
    forall i, j | 0 <= i <= j < |r| ensures r[i].runs <= r[j].runs {
      ScoreUpToMonotone(subset, r[i].over, r[j].over);
    }
  }

  /** The running total over every present over ends at the total score. */
  lemma CumSumReachesTotal(subset: seq<Delivery>)
    requires subset != []
    ensures var sums := GroupSums(subset, OversPresent(subset));
      |sums| >= 1 && CumSum(sums)[|sums| - 1] == TotalScore(subset)
  {
    var keys := OversPresent(subset);
    var sums := GroupSums(subset, keys);
    assert subset[0] in subset;
    assert subset[0].over in OverValues(subset);
    CumSumIsPrefixSum(sums, |keys| - 1);
    assert sums[..|keys|] == sums;
    GroupSumsTotal(subset, keys);
    forall i | 0 <= i < |subset| ensures subset[i].over in keys {
      assert subset[i] in subset;
      assert subset[i].over in OverValues(subset);
    }
    CoveredScore(subset, keys);
  }

  /** The worm ends at the total score of the match and inning, and is empty when they have no rows. */
  lemma WormEndsAtTotal(df: seq<Delivery>, matchNo: int, inning: int)
    ensures var r := WormChart(df, matchNo, inning);
      && (r == [] <==> Select(df, matchNo, inning) == [])
      && (r != [] ==> r[|r| - 1].runs == TotalScore(Select(df, matchNo, inning)))
  {
    var subset := Select(df, matchNo, inning);
    if subset != [] {
      CumSumReachesTotal(subset);
    }
  }
}
