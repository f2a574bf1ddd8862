/** calculate_run_rate: whole-innings running runs, balls and run rate, added as columns of the frame. */
module InningRunRate {
  import opened Deliveries

  /** Sum of `score` over the rows of inning k. */
  function InningRuns(s: seq<Delivery>, k: int): int
  {
    if s == [] then 0
    else InningRuns(s[..|s| - 1], k) + (if s[|s| - 1].inning == k then s[|s| - 1].score else 0)
  }

  /** Number of rows of inning k. */
  function InningBalls(s: seq<Delivery>, k: int): nat
  {
    if s == [] then 0
    else InningBalls(s[..|s| - 1], k) + (if s[|s| - 1].inning == k then 1 else 0)
  }

  /** `groupby('inningno')['score'].cumsum()` at row i: row i's score plus those of the earlier rows of its inning. */
  function RunsCumulative(s: seq<Delivery>, i: nat): int
    requires i < |s|
  {
    s[i].score + InningRuns(s[..i], s[i].inning)
  }

  /** `groupby('inningno').cumcount() + 1` at row i: one more than the earlier rows of its inning. */
  function BallsCumulative(s: seq<Delivery>, i: nat): (r: int)
    requires i < |s|
    ensures 1 <= r <= i + 1
  {
    InningBallsAtMost(s[..i], s[i].inning);
    1 + InningBalls(s[..i], s[i].inning)
  }

  /** `runs_cumulative / balls_cumulative * 6` at row i. */
  function RunRate(s: seq<Delivery>, i: nat): real
    requires i < |s|
  {
    RunsCumulative(s, i) as real / BallsCumulative(s, i) as real * 6.0
  }

  lemma {:induction false} InningBallsAtMost(s: seq<Delivery>, k: int)
    ensures InningBalls(s, k) <= |s|
  {
    if s != [] {
      InningBallsAtMost(s[..|s| - 1], k);
    }
  }

  function Lookup(m: map<int, int>, k: int): int
  {
    if k in m then m[k] else 0
  }

  /** A data frame of deliveries, with the three columns calculate_run_rate writes into it. */
  class DeliveryFrame {
    var rows: seq<Delivery>
    var runsCumulative: seq<int>
    var ballsCumulative: seq<int>
    var runRate: seq<real>

    constructor (rows: seq<Delivery>)
      ensures this.rows == rows
      ensures runsCumulative == [] && ballsCumulative == [] && runRate == []
    {
      this.rows := rows;
      runsCumulative, ballsCumulative, runRate := [], [], [];
    }

    /**
     * Adds the three columns, filled in table order with one running total
     * per inning; the rows themselves are left as they were.
     */
    method CalculateRunRate()
      modifies this
      ensures rows == old(rows)
      ensures |runsCumulative| == |rows| && |ballsCumulative| == |rows| && |runRate| == |rows|
      ensures forall i :: 0 <= i < |rows| ==>
        && runsCumulative[i] == RunsCumulative(rows, i)
        && ballsCumulative[i] == BallsCumulative(rows, i)
        && runRate[i] == RunRate(rows, i)
    {
      var runsSoFar: map<int, int> := map[];
      var ballsSoFar: map<int, int> := map[];
      var runsColumn, ballsColumn, rateColumn := [], [], [];
      for i := 0 to |rows|
        invariant |runsColumn| == i && |ballsColumn| == i && |rateColumn| == i
        invariant forall k :: Lookup(runsSoFar, k) == InningRuns(rows[..i], k)
        invariant forall k :: Lookup(ballsSoFar, k) == InningBalls(rows[..i], k)
        invariant forall j :: 0 <= j < i ==>
          && runsColumn[j] == RunsCumulative(rows, j)
          && ballsColumn[j] == BallsCumulative(rows, j)
          && rateColumn[j] == RunRate(rows, j)
      {
        var d := rows[i];
        var runs := Lookup(runsSoFar, d.inning) + d.score;
        var balls := Lookup(ballsSoFar, d.inning) + 1;
        assert rows[..i + 1][..i] == rows[..i];
        assert rows[..i + 1][i] == d;
        runsSoFar := runsSoFar[d.inning := runs];
        ballsSoFar := ballsSoFar[d.inning := balls];
        runsColumn := runsColumn + [runs];
        ballsColumn := ballsColumn + [balls];
        rateColumn := rateColumn + [runs as real / balls as real * 6.0];
      }
      runsCumulative, ballsCumulative, runRate := runsColumn, ballsColumn, rateColumn;
    }
  }

  /** Two tables that agree on where inning k's rows are and what they scored. */
  predicate SameInning(s: seq<Delivery>, t: seq<Delivery>, k: int)
  {
    && |s| == |t|
    && (forall i :: 0 <= i < |s| ==> (s[i].inning == k <==> t[i].inning == k))
    && (forall i :: 0 <= i < |s| ==> s[i].inning == k ==> s[i].score == t[i].score)
  }

  lemma {:induction false} InningTotalsOnlySeeInning(s: seq<Delivery>, t: seq<Delivery>, k: int)
    requires SameInning(s, t, k)
    ensures InningRuns(s, k) == InningRuns(t, k) && InningBalls(s, k) == InningBalls(t, k)
  {
    if s != [] {
      InningTotalsOnlySeeInning(s[..|s| - 1], t[..|t| - 1], k);
    }
  }

  /**
   * A row's running runs, balls and run rate depend only on the rows of its
   * own inning: changing or re-labelling rows of other innings leaves them alone.
   */
  lemma RunRateOnlySeesOwnInning(s: seq<Delivery>, t: seq<Delivery>, i: nat)
    requires i < |s|
    requires SameInning(s, t, s[i].inning)
    ensures t[i].inning == s[i].inning
    ensures RunsCumulative(s, i) == RunsCumulative(t, i)
    ensures BallsCumulative(s, i) == BallsCumulative(t, i)
    ensures RunRate(s, i) == RunRate(t, i)
  {
    InningTotalsOnlySeeInning(s[..i], t[..i], s[i].inning);
  }

  lemma {:induction false} InningRunsBounded(s: seq<Delivery>, k: int)
    requires ScoresWithin(s, 0, 6)
    ensures 0 <= InningRuns(s, k) <= 6 * InningBalls(s, k)
  {
    if s != [] {
      InningRunsBounded(s[..|s| - 1], k);
    }
  }

  /** With every score between 0 and 6, the whole-innings run rate stays between 0 and 36. */
  lemma RunRateBounded(s: seq<Delivery>, i: nat)
    requires i < |s|
    requires ScoresWithin(s, 0, 6)
    ensures 0.0 <= RunRate(s, i) <= 36.0
  {
    InningRunsBounded(s[..i], s[i].inning);
    var runs := RunsCumulative(s, i) as real;
    var balls := BallsCumulative(s, i) as real;
    assert 0.0 <= runs <= 6.0 * balls;
    QuotientAtMost(runs, balls, 6.0);
  }
}
