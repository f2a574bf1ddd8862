/** create_match_summary_pdf: the per-batter batting table of each inning. */
module MatchSummary {
  import opened Deliveries

  /** The aggregates the batting query reports for one batter. */
  datatype BatterStats = BatterStats(runs: int, balls: nat, fours: nat, sixes: nat)

  /** A row of an inning's table: the column header, or one batter's line. */
  datatype SummaryRow =
    | Header
    | BatterLine(batter: string, runs: int, ballsFaced: nat, fours: nat, sixes: nat, strikeRate: real)

  /** The query's WHERE clause: this match and inning, and not a wicket ball. */
  predicate Counted(d: Delivery, matchNo: int, inning: int)
  {
    d.matchNo == matchNo && d.inning == inning && d.outcome != W
  }

  /** The rows of one batter that the query counts, in table order. */
  function BatterRows(s: seq<Delivery>, matchNo: int, inning: int, batter: string): seq<Delivery>
  {
    if s == [] then []
    else
      var d := s[|s| - 1];
      BatterRows(s[..|s| - 1], matchNo, inning, batter)
        + (if Counted(d, matchNo, inning) && d.batter == batter then [d] else [])
  }

  /** One more ball into a batter's aggregates. */
  function AddBall(st: BatterStats, d: Delivery): BatterStats
  {
    BatterStats(
      st.runs + d.score,
      st.balls + 1,
      st.fours + (if d.score == 4 then 1 else 0),
      st.sixes + (if d.score == 6 then 1 else 0))
  }

  /** SUM(score), COUNT(*), and the two CASE sums, over a batter's rows. */
  function StatsOf(rows: seq<Delivery>): BatterStats
  {
    if rows == [] then BatterStats(0, 0, 0, 0) else AddBall(StatsOf(rows[..|rows| - 1]), rows[|rows| - 1])
  }

  function Lookup(q: map<string, BatterStats>, batter: string): BatterStats
  {
    if batter in q then q[batter] else BatterStats(0, 0, 0, 0)
  }

  /** The batting query `... GROUP BY batter`, as one pass over the table that updates a map. */
  function BattingQuery(s: seq<Delivery>, matchNo: int, inning: int): map<string, BatterStats>
  {
    if s == [] then map[]
    else
      var q := BattingQuery(s[..|s| - 1], matchNo, inning);
      var d := s[|s| - 1];
      if Counted(d, matchNo, inning) then q[d.batter := AddBall(Lookup(q, d.batter), d)] else q
  }

  /** Line 155: runs per hundred balls, and 0 when no ball was faced. */
  function StrikeRate(runs: int, balls: nat): (r: real)
    ensures balls == 0 ==> r == 0.0
    ensures balls > 0 ==> r * balls as real == runs as real * 100.0
  {
    if balls > 0 then runs as real / balls as real * 100.0 else 0.0
  }

  function LineFor(batter: string, st: BatterStats): SummaryRow
  {
    BatterLine(batter, st.runs, st.balls, st.fours, st.sixes, StrikeRate(st.runs, st.balls))
  }

  /** The table of one inning: the header, then exactly one line per batter of the query, in any order. */
  predicate IsInningTable(rows: seq<SummaryRow>, q: map<string, BatterStats>)
  {
    && |rows| >= 1
    && rows[0] == Header
    && (forall j :: 1 <= j < |rows| ==> rows[j].BatterLine? && rows[j].batter in q && rows[j] == LineFor(rows[j].batter, q[rows[j].batter]))
    && (forall i, j :: 1 <= i < j < |rows| ==> rows[i].BatterLine? && rows[j].BatterLine? && rows[i].batter != rows[j].batter)
    && BattersOf(rows) == q.Keys
  }

  /** The batters named by the lines of a table. */
  function BattersOf(rows: seq<SummaryRow>): set<string>
  {
    set j | 1 <= j < |rows| && rows[j].BatterLine? :: rows[j].batter
  }

  lemma BattersOfAppend(rows: seq<SummaryRow>, line: SummaryRow)
    requires |rows| >= 1 && line.BatterLine?
    ensures BattersOf(rows + [line]) == BattersOf(rows) + {line.batter}
  {
    var longer := rows + [line];
    forall b | b in BattersOf(longer) ensures b in BattersOf(rows) + {line.batter} {
      var j :| 1 <= j < |longer| && longer[j].BatterLine? && longer[j].batter == b;
      if j < |rows| {
        assert rows[j] == longer[j];
      }
    }
    forall b | b in BattersOf(rows) ensures b in BattersOf(longer) {
      var j :| 1 <= j < |rows| && rows[j].BatterLine? && rows[j].batter == b;
      assert longer[j] == rows[j];
    }
    assert longer[|rows|] == line;
  }

  /**
   * The loop of create_match_summary_pdf: for innings 1 and 2, a header row
   * followed by one appended line per row of the batting query. The query
   * does not fix the order of its rows, so neither does this.
   */
  method SummaryTables(table: seq<Delivery>, matchNo: int) returns (elements: seq<seq<SummaryRow>>)
    ensures |elements| == 2
    ensures forall t :: 0 <= t < 2 ==> IsInningTable(elements[t], BattingQuery(table, matchNo, t + 1))
  {
    elements := [];
    for inning := 1 to 3
      invariant |elements| == inning - 1
      invariant forall t :: 0 <= t < |elements| ==> IsInningTable(elements[t], BattingQuery(table, matchNo, t + 1))
    {
      var stats := BattingQuery(table, matchNo, inning);
      var data := [Header];
      var remaining := stats.Keys;
      while remaining != {}
        invariant remaining <= stats.Keys
        invariant |data| >= 1 && data[0] == Header
        invariant forall j :: 1 <= j < |data| ==>
          data[j].BatterLine? && data[j].batter in stats.Keys - remaining
          && data[j] == LineFor(data[j].batter, stats[data[j].batter])
        invariant forall i, j :: 1 <= i < j < |data| ==> data[i].BatterLine? && data[j].BatterLine? && data[i].batter != data[j].batter
        invariant BattersOf(data) == stats.Keys - remaining
        decreases remaining
      {
        var batter :| batter in remaining;
        var st := stats[batter];
        var strikeRate := if st.balls > 0 then st.runs as real / st.balls as real * 100.0 else 0.0;
        var line := BatterLine(batter, st.runs, st.balls, st.fours, st.sixes, strikeRate);
        BattersOfAppend(data, line);
        data := data + [line];
        remaining := remaining - {batter};
      }
      elements := elements + [data];
    }
  }

  /**
   * The one-pass query agrees with the per-batter definition: a batter has a
   * row exactly when some counted ball is theirs, and the row holds the
   * aggregates of exactly those balls.
   */
  lemma {:induction false} BattingQueryMeaning(s: seq<Delivery>, matchNo: int, inning: int, batter: string)
    ensures batter in BattingQuery(s, matchNo, inning) <==> BatterRows(s, matchNo, inning, batter) != []
    ensures Lookup(BattingQuery(s, matchNo, inning), batter) == StatsOf(BatterRows(s, matchNo, inning, batter))
  {
    if s != [] {
      var init := s[..|s| - 1];
      var d := s[|s| - 1];
      var rows := BatterRows(init, matchNo, inning, batter);
      BattingQueryMeaning(init, matchNo, inning, batter);
      if Counted(d, matchNo, inning) && d.batter == batter {
        assert (rows + [d])[..|rows|] == rows;
      } else {
        assert rows + [] == rows;
      }
    }
  }

  lemma {:induction false} BoundariesWithinBalls(rows: seq<Delivery>)
    ensures StatsOf(rows).fours + StatsOf(rows).sixes <= StatsOf(rows).balls
    ensures ScoresWithin(rows, 0, 6) ==> 4 * StatsOf(rows).fours + 6 * StatsOf(rows).sixes <= StatsOf(rows).runs
  {
    if rows != [] {
      BoundariesWithinBalls(rows[..|rows| - 1]);
    }
  }

  /**
   * Every line of the batting table is consistent: fours and sixes never
   * outnumber the balls faced, a batter who appears has faced at least one
   * ball, so the zero guard of the strike rate is never taken for a listed
   * batter.
   */
  lemma {:induction false} BatterLineConsistent(s: seq<Delivery>, matchNo: int, inning: int, batter: string)
    requires batter in BattingQuery(s, matchNo, inning)
    ensures var st := BattingQuery(s, matchNo, inning)[batter];
      && st.fours + st.sixes <= st.balls
      && st.balls >= 1
  {
    var rows := BatterRows(s, matchNo, inning, batter);
    BattingQueryMeaning(s, matchNo, inning, batter);
    BoundariesWithinBalls(rows);
  }

  /** A batter who scores 4, 1 and 6 off three balls: 11 runs, 3 balls, one four, one six, strike rate 1100/3. */
  lemma ThreeBallExample()
    ensures
      var s := [Delivery(1, 1, 1.0, 1, "A", 4, Num(4)),
                Delivery(1, 1, 1.0, 2, "A", 1, Num(1)),
                Delivery(1, 1, 1.0, 3, "A", 6, Num(6))];
      && BattingQuery(s, 1, 1) == map["A" := BatterStats(11, 3, 1, 1)]
      && StrikeRate(11, 3) == 1100.0 / 3.0
  {
    var s := [Delivery(1, 1, 1.0, 1, "A", 4, Num(4)),
              Delivery(1, 1, 1.0, 2, "A", 1, Num(1)),
              Delivery(1, 1, 1.0, 3, "A", 6, Num(6))];
    assert s[..2][..1][..0] == [];
    assert s[..2][..1] == s[..1];
    assert s[..3] == s;
    assert BattingQuery(s[..1], 1, 1) == map["A" := BatterStats(4, 1, 1, 0)];
    assert BattingQuery(s[..2], 1, 1) == map["A" := BatterStats(5, 2, 1, 0)];
  }
}
