/** The aggregation behind the Manhattan chart: runs per over, a per-over count and wicket markers. */
module Manhattan {
  import opened Deliveries

  /** The three series the chart is drawn from. */
  datatype ManhattanSeries = ManhattanSeries(
    runs: seq<int>,         // score summed per over, overs 1..20
    ones: seq<nat>,         // rows whose outcome equals the number 1, per over 1..20
    wicketOvers: seq<real>) // the over of every 'w' row, in table order

  /** The fixed x-axis: overs 1 to 20. */
  function Overs(): seq<real>
  {
    seq(20, i => (i + 1) as real)
  }

  /** The over column replaced by its truncation to an integer. */
  function TruncateOvers(s: seq<Delivery>): seq<Delivery>
  {
    seq(|s|, i requires 0 <= i < |s| => s[i].(over := Trunc(s[i].over) as real))
  }

  /** Rows of over o whose outcome compares equal to the number 1. */
  function OverOnes(s: seq<Delivery>, o: real): nat
  {
    if s == [] then 0
    else
      var d := s[|s| - 1];
      OverOnes(s[..|s| - 1], o) + (if d.over == o && d.outcome == Num(1) then 1 else 0)
  }

  /** Rows of over o that carry the wicket marker. */
  function OverWickets(s: seq<Delivery>, o: real): nat
  {
    if s == [] then 0
    else
      var d := s[|s| - 1];
      OverWickets(s[..|s| - 1], o) + (if d.over == o && d.outcome == W then 1 else 0)
  }

  /** The over value of every wicket row, in table order. */
  function WicketOvers(s: seq<Delivery>): seq<real>
  {
    if s == [] then []
    else
      var d := s[|s| - 1];
      WicketOvers(s[..|s| - 1]) + (if d.outcome == W then [d.over] else [])
  }

  function Occurrences(xs: seq<real>, x: real): nat
  {
    if xs == [] then 0 else Occurrences(xs[..|xs| - 1], x) + (if xs[|xs| - 1] == x then 1 else 0)
  }

  /** The aggregation part of create_manhattan_plot: None when the inning is neither 1 nor 2. */
  function ManhattanAggregate(df: seq<Delivery>, matchNo: int, inning: int): (r: Option<ManhattanSeries>)
    ensures r.None? <==> inning != 1 && inning != 2
    ensures r.Some? ==> |r.value.runs| == 20 && |r.value.ones| == 20
  {
    if inning != 1 && inning != 2 then None
    else
      var t := TruncateOvers(Select(df, matchNo, inning));
      var keys := Overs();
      Some(ManhattanSeries(
        GroupSums(t, keys),
        seq(|keys|, i requires 0 <= i < |keys| => OverOnes(t, keys[i])),
        WicketOvers(t)))
  }

  /**
   * Entry k - 1 of each series is over k's value: the score summed, and the
   * rows counted, over the rows of the match and inning whose truncated over is k.
   */
  lemma ManhattanEntries(df: seq<Delivery>, matchNo: int, inning: int)
    requires inning == 1 || inning == 2
    ensures var r := ManhattanAggregate(df, matchNo, inning);
      var t := TruncateOvers(Select(df, matchNo, inning));
      && r.Some?
      && (forall i :: 0 <= i < 20 ==> r.value.runs[i] == OverRuns(t, (i + 1) as real))
      && (forall i :: 0 <= i < 20 ==> r.value.ones[i] == OverOnes(t, (i + 1) as real))
  {
    var keys := Overs();
    assert forall i :: 0 <= i < 20 ==> keys[i] == (i + 1) as real;
  }

  /**
   * The runs series adds up to the score of exactly those rows of the match
   * and inning whose truncated over lies in 1..20: rows outside that range
   * contribute nothing, and none is counted twice.
   */
  lemma ManhattanRunsTotal(df: seq<Delivery>, matchNo: int, inning: int)
    requires inning == 1 || inning == 2
    ensures ManhattanAggregate(df, matchNo, inning).Some?
    ensures Sum(ManhattanAggregate(df, matchNo, inning).value.runs) ==
            ScoreWithOverIn(TruncateOvers(Select(df, matchNo, inning)), Overs())
  {
    GroupSumsTotal(TruncateOvers(Select(df, matchNo, inning)), Overs());
  }

  /** An over in which no row of the match and inning falls gets a zero bar, not a missing one. */
  lemma ManhattanZeroFill(df: seq<Delivery>, matchNo: int, inning: int, k: int)
    requires inning == 1 || inning == 2
    requires 1 <= k <= 20
    requires forall d :: d in Select(df, matchNo, inning) ==> Trunc(d.over) != k
    ensures ManhattanAggregate(df, matchNo, inning).value.runs[k - 1] == 0
    ensures ManhattanAggregate(df, matchNo, inning).value.ones[k - 1] == 0
  {
    var sel := Select(df, matchNo, inning);
    var t := TruncateOvers(sel);
    ManhattanEntries(df, matchNo, inning);
    forall i | 0 <= i < |t| ensures t[i].over != k as real {
      assert sel[i] in sel;
    }
    AbsentOver(t, k as real);
    OnesWithinCount(t, k as real);
  }

  lemma {:induction false} OnesWithinCount(s: seq<Delivery>, o: real)
    ensures OverOnes(s, o) <= OverCount(s, o)
  {
    if s != [] {
      OnesWithinCount(s[..|s| - 1], o);
    }
  }

  /** Every wicket row contributes one marker, so the marker list is as long as the count of wicket rows. */
  lemma {:induction false} MarkersPerWicket(s: seq<Delivery>, o: real)
    ensures Occurrences(WicketOvers(s), o) == OverWickets(s, o)
  {
    if s != [] {
      var d := s[|s| - 1];
      var init := WicketOvers(s[..|s| - 1]);
      MarkersPerWicket(s[..|s| - 1], o);
      if d.outcome == W {
        assert (init + [d.over])[..|init|] == init;
      } else {
        assert init + [] == init;
      }
    }
  }

  /**
   * A wicket row is never counted by the `outcome == 1` series: in any over,
   * the rows it counts and the wicket rows together are at most the over's rows.
   */
  lemma {:induction false} OnesAndWicketsDisjoint(s: seq<Delivery>, o: real)
    ensures OverOnes(s, o) + OverWickets(s, o) <= OverCount(s, o)
  {
    if s != [] {
      OnesAndWicketsDisjoint(s[..|s| - 1], o);
    }
  }

  /** The example table: a four and then a wicket, both in over 1 of match 10, inning 1. */
  function FourThenWicket(): seq<Delivery>
  {
    [Delivery(10, 1, 1.0, 1, "A", 4, Num(4)), Delivery(10, 1, 1.0, 2, "A", 0, W)]
  }

  lemma FourThenWicketSelected()
    ensures TruncateOvers(Select(FourThenWicket(), 10, 1)) == FourThenWicket()
  {
    var df := FourThenWicket();
    assert df[..1][..0] == [];
    assert df[..1] == [df[0]];
    assert Select(df[..1], 10, 1) == [df[0]];
  }

  /**
   * The count series as written: a four and a wicket in over 1 give 4 runs in
   * over 1 and a wicket marker at over 1, yet a count of 0 in over 1, because
   * the count looks for the number 1 and not for the wicket marker.
   */
  lemma OnesCountMissesWickets()
    ensures
      var r := ManhattanAggregate(FourThenWicket(), 10, 1);
      && r.Some?
      && r.value.runs[0] == 4
      && (forall i :: 1 <= i < 20 ==> r.value.runs[i] == 0)
      && r.value.wicketOvers == [1.0]
      && r.value.ones[0] == 0
  {
    var t := FourThenWicket();
    FourThenWicketSelected();
    ManhattanEntries(t, 10, 1);
    assert t[..1][..0] == [];
    assert t[..1] == [t[0]];
    assert OverRuns(t, 1.0) == 4;
    assert OverOnes(t, 1.0) == 0;
    assert WicketOvers(t[..1]) == [];
    forall o: real | o != 1.0 ensures OverRuns(t, o) == 0 {
      AbsentOver(t, o);
    }
  }

  /** The per-over wicket count the chart's legend promises: rows carrying the wicket marker. */
  function WicketsPerOver(df: seq<Delivery>, matchNo: int, inning: int): (r: Option<seq<nat>>)
    ensures r.None? <==> inning != 1 && inning != 2
    ensures r.Some? ==> |r.value| == 20
  {
    if inning != 1 && inning != 2 then None
    else
      var t := TruncateOvers(Select(df, matchNo, inning));
      Some(seq(20, i requires 0 <= i < 20 => OverWickets(t, (i + 1) as real)))
  }

  /**
   * The corrected count agrees with the markers: over k's count is the number
   * of markers placed at k, so the two series the chart shows never disagree.
   */
  lemma WicketsMatchMarkers(df: seq<Delivery>, matchNo: int, inning: int, k: int)
    requires inning == 1 || inning == 2
    requires 1 <= k <= 20
    ensures WicketsPerOver(df, matchNo, inning).value[k - 1] ==
            Occurrences(ManhattanAggregate(df, matchNo, inning).value.wicketOvers, k as real)
  {
    MarkersPerWicket(TruncateOvers(Select(df, matchNo, inning)), k as real);
  }
}
