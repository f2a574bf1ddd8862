/** Delivery records and the grouped sums the charts and the summary share. */
module Deliveries {

  datatype Option<T> = None | Some(value: T)

  /** The `outcome` column: a number, or the wicket marker 'w'. */
  datatype Outcome = Num(value: int) | W

  /** One ball bowled: one row of the delivery table. */
  datatype Delivery = Delivery(
    matchNo: int,
    inning: int,
    over: real,
    ballNumber: int,
    batter: string,
    score: int,
    outcome: Outcome)

  /** Python's int() applied to a float: truncation toward zero. */
  function Trunc(x: real): (t: int)
    ensures 0.0 <= x ==> 0 <= t && t as real <= x < t as real + 1.0
    ensures x < 0.0 ==> t <= 0 && t as real - 1.0 < x <= t as real
  {
    if x >= 0.0 then x.Floor else -((-x).Floor)
  }

  /** The boolean mask `match_no == m & inningno == i`: the matching rows in table order. */
  function Select(s: seq<Delivery>, matchNo: int, inning: int): (r: seq<Delivery>)
    ensures |r| <= |s|
    ensures forall d :: multiset(r)[d] ==
                        (if d.matchNo == matchNo && d.inning == inning then multiset(s)[d] else 0)
  {
    if s == [] then []
    else
      var init := Select(s[..|s| - 1], matchNo, inning);
      var d := s[|s| - 1];
      assert s == s[..|s| - 1] + [d];
      if d.matchNo == matchNo && d.inning == inning then init + [d] else init
  }

  /** Sum of `score` over every row. */
  function TotalScore(s: seq<Delivery>): int
  {
    if s == [] then 0 else TotalScore(s[..|s| - 1]) + s[|s| - 1].score
  }

  /** `groupby('over')['score'].sum()` read at key o, with 0 for an absent key. */
  function OverRuns(s: seq<Delivery>, o: real): int
  {
    if s == [] then 0
    else OverRuns(s[..|s| - 1], o) + (if s[|s| - 1].over == o then s[|s| - 1].score else 0)
  }

  /** `groupby('over').size()` read at key o, with 0 for an absent key. */
  function OverCount(s: seq<Delivery>, o: real): nat
  {
    if s == [] then 0
    else OverCount(s[..|s| - 1], o) + (if s[|s| - 1].over == o then 1 else 0)
  }

  /** Sum of `score` over the rows whose over is one of the keys. */
  function ScoreWithOverIn(s: seq<Delivery>, keys: seq<real>): int
  {
    if s == [] then 0
    else ScoreWithOverIn(s[..|s| - 1], keys) + (if s[|s| - 1].over in keys then s[|s| - 1].score else 0)
  }

  function Sum(xs: seq<int>): int
  {
    if xs == [] then 0 else Sum(xs[..|xs| - 1]) + xs[|xs| - 1]
  }

  /** The per-over score sums read at the given keys, in key order. */
  function GroupSums(s: seq<Delivery>, keys: seq<real>): seq<int>
  {
    seq(|keys|, i requires 0 <= i < |keys| => OverRuns(s, keys[i]))
  }

  predicate Distinct(keys: seq<real>)
  {
    forall i, j :: 0 <= i < j < |keys| ==> keys[i] != keys[j]
  }

  predicate ScoresWithin(s: seq<Delivery>, lo: int, hi: int)
  {
    forall i :: 0 <= i < |s| ==> lo <= s[i].score <= hi
  }

  /** A quotient by a positive number is at most c when the dividend is at most c times the divisor. */
  lemma QuotientAtMost(x: real, y: real, c: real)
    requires 0.0 < y && x <= c * y
    ensures x / y <= c
  {
    var q := x / y;
    assert q * y == x;
    if q > c {
      assert (q - c) * y > 0.0;
    }
  }

  /** An over that no row carries has no runs and no balls. */
  lemma {:induction false} AbsentOver(s: seq<Delivery>, o: real)
    requires forall i :: 0 <= i < |s| ==> s[i].over != o
    ensures OverRuns(s, o) == 0 && OverCount(s, o) == 0
  {
    if s != [] {
      AbsentOver(s[..|s| - 1], o);
    }
  }

  /** With every score in 0..6, an over's runs lie between 0 and six per ball. */
  lemma {:induction false} OverRunsBounded(s: seq<Delivery>, o: real)
    requires ScoresWithin(s, 0, 6)
    ensures 0 <= OverRuns(s, o) <= 6 * OverCount(s, o)
  {
    if s != [] {
      OverRunsBounded(s[..|s| - 1], o);
    }
  }

  /** Adding one row to the table adds its score to the one over it belongs to. */
  lemma {:induction false} GroupSumsSnoc(s: seq<Delivery>, d: Delivery, keys: seq<real>)
    requires Distinct(keys)
    ensures Sum(GroupSums(s + [d], keys)) ==
      Sum(GroupSums(s, keys)) + (if d.over in keys then d.score else 0)
  {
    if keys != [] {
      var ks := keys[..|keys| - 1];
      assert (s + [d])[..|s|] == s;
      assert GroupSums(s + [d], keys)[..|ks|] == GroupSums(s + [d], ks);
      assert GroupSums(s, keys)[..|ks|] == GroupSums(s, ks);
      assert keys == ks + [keys[|keys| - 1]];
      GroupSumsSnoc(s, d, ks);
    }
  }

  /** No rows: every grouped sum is zero. */
  lemma {:induction false} GroupSumsOfNothing(keys: seq<real>)
    ensures Sum(GroupSums([], keys)) == 0
  {
    if keys != [] {
      assert GroupSums([], keys)[..|keys| - 1] == GroupSums([], keys[..|keys| - 1]);
      GroupSumsOfNothing(keys[..|keys| - 1]);
    }
  }

  /**
   * Summing the per-over totals over distinct keys gives the total score of
   * the rows whose over is one of those keys: every such row is counted once
   * and every other row not at all.
   */
  lemma {:induction false} GroupSumsTotal(s: seq<Delivery>, keys: seq<real>)
    requires Distinct(keys)
    ensures Sum(GroupSums(s, keys)) == ScoreWithOverIn(s, keys)
  {
    if s == [] {
      GroupSumsOfNothing(keys);
    } else {
      var init := s[..|s| - 1];
      assert s == init + [s[|s| - 1]];
      GroupSumsTotal(init, keys);
      GroupSumsSnoc(init, s[|s| - 1], keys);
    }
  }

  /** When the keys cover every row's over, the restricted sum is the whole total. */
  lemma {:induction false} CoveredScore(s: seq<Delivery>, keys: seq<real>)
    requires forall i :: 0 <= i < |s| ==> s[i].over in keys
    ensures ScoreWithOverIn(s, keys) == TotalScore(s)
  {
    if s != [] {
      CoveredScore(s[..|s| - 1], keys);
    }
  }
}
