/** The best-of loop shared by `GetAppropriateCombatMusic` and
    `GetAppropriateClearedMusic` (src/hooks/hooks.cpp), stated over the
    sequence of match degrees of a pool, in pool order.

    `RankPrefix` is the loop as written, one candidate at a time;
    `IsWinner` and `NoWinner` say declaratively which candidate it ends on,
    and `RankCharacterised` proves the two agree. */
module Ranking {
  import opened Common

  /** `PriorityLevel`: a HIGH match outranks any LOW match, whatever the scores. */
  datatype PriorityLevel = LOW | HIGH

  /** What `MatchDegree()` returns for one candidate: its tier and its score. */
  datatype MatchDegree = MatchDegree(level: PriorityLevel, score: int)

  /** The loop variables after some prefix of the pool: `best` is the index of
      the candidate whose music is in `newMusic` (None while `newMusic` is
      null), `bestMatch` and `bestPriorityLevel` as in the source. */
  datatype Ranking = Ranking(best: Option<nat>, bestMatch: int, bestPriorityLevel: PriorityLevel)

  /** The loop variables before the first candidate. */
  const Initial: Ranking := Ranking(None, 0, LOW)

  /** One iteration of the loop on candidate `i`, whose degree is `d`. */
  function Step(r: Ranking, i: nat, d: MatchDegree): (r': Ranking)
    requires r.best.Some? ==> r.best.value < i
    // once the best tier is HIGH it stays HIGH
    ensures r.bestPriorityLevel == HIGH ==> r'.bestPriorityLevel == HIGH
    // a LOW candidate is skipped once the best tier is HIGH
    ensures r.bestPriorityLevel == HIGH && d.level == LOW ==> r' == r
    // the first HIGH candidate is taken whatever its score
    ensures r.bestPriorityLevel == LOW && d.level == HIGH ==> r' == Ranking(Some(i), d.score, HIGH)
    // within the current tier only a strictly greater score replaces the best
    ensures d.level == r.bestPriorityLevel ==>
              r'.bestPriorityLevel == r.bestPriorityLevel &&
              (r'.best == Some(i) <==> r.bestMatch < d.score) &&
              (r'.best == Some(i) ==> r'.bestMatch == d.score) &&
              (r'.best != Some(i) ==> r' == r)
  {
    if d.level == HIGH && r.bestPriorityLevel == LOW then
      Ranking(Some(i), d.score, HIGH)
    else if d.level == LOW && r.bestPriorityLevel == HIGH then
      r
    else if r.bestMatch < d.score then
      Ranking(Some(i), d.score, r.bestPriorityLevel)
    else
      r
  }

  /** The loop variables after the first `n` candidates. */
  function RankPrefix(ds: seq<MatchDegree>, n: nat): (r: Ranking)
    requires n <= |ds|
    ensures r.best.Some? ==> r.best.value < n
    ensures r.bestPriorityLevel == HIGH ==> r.best.Some?
  {
    if n == 0 then Initial else Step(RankPrefix(ds, n - 1), n - 1, ds[n - 1])
  }

  /** Some candidate among the first `n` is HIGH. */
  ghost predicate HasHigh(ds: seq<MatchDegree>, n: nat)
    requires n <= |ds|
  {
    exists j :: 0 <= j < n && ds[j].level == HIGH
  }

  /** Candidate `k` is the one the first `n` candidates should select: if any of
      them is HIGH, the earliest HIGH candidate with the largest HIGH score;
      otherwise the earliest candidate with the largest score, when that score
      is positive. */
  ghost predicate IsWinner(ds: seq<MatchDegree>, n: nat, k: int)
    requires n <= |ds|
  {
    && 0 <= k < n
    && if HasHigh(ds, n) then
         && ds[k].level == HIGH
         && forall j :: 0 <= j < n && ds[j].level == HIGH ==>
              ds[j].score <= ds[k].score && (j < k ==> ds[j].score < ds[k].score)
       else
         && 0 < ds[k].score
         && forall j :: 0 <= j < n ==>
              ds[j].score <= ds[k].score && (j < k ==> ds[j].score < ds[k].score)
  }

  /** None of the first `n` candidates can be selected: all are LOW and none
      scores above zero. */
  ghost predicate NoWinner(ds: seq<MatchDegree>, n: nat)
    requires n <= |ds|
  {
    !HasHigh(ds, n) && forall j :: 0 <= j < n ==> ds[j].score <= 0
  }

  /** At most one candidate is the winner. */
  lemma WinnerUnique(ds: seq<MatchDegree>, n: nat, k1: int, k2: int)
    requires n <= |ds|
    requires IsWinner(ds, n, k1) && IsWinner(ds, n, k2)
    ensures k1 == k2
  {
  }

  /** What the loop variables hold after each prefix: the inductive invariant. */
  lemma {:induction false} RankInvariant(ds: seq<MatchDegree>, n: nat)
    requires n <= |ds|
    ensures RankPrefix(ds, n).bestPriorityLevel == HIGH <==> HasHigh(ds, n)
    ensures RankPrefix(ds, n).best.None? ==> RankPrefix(ds, n).bestMatch == 0 && NoWinner(ds, n)
    ensures RankPrefix(ds, n).best.Some? ==>
              && IsWinner(ds, n, RankPrefix(ds, n).best.value)
              && RankPrefix(ds, n).bestMatch == ds[RankPrefix(ds, n).best.value].score
  {
    if n > 0 {
      var m := n - 1;
      RankInvariant(ds, m);
      var r, d := RankPrefix(ds, m), ds[m];
      var r' := RankPrefix(ds, n);
      assert r' == Step(r, m, d);
      assert HasHigh(ds, n) <==> HasHigh(ds, m) || d.level == HIGH by {
        if d.level == HIGH { assert ds[m].level == HIGH; }
        if HasHigh(ds, m) {
          var j :| 0 <= j < m && ds[j].level == HIGH;
          assert 0 <= j < n;
        }
      }
      if d.level == HIGH && r.bestPriorityLevel == LOW {
        assert forall j :: 0 <= j < m ==> ds[j].level == LOW;
        assert IsWinner(ds, n, m);
      } else if d.level == LOW && r.bestPriorityLevel == HIGH {
        assert IsWinner(ds, n, r.best.value);
      } else if r.bestMatch < d.score {
        assert IsWinner(ds, n, m);
      } else if r.best.Some? {
        assert IsWinner(ds, n, r.best.value);
      } else {
        assert NoWinner(ds, n);
      }
    }
  }

  /** The loop ends on the declared winner, and on no candidate exactly when
      there is none: all LOW with scores at most zero. */
  lemma RankCharacterised(ds: seq<MatchDegree>, n: nat)
    requires n <= |ds|
    ensures RankPrefix(ds, n).best.None? <==> NoWinner(ds, n)
    ensures forall k :: IsWinner(ds, n, k) <==> RankPrefix(ds, n).best == Some(k)
  {
    RankInvariant(ds, n);
    var r := RankPrefix(ds, n);
    if r.best.Some? {
      var w := r.best.value;
      assert !NoWinner(ds, n) by {
        if !HasHigh(ds, n) { assert ds[w].score > 0; }
      }
      forall k | IsWinner(ds, n, k) ensures k == w {
        WinnerUnique(ds, n, k, w);
      }
    } else {
      forall k ensures !IsWinner(ds, n, k) {
        if 0 <= k < n { assert ds[k].score <= 0; }
      }
    }
  }
}
