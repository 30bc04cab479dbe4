/**
 * The cyclomatic-complexity risk table of `rank_by_score` (analyze.py:95-114).
 *
 *   score     rank
 *   1 - 5     A   low, simple block
 *   6 - 10    B   low, well structured
 *   11 - 20   C   moderate
 *   21 - 30   D   more than moderate
 *   31 - 40   E   high, alarming
 *   41 +      F   very high, error-prone
 *
 * The source compares its argument against integer bounds with an if/elif
 * chain that has no final `else`, and is called both with integer block scores
 * and with a file's average, which is a true-division (fractional) value.  The
 * argument is therefore a `real`; a score outside every band gives `None`.
 */
module Ranking {
  import opened Wrappers

  /** The six letter ranks, from lowest to highest risk. */
  datatype Rank = A | B | C | D | E | F

  /** Position of a rank in the table: 0 for A up to 5 for F. */
  function Ordinal(r: Rank): nat
  {
    match r
    case A => 0
    case B => 1
    case C => 2
    case D => 3
    case E => 4
    case F => 5
  }

  /** Lowest score of the band of `r` (left column of the table). */
  function LowerBound(r: Rank): int
  {
    match r
    case A => 1
    case B => 6
    case C => 11
    case D => 21
    case E => 31
    case F => 41
  }

  /** Highest score of the band of `r`; the F band is open above. */
  function UpperBound(r: Rank): Option<int>
  {
    match r
    case A => Some(5)
    case B => Some(10)
    case C => Some(20)
    case D => Some(30)
    case E => Some(40)
    case F => None
  }

  /** `s` lies within the closed band of rank `r`, read off the table. */
  predicate InBand(s: real, r: Rank)
  {
    LowerBound(r) as real <= s && (UpperBound(r).Some? ==> s <= UpperBound(r).value as real)
  }

  /** `s` lies strictly between two consecutive bands: above one band's top, below the next one's bottom. */
  predicate InGap(s: real)
  {
    (5.0 < s < 6.0) || (10.0 < s < 11.0) || (20.0 < s < 21.0) || (30.0 < s < 31.0) || (40.0 < s < 41.0)
  }

  /** `rank_by_score`: the if/elif chain, first matching band wins, no fallback. */
  function RankByScore(score: real): (r: Option<Rank>)
    ensures r.None? <==> score < 1.0 || InGap(score)
    ensures r.Some? ==> InBand(score, r.value)
  {
    if 1.0 <= score <= 5.0 then Some(A)
    else if 6.0 <= score <= 10.0 then Some(B)
    else if 11.0 <= score <= 20.0 then Some(C)
    else if 21.0 <= score <= 30.0 then Some(D)
    else if 31.0 <= score <= 40.0 then Some(E)
    else if score >= 41.0 then Some(F)
    else None
  }

  /** The bands of the table do not overlap: a score lies in at most one of them. */
  lemma BandsDisjoint(s: real, r1: Rank, r2: Rank)
    requires InBand(s, r1) && InBand(s, r2)
    ensures r1 == r2
  {
  }

  /** The chain agrees with the table in both directions: `r` is returned exactly when `s` lies in its band. */
  lemma RankByScoreMatchesTable(s: real, r: Rank)
    ensures RankByScore(s) == Some(r) <==> InBand(s, r)
  {
  }

  /** Every integer score of at least 1 gets a rank, and no integer below 1 does. */
  lemma IntegerScoreRanked(n: int)
    ensures RankByScore(n as real).Some? <==> n >= 1
  {
  }

  /**
   * An independent, arithmetic statement of the table for integer scores:
   * bands A and B are five wide, C, D and E ten wide, and F takes the rest.
   */
  function BandIndex(n: int): (k: nat)
    requires n >= 1
    ensures k <= 5
  {
    if n <= 5 then 0 else if n <= 10 then 1 else if n <= 40 then (n - 1) / 10 + 1 else 5
  }

  /** On integer scores the if/elif chain computes exactly the arithmetic band index. */
  lemma IntegerRankIsBandIndex(n: int)
    requires n >= 1
    ensures RankByScore(n as real).Some?
    ensures Ordinal(RankByScore(n as real).value) == BandIndex(n)
  {
  }

  /** The rank never decreases as the integer score grows. */
  lemma RankMonotone(m: int, n: int)
    requires 1 <= m <= n
    ensures RankByScore(m as real).Some? && RankByScore(n as real).Some?
    ensures Ordinal(RankByScore(m as real).value) <= Ordinal(RankByScore(n as real).value)
  {
  }

  /** The same holds for fractional scores whenever both lie inside some band. */
  lemma RankMonotoneReal(s: real, t: real)
    requires s <= t
    requires RankByScore(s).Some? && RankByScore(t).Some?
    ensures Ordinal(RankByScore(s).value) <= Ordinal(RankByScore(t).value)
  {
  }

  /** Below 1 there is no rank: this covers the empty-file average 0 and the initial value -1. */
  lemma NoRankBelowOne(s: real)
    requires s < 1.0
    ensures RankByScore(s) == None
  {
  }

  /** Fractional averages strictly between two bands get no rank either. */
  lemma NoRankInGap(s: real)
    requires InGap(s)
    ensures RankByScore(s) == None
  {
  }
}
