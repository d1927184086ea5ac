/**
 * The composite quality score (`calculate_score` and its three band
 * functions). The weights 0.45, 0.30 and 0.25 and the latency factors are
 * decimals, so the weighted sum is kept exactly as an integer scaled by 10000:
 *   10000 * sum = 4500 * latency + 3000 * reliability + 25 * base * factor%
 * and `round` (half away from zero; the sum is never negative) is taken on that.
 */
module Scoring {
  import opened Domain

  /** `latency_score`: 100 up to 200 ms, then 90, 75, 55, 35, 20 at the
      breakpoints 400, 600, 900, 1300, 2000 ms, and 5 beyond. */
  function LatencyScore(latencyMs: nat): (s: nat)
    ensures s in {100, 90, 75, 55, 35, 20, 5}
    ensures s == 100 <==> latencyMs <= 200
    ensures s == 5 <==> latencyMs > 2000
    ensures s >= 20 ==> latencyMs <= 2000 && (latencyMs > 200 ==> s <= 90)
  {
    if latencyMs <= 200 then 100
    else if latencyMs <= 400 then 90
    else if latencyMs <= 600 then 75
    else if latencyMs <= 900 then 55
    else if latencyMs <= 1300 then 35
    else if latencyMs <= 2000 then 20
    else 5
  }

  /** `reliability_score`: 0 retries give 100, then 80, 55, 30, and 10 from 4 on. */
  function ReliabilityScore(retries: U8): (s: nat)
    ensures s in {100, 80, 55, 30, 10}
    ensures s == 100 <==> retries == 0
    ensures s == 10 <==> retries >= 4
  {
    match retries
    case 0 => 100
    case 1 => 80
    case 2 => 55
    case 3 => 30
    case _ => 10
  }

  /** The base of `anonymity_score`. */
  function AnonymityBase(a: Anonymity): nat {
    match a
    case Elite => 100
    case Anonymous => 70
    case Transparent => 30
  }

  /** The latency factor of `anonymity_score`, in percent. */
  function LatencyFactorPercent(latencyMs: nat): nat {
    if latencyMs <= 500 then 100
    else if latencyMs <= 1000 then 85
    else if latencyMs <= 2000 then 65
    else 45
  }

  /** `anonymity_score` times 100: the base times the factor in percent. */
  function AnonymityScoreX100(a: Anonymity, latencyMs: nat): (s: nat)
    ensures AnonymityBase(a) * 45 <= s <= AnonymityBase(a) * 100
    ensures s == AnonymityBase(a) * 100 <==> latencyMs <= 500
    ensures s == AnonymityBase(a) * 45 <==> latencyMs > 2000
    ensures s <= 10000
  {
    AnonymityBase(a) * LatencyFactorPercent(latencyMs)
  }

  /** The weighted sum of `calculate_score`, times 10000. */
  function ScaledScore(latencyMs: nat, retries: U8, a: Anonymity): nat {
    4500 * LatencyScore(latencyMs) + 3000 * ReliabilityScore(retries) + 25 * AnonymityScoreX100(a, latencyMs)
  }

  /** `f64::clamp`. */
  function Clamp(x: int, lo: int, hi: int): (r: int)
    requires lo <= hi
    ensures lo <= r <= hi
    ensures lo <= x <= hi ==> r == x
  {
    if x < lo then lo else if x > hi then hi else x
  }

  /** `calculate_score`: the weighted sum rounded to the nearest integer, ties
      upward, then clamped to [1, 100]. */
  function CalculateScore(latencyMs: nat, retries: U8, a: Anonymity): (score: U8)
    ensures 1 <= score <= 100
    ensures score * 10000 - 5000 <= ScaledScore(latencyMs, retries, a) < score * 10000 + 5000
  {
    var v := ScaledScore(latencyMs, retries, a);
    Clamp((v + 5000) / 10000, 1, 100)
  }

  // ---------------------------------------------------------------------------
  // Properties
  // ---------------------------------------------------------------------------

  /** The latency band only takes the seven listed values and falls as latency grows. */
  lemma LatencyScoreBands(l1: nat, l2: nat)
    requires l1 <= l2
    ensures LatencyScore(l1) in {100, 90, 75, 55, 35, 20, 5}
    ensures LatencyScore(l1) >= LatencyScore(l2)
  {
  }

  /** The reliability band falls as retries grow. */
  lemma ReliabilityScoreBands(r1: U8, r2: U8)
    requires r1 <= r2
    ensures ReliabilityScore(r1) in {100, 80, 55, 30, 10}
    ensures ReliabilityScore(r1) >= ReliabilityScore(r2)
  {
  }

  /** At a fixed latency, Elite scores at least Anonymous, which scores at
      least Transparent; and the factor falls as latency grows. */
  lemma AnonymityScoreOrder(a1: Anonymity, a2: Anonymity, l1: nat, l2: nat)
    requires AnonymityRank(a1) >= AnonymityRank(a2)
    requires l1 <= l2
    ensures AnonymityScoreX100(a1, l1) >= AnonymityScoreX100(a2, l1)
    ensures AnonymityScoreX100(a1, l1) >= AnonymityScoreX100(a1, l2)
  {
  }

  /** The weighted sum lies between 8.625 and 100, so neither clamp ever binds. */
  lemma ScaledScoreRange(latencyMs: nat, retries: U8, a: Anonymity)
    ensures 86250 <= ScaledScore(latencyMs, retries, a) <= 1000000
  {
  }

  /** The score is never below 9. */
  lemma ScoreAtLeastNine(latencyMs: nat, retries: U8, a: Anonymity)
    ensures CalculateScore(latencyMs, retries, a) >= 9
  {
    ScaledScoreRange(latencyMs, retries, a);
  }

  /** Rounding to nearest (ties up) is monotone. */
  lemma RoundMonotone(v1: nat, v2: nat)
    requires v1 <= v2
    ensures (v1 + 5000) / 10000 <= (v2 + 5000) / 10000
  {
  }

  /** The score does not rise when latency grows, the others fixed. */
  lemma ScoreNonIncreasingInLatency(l1: nat, l2: nat, retries: U8, a: Anonymity)
    requires l1 <= l2
    ensures CalculateScore(l1, retries, a) >= CalculateScore(l2, retries, a)
  {
    LatencyScoreBands(l1, l2);
    AnonymityScoreOrder(a, a, l1, l2);
    RoundMonotone(ScaledScore(l2, retries, a), ScaledScore(l1, retries, a));
  }

  /** The score does not rise when retries grow, the others fixed. */
  lemma ScoreNonIncreasingInRetries(latencyMs: nat, r1: U8, r2: U8, a: Anonymity)
    requires r1 <= r2
    ensures CalculateScore(latencyMs, r1, a) >= CalculateScore(latencyMs, r2, a)
  {
    ReliabilityScoreBands(r1, r2);
    RoundMonotone(ScaledScore(latencyMs, r2, a), ScaledScore(latencyMs, r1, a));
  }

  /** The score does not fall when the proxy is more anonymous, the others fixed. */
  lemma ScoreNonDecreasingInAnonymity(latencyMs: nat, retries: U8, a1: Anonymity, a2: Anonymity)
    requires AnonymityRank(a1) >= AnonymityRank(a2)
    ensures CalculateScore(latencyMs, retries, a1) >= CalculateScore(latencyMs, retries, a2)
  {
    AnonymityScoreOrder(a1, a2, latencyMs, latencyMs);
    RoundMonotone(ScaledScore(latencyMs, retries, a2), ScaledScore(latencyMs, retries, a1));
  }

  /** A fast, first-try, elite proxy scores 100: 100*.45 + 100*.30 + 100*.25. */
  lemma ScoreOfFastElite()
    ensures CalculateScore(150, 0, Elite) == 100
  {
  }

  /** A slow transparent proxy after three retries: round(9 + 9 + 4.875) = 23. */
  lemma ScoreOfSlowTransparent()
    ensures CalculateScore(1500, 3, Transparent) == 23
  {
  }
}
