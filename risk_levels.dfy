/** The discrete risk level shared by the heuristic scorer and the
    persisted-record rescoring, and the integer helpers both use. */
module RiskLevels {

  datatype RiskLevel = Low | Medium | High | Critical

  /** The 80/60/40 thresholds: at least 80 is critical, at least 60 high,
      at least 40 medium, anything else low. */
  function Bucket(score: int): RiskLevel {
    if score >= 80 then Critical
    else if score >= 60 then High
    else if score >= 40 then Medium
    else Low
  }

  /** The order of the levels, for stating monotonicity. */
  function Rank(level: RiskLevel): nat {
    match level
    case Low => 0
    case Medium => 1
    case High => 2
    case Critical => 3
  }

  function Min(a: int, b: int): int { if a <= b then a else b }
  function Max(a: int, b: int): int { if a >= b then a else b }

  /** `Math.min(Math.max(x, 0), 100)`. */
  function Clamp100(x: int): (r: int)
    ensures 0 <= r <= 100
    ensures 0 <= x <= 100 ==> r == x
    ensures x > 100 ==> r == 100
    ensures x < 0 ==> r == 0
  {
    Min(Max(x, 0), 100)
  }

  /** A higher score never gives a lower level. */
  lemma BucketMonotone(a: int, b: int)
    requires a <= b
    ensures Rank(Bucket(a)) <= Rank(Bucket(b))
  {
  }

  /** Bucketing a score and bucketing its value capped at 100 agree. */
  lemma BucketOfCapped(score: int)
    ensures Bucket(Min(score, 100)) == Bucket(score)
  {
  }
}
