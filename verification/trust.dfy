/** `makeTrustScore` (src/mock/mockDb.ts): five fixed factors, each scored
    0.20..1.00, and an overall score that is their mean rounded to two
    decimals. Scores are kept in hundredths, so the model is exact where
    the source computes in floating point. */
module Trust {
  import opened Ids
  import opened Sampling
  import opened Models

  /** The five factor kinds, in the source's order. */
  const FACTOR_KINDS: seq<TrustFactorKind> :=
    [CompletedSwaps, Ratings, ResponseTime, ProfileCompleteness, Verification]

  /** Every factor's `maxScore` (1.00). */
  const MAX_FACTOR_SCORE: nat := 100

  /** `faker.number.float({ min: 0.2, max: 1, fractionDigits: 2 })`, in hundredths. */
  function FactorScore(draw: nat): (s: nat)
    ensures 20 <= s <= MAX_FACTOR_SCORE
  {
    Between(20, 100, draw)
  }

  function ScoreSum(fs: seq<TrustFactor>): nat {
    if |fs| == 0 then 0 else fs[0].score + ScoreSum(fs[1..])
  }

  function Abs(x: int): nat {
    if x < 0 then -x else x
  }

  /** `Number((sum / n).toFixed(2))` on hundredths: the mean rounded to the
      nearest hundredth, halves rounded up. */
  function RoundedMean(sum: nat, n: nat): (r: nat)
    requires n > 0
    ensures 2 * Abs(n * r - sum) <= n
  {
    (2 * sum + n) / (2 * n)
  }

  /** The overall score never drifts from its factors: it is within half a
      hundredth of their mean. */
  predicate TrustConsistent(t: TrustScore) {
    && |t.factors| > 0
    && 2 * Abs(|t.factors| * t.overallScore - ScoreSum(t.factors)) <= |t.factors|
  }

  /** With an odd number of factors (five here) there is no tie, so the
      consistency condition fixes the overall score. */
  lemma TrustConsistentUnique(t: TrustScore, u: TrustScore)
    requires TrustConsistent(t) && TrustConsistent(u)
    requires t.factors == u.factors && |t.factors| % 2 == 1
    ensures t.overallScore == u.overallScore
  {
    var n, s := |t.factors|, ScoreSum(t.factors);
    if t.overallScore != u.overallScore {
      var hi, lo := if t.overallScore > u.overallScore then t.overallScore else u.overallScore,
                    if t.overallScore > u.overallScore then u.overallScore else t.overallScore;
      ScaledGap(n, lo, hi);
    }
  }

  /** Scaling a gap of at least one by `n` gives a gap of at least `n`. */
  lemma ScaledGap(n: nat, lo: nat, hi: nat)
    requires lo < hi
    ensures n * hi >= n * lo + n
  {
    var d := hi - lo;
    assert n * hi == n * lo + n * d;
    assert n * d == n + n * (d - 1);
  }

  /** Rounding to the nearest hundredth gives no worse a mean than any other value. */
  lemma RoundedMeanNearest(sum: nat, n: nat, k: nat)
    requires n > 0
    ensures Abs(n * RoundedMean(sum, n) - sum) <= Abs(n * k - sum)
  {
    var r := RoundedMean(sum, n);
    if k < r {
      ScaledGap(n, k, r);
    } else if k > r {
      ScaledGap(n, r, k);
    }
  }

  lemma {:induction false} ScoreSumBounds(fs: seq<TrustFactor>)
    requires forall i :: 0 <= i < |fs| ==> 20 <= fs[i].score <= MAX_FACTOR_SCORE
    ensures 20 * |fs| <= ScoreSum(fs) <= MAX_FACTOR_SCORE * |fs|
  {
    if |fs| > 0 {
      ScoreSumBounds(fs[1..]);
    }
  }

  /** `makeTrustScore(userId)`, one score draw per factor. */
  function MakeTrustScore(userId: Id, draws: seq<nat>): (t: TrustScore)
    requires |draws| == |FACTOR_KINDS|
    ensures t.userId == userId
    ensures |t.factors| == |FACTOR_KINDS|
    ensures forall i :: 0 <= i < |t.factors| ==>
      && t.factors[i].kind == FACTOR_KINDS[i]
      && t.factors[i].maxScore == MAX_FACTOR_SCORE
      && 20 <= t.factors[i].score <= MAX_FACTOR_SCORE
    ensures TrustConsistent(t)
    ensures 20 <= t.overallScore <= MAX_FACTOR_SCORE
  {
    var factors := seq(|FACTOR_KINDS|, i requires 0 <= i < |FACTOR_KINDS| =>
      TrustFactor(FACTOR_KINDS[i], FactorScore(draws[i]), MAX_FACTOR_SCORE));
    ScoreSumBounds(factors);
    TrustScore(userId, RoundedMean(ScoreSum(factors), |factors|), factors)
  }
}
