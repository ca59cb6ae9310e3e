/** core/token_calibration.go: the running ratio between what a provider counts and what the host estimates. */
module Calibration {
  const MIN_SAMPLES := 3
  const ALPHA := 0.20
  const MAX_RATIO := 8.0

  /** The moving average of one model, and how many samples went into it. */
  datatype Average = Average(factor: real, samples: nat)

  const NOTHING := Average(0.0, 0)

  function Ratio(actual: nat, sent: nat): real
    requires sent > 0
  {
    actual as real / sent as real
  }

  /** A sample that counts: both numbers are there and the ratio is not absurd. */
  predicate Sampled(actual: nat, sent: nat) {
    actual > 0 && sent > 0 && 1.0 / MAX_RATIO <= Ratio(actual, sent) <= MAX_RATIO
  }

  function Blend(factor: real, ratio: real): real {
    factor * (1.0 - ALPHA) + ratio * ALPHA
  }

  function Observed(c: Average, actual: nat, sent: nat): Average {
    if !Sampled(actual, sent) then c
    else Average(if c.samples == 0 then Ratio(actual, sent) else Blend(c.factor, Ratio(actual, sent)), c.samples + 1)
  }

  predicate Trusted(c: Average) {
    c.samples >= MIN_SAMPLES && c.factor > 0.0
  }

  /** What a session without an anchor starts from. */
  function ColdInflation(c: Average): real {
    if Trusted(c) then c.factor else 1.0
  }

  lemma {:induction false} BlendIsBetween(factor: real, ratio: real)
    ensures factor <= ratio ==> factor <= Blend(factor, ratio) <= ratio
    ensures ratio <= factor ==> ratio <= Blend(factor, ratio) <= factor
    ensures ratio < factor ==> Blend(factor, ratio) < factor
  {
    assert Blend(factor, ratio) == factor + (ratio - factor) * ALPHA;
  }
}
