/** Combining the two member classifiers' fraud probabilities, and the
    confidence reported with the result. */
module Ensemble {
  import opened Numbers

  /** The arithmetic mean of the random-forest and gradient-boosting outputs. */
  function EnsembleProbability(rf: UnitInterval, gb: UnitInterval): (p: UnitInterval)
    ensures Min(rf, gb) <= p <= Max(rf, gb)
    ensures p - rf == gb - p
  {
    (rf + gb) / 2.0
  }

  /** `max(p, 1 - p)`. */
  function Confidence(p: UnitInterval): (c: real)
    ensures 0.5 <= c <= 1.0
    ensures c >= p && c >= 1.0 - p
    ensures c == p || c == 1.0 - p
  {
    Max(p, 1.0 - p)
  }

  /** The order of the members does not matter, and members that agree give
      their common value. */
  lemma EnsembleSymmetric(rf: UnitInterval, gb: UnitInterval)
    ensures EnsembleProbability(rf, gb) == EnsembleProbability(gb, rf)
    ensures rf == gb ==> EnsembleProbability(rf, gb) == rf
  {
  }

  /** Confidence is one half plus the distance from the 0.5 boundary, so it
      is the same for a probability and its complement. */
  lemma ConfidenceIsDistanceFromBoundary(p: UnitInterval)
    ensures Confidence(p) == 0.5 + Abs(p - 0.5)
    ensures Confidence(p) == Confidence(1.0 - p)
    ensures Confidence(p) == 0.5 <==> p == 0.5
  {
  }

  /** Members answering 0.8 and 0.4 give probability 0.6 and confidence 0.6. */
  lemma AveragingExample()
    ensures EnsembleProbability(0.8, 0.4) == 0.6
    ensures Confidence(EnsembleProbability(0.8, 0.4)) == 0.6
  {
  }
}
