/** The decision policy: a probability becomes a risk level, and the level
    becomes an action. Bands are closed below and open above. */
module DecisionPolicy {

  datatype RiskLevel = Low | Medium | High

  datatype Decision = Approve | Review | Block

  /** From this probability on, a transaction is reviewed. */
  const ReviewThreshold: real := 0.3

  /** From this probability on, a transaction is blocked. */
  const BlockThreshold: real := 0.7

  /** The cascade of threshold tests the scorer applies. */
  function Classify(p: real): RiskLevel {
    if p < ReviewThreshold then Low
    else if p < BlockThreshold then Medium
    else High
  }

  function DecisionFor(level: RiskLevel): Decision {
    match level
    case Low => Approve
    case Medium => Review
    case High => Block
  }

  /** The risk level and the action for probability `p`. */
  function Decide(p: real): (r: (RiskLevel, Decision))
    ensures r.1 == DecisionFor(r.0)
    ensures r.0 == Low <==> p < 0.3
    ensures r.0 == Medium <==> 0.3 <= p < 0.7
    ensures r.0 == High <==> 0.7 <= p
  {
    var level := Classify(p);
    (level, DecisionFor(level))
  }

  /** The band of each level, as an interval. */
  predicate InBand(p: real, level: RiskLevel) {
    match level
    case Low => p < ReviewThreshold
    case Medium => ReviewThreshold <= p < BlockThreshold
    case High => BlockThreshold <= p
  }

  /** The cascade picks exactly the level whose band holds `p`. */
  lemma ClassifyMatchesBands(p: real, level: RiskLevel)
    ensures Classify(p) == level <==> InBand(p, level)
  {
  }

  /** The three bands are exhaustive and pairwise disjoint. */
  lemma BandsPartition(p: real)
    ensures InBand(p, Low) || InBand(p, Medium) || InBand(p, High)
    ensures !(InBand(p, Low) && InBand(p, Medium))
    ensures !(InBand(p, Low) && InBand(p, High))
    ensures !(InBand(p, Medium) && InBand(p, High))
  {
  }

  /** A boundary value belongs to the higher band. */
  lemma BoundariesBelongAbove()
    ensures Decide(0.3) == (Medium, Review)
    ensures Decide(0.7) == (High, Block)
    ensures Decide(0.2999) == (Low, Approve)
    ensures Decide(0.6999) == (Medium, Review)
  {
  }

  function Rank(level: RiskLevel): nat {
    match level
    case Low => 0
    case Medium => 1
    case High => 2
  }

  /** A higher probability never lowers the risk level. */
  lemma ClassifyMonotone(p: real, q: real)
    requires p <= q
    ensures Rank(Classify(p)) <= Rank(Classify(q))
  {
  }

  /** The action depends on the level alone, and different levels lead to
      different actions. */
  lemma DecisionDeterminedByLevel(p: real, q: real)
    ensures Classify(p) == Classify(q) ==> Decide(p) == Decide(q)
    ensures Decide(p).1 == Decide(q).1 <==> Classify(p) == Classify(q)
  {
  }
}
