/** The scoring call: extraction, scaling, the two classifiers, the ensemble,
    the decision policy and the display of the sub-scores. The fitted scaler
    and classifiers are opaque functions supplied by the caller. */
module Scoring {
  import opened Wrappers
  import opened Numbers
  import opened Transactions
  import opened RiskSubScores
  import opened FeatureVectors
  import opened Extraction
  import opened Ensemble
  import opened DecisionPolicy

  /** The fitted model artifacts: the standard scaler and the two members'
      fraud-probability functions. */
  datatype Engine = Engine(
    scaler: seq<real> -> seq<real>,
    rf: seq<real> -> UnitInterval,
    gb: seq<real> -> UnitInterval)

  /** The sub-scores as shown to the consumer, all with "higher is better"
      polarity. */
  datatype DisplayScores = DisplayScores(
    behavioral: real,
    location: real,
    device: real,
    velocity: real)

  /** The scoring result, without its timing and timestamp fields. */
  datatype ScoreResult = ScoreResult(
    riskScore: real,
    riskLevel: RiskLevel,
    decision: Decision,
    confidence: real,
    subScores: DisplayScores)

  /** The three risk scores are complemented for display; the behavioural
      score is already a trust score and passes through. */
  function Display(f: Features): (d: DisplayScores)
    ensures d.location + f.locationRiskScore == 1.0
    ensures d.device + f.deviceRiskScore == 1.0
    ensures d.velocity + f.velocityScore == 1.0
    ensures d.behavioral == f.behavioralScore
  {
    DisplayScores(
      behavioral := f.behavioralScore,
      location := 1.0 - f.locationRiskScore,
      device := 1.0 - f.deviceRiskScore,
      velocity := 1.0 - f.velocityScore)
  }

  /** Display reverses the order of risk scores and keeps the order of trust
      scores, and the raw sub-scores can be read back from it. */
  lemma DisplayPolarity(f: Features, g: Features)
    ensures f.locationRiskScore <= g.locationRiskScore <==> Display(f).location >= Display(g).location
    ensures f.deviceRiskScore <= g.deviceRiskScore <==> Display(f).device >= Display(g).device
    ensures f.velocityScore <= g.velocityScore <==> Display(f).velocity >= Display(g).velocity
    ensures f.behavioralScore <= g.behavioralScore <==> Display(f).behavioral <= Display(g).behavioral
    ensures 1.0 - Display(f).location == f.locationRiskScore
  {
  }

  /** The normalised vector both classifiers see. */
  function ModelInput(engine: Engine, f: Features): seq<real> {
    engine.scaler(FeatureVector(f))
  }

  function PredictFraud(engine: Engine, tx: Transaction, history: Option<History>, clock: Clock, draws: Draws): (r: ScoreResult)
    ensures 0.0 <= r.riskScore <= 1.0
    ensures 0.5 <= r.confidence <= 1.0
    ensures r.confidence == r.riskScore || r.confidence == 1.0 - r.riskScore
    ensures r.confidence >= r.riskScore && r.confidence >= 1.0 - r.riskScore
    ensures InBand(r.riskScore, r.riskLevel)
    ensures r.decision == DecisionFor(r.riskLevel)
    ensures var x := ModelInput(engine, ExtractFeatures(tx, history, clock, draws));
      2.0 * r.riskScore == engine.rf(x) + engine.gb(x)
    ensures 0.0 <= r.subScores.behavioral <= 1.0 && 0.0 <= r.subScores.location <= 1.0
    ensures 0.0 <= r.subScores.device <= 1.0 && 0.0 <= r.subScores.velocity <= 1.0
  {
    var f := ExtractFeatures(tx, history, clock, draws);
    var x := ModelInput(engine, f);
    var p := EnsembleProbability(engine.rf(x), engine.gb(x));
    var (level, decision) := Decide(p);
    ScoreResult(p, level, decision, Confidence(p), Display(f))
  }

  /** The inversion is presentation only: the vector behind the classifiers
      carries the raw sub-scores in their fixed columns, and the score is the
      mean of the two members' answers on that vector. */
  lemma InversionIsDisplayOnly(engine: Engine, tx: Transaction, history: Option<History>, clock: Clock, draws: Draws)
    ensures var f := ExtractFeatures(tx, history, clock, draws);
      var v := FeatureVector(f);
      var r := PredictFraud(engine, tx, history, clock, draws);
      && |v| == 12
      && v[6] == Sample(LocationRisk(tx), draws.location)
      && v[7] == Sample(DeviceRisk(tx), draws.device)
      && v[8] == Sample(VelocityRisk(history), draws.velocity)
      && v[9] == Sample(BehavioralScore(history), draws.behavioral)
      && v[6] + r.subScores.location == 1.0
      && v[7] + r.subScores.device == 1.0
      && v[8] + r.subScores.velocity == 1.0
      && v[9] == r.subScores.behavioral
      && Min(engine.rf(engine.scaler(v)), engine.gb(engine.scaler(v))) <= r.riskScore
      && r.riskScore <= Max(engine.rf(engine.scaler(v)), engine.gb(engine.scaler(v)))
      && 2.0 * r.riskScore == engine.rf(engine.scaler(v)) + engine.gb(engine.scaler(v))
  {
  }

  /** The score depends on the request only through the feature vector. */
  lemma ScoreDependsOnlyOnVector(
    engine: Engine,
    tx1: Transaction, h1: Option<History>, clock1: Clock, draws1: Draws,
    tx2: Transaction, h2: Option<History>, clock2: Clock, draws2: Draws)
    requires FeatureVector(ExtractFeatures(tx1, h1, clock1, draws1)) == FeatureVector(ExtractFeatures(tx2, h2, clock2, draws2))
    ensures PredictFraud(engine, tx1, h1, clock1, draws1).riskScore == PredictFraud(engine, tx2, h2, clock2, draws2).riskScore
    ensures PredictFraud(engine, tx1, h1, clock1, draws1).riskLevel == PredictFraud(engine, tx2, h2, clock2, draws2).riskLevel
  {
  }

  /** With members fixed at 0.8 and 0.4, any request scores 0.6, is reviewed,
      and reports confidence 0.6. */
  lemma FixedMembersExample(tx: Transaction, history: Option<History>, clock: Clock, draws: Draws)
    ensures var engine := Engine(v => v, v => 0.8, v => 0.4);
      var r := PredictFraud(engine, tx, history, clock, draws);
      r.riskScore == 0.6 && r.riskLevel == Medium && r.decision == Review && r.confidence == 0.6
  {
  }
}
