/** Feature extraction: a transaction and an optional history become the
    twelve-feature dictionary. The wall clock and the random generator are
    inputs. */
module Extraction {
  import opened Wrappers
  import opened Numbers
  import opened Strings
  import opened Transactions
  import opened RiskSubScores
  import opened FeatureVectors

  type Hour = h: int | 0 <= h < 24
  type Weekday = d: int | 0 <= d < 7

  /** The processing instant's hour and weekday (Monday is 0). */
  datatype Clock = Clock(hour: Hour, weekday: Weekday)

  /** The four values the random generator yields, one per sub-scorer. A
      sub-scorer that selects a fixed value ignores its draw. */
  datatype Draws = Draws(
    location: UnitInterval,
    device: UnitInterval,
    velocity: UnitInterval,
    behavioral: UnitInterval)

  /** The amount the history reports as usual for this user, or the current
      amount when there is none. */
  function AverageAmount(tx: Transaction, history: Option<History>): real {
    if HasHistory(history) then history.value.avgAmount.GetOr(Amount(tx)) else Amount(tx)
  }

  function ExtractFeatures(tx: Transaction, history: Option<History>, clock: Clock, draws: Draws): (f: Features)
    ensures f.transactionAmount == Amount(tx)
    ensures f.amountDeviation >= 0.0
    ensures f.amountDeviation == 0.0 <==> f.avgTransactionAmount == f.transactionAmount
    ensures f.amountDeviation == f.transactionAmount - f.avgTransactionAmount
         || f.amountDeviation == f.avgTransactionAmount - f.transactionAmount
    ensures f.hourOfDay == clock.hour as real && f.dayOfWeek == clock.weekday as real
    ensures 0.0 <= f.locationRiskScore <= 1.0 && 0.0 <= f.deviceRiskScore <= 1.0
    ensures 0.0 <= f.velocityScore <= 1.0 && 0.0 <= f.behavioralScore <= 1.0
  {
    var amount := Amount(tx);
    var present := HasHistory(history);
    var avg := AverageAmount(tx, history);
    Features(
      transactionAmount := amount,
      hourOfDay := clock.hour as real,
      dayOfWeek := clock.weekday as real,
      userAgeDays := if present then history.value.accountAgeDays.GetOr(1.0) else 1.0,
      previousTransactions := if present then history.value.transactionCount.GetOr(0.0) else 0.0,
      avgTransactionAmount := avg,
      locationRiskScore := Sample(LocationRisk(tx), draws.location),
      deviceRiskScore := Sample(DeviceRisk(tx), draws.device),
      velocityScore := Sample(VelocityRisk(history), draws.velocity),
      behavioralScore := Sample(BehavioralScore(history), draws.behavioral),
      timeSinceLastTx := if present then history.value.hoursSinceLastTx.GetOr(24.0) else 24.0,
      amountDeviation := Abs(amount - avg))
  }

  /** Without history (no argument, or an empty record) the cold-start
      defaults apply and the amount deviation is zero. */
  lemma ColdStart(tx: Transaction, history: Option<History>, clock: Clock, draws: Draws)
    requires !HasHistory(history)
    ensures var f := ExtractFeatures(tx, history, clock, draws);
      && f.userAgeDays == 1.0
      && f.previousTransactions == 0.0
      && f.avgTransactionAmount == f.transactionAmount
      && f.timeSinceLastTx == 24.0
      && f.amountDeviation == 0.0
      && f.velocityScore == 0.1
      && f.behavioralScore == 0.5
  {
  }

  /** An empty history record and a missing one extract the same features. */
  lemma EmptyHistoryIsNoHistory(tx: Transaction, clock: Clock, draws: Draws)
    ensures ExtractFeatures(tx, Some(EmptyHistory), clock, draws) == ExtractFeatures(tx, None, clock, draws)
  {
  }

  /** With history, each user feature is read from its key, and a missing
      key falls back to the cold-start value. */
  lemma HistoryFields(tx: Transaction, h: History, clock: Clock, draws: Draws)
    requires HasHistory(Some(h))
    ensures var f := ExtractFeatures(tx, Some(h), clock, draws);
      && (h.accountAgeDays.Some? ==> f.userAgeDays == h.accountAgeDays.value)
      && (h.accountAgeDays.None? ==> f.userAgeDays == 1.0)
      && (h.transactionCount.Some? ==> f.previousTransactions == h.transactionCount.value)
      && (h.transactionCount.None? ==> f.previousTransactions == 0.0)
      && (h.avgAmount.Some? ==> f.avgTransactionAmount == h.avgAmount.value)
      && (h.avgAmount.None? ==> f.avgTransactionAmount == f.transactionAmount)
      && (h.hoursSinceLastTx.Some? ==> f.timeSinceLastTx == h.hoursSinceLastTx.value)
      && (h.hoursSinceLastTx.None? ==> f.timeSinceLastTx == 24.0)
      && f.behavioralScore == draws.behavioral
  {
  }

  /** A history record holding none of the keys the scorer reads is still
      "history": the user features equal the cold-start ones, but the velocity
      and behavioural scores are drawn instead of fixed. */
  lemma UnrelatedKeysOnly(tx: Transaction, extra: nat, clock: Clock, draws: Draws)
    requires extra > 0
    ensures var f := ExtractFeatures(tx, Some(EmptyHistory.(otherKeys := extra)), clock, draws);
      var cold := ExtractFeatures(tx, None, clock, draws);
      && f.userAgeDays == cold.userAgeDays
      && f.previousTransactions == cold.previousTransactions
      && f.avgTransactionAmount == cold.avgTransactionAmount
      && f.timeSinceLastTx == cold.timeSinceLastTx
      && f.amountDeviation == cold.amountDeviation
      && f.velocityScore == draws.velocity
      && f.behavioralScore == draws.behavioral
  {
  }

  /** The amount is taken as given: any amount, a negative one included, is
      scored rather than refused, and a missing amount is zero. */
  lemma AmountTakenAsGiven(tx: Transaction, history: Option<History>, clock: Clock, draws: Draws, a: real)
    ensures tx.amount == Some(a) ==> ExtractFeatures(tx, history, clock, draws).transactionAmount == a
    ensures tx.amount == Some(-50.0) ==> ExtractFeatures(tx, history, clock, draws).transactionAmount == -50.0
    ensures tx.amount.None? ==> ExtractFeatures(tx, history, clock, draws).transactionAmount == 0.0
  {
  }

  const SampleUserAgent: string := "Mozilla/5.0 (Mobile; Android)"

  /** The sample request of the program's own entry point. */
  const SampleTransaction: Transaction :=
    Transaction(Some(1000.0), Some(Location(Some("NG"))), Some(DeviceInfo(Some(SampleUserAgent))))

  const SampleHistory: History :=
    History(Some(30.0), Some(15.0), Some(500.0), Some(2.0), Some(6.0), 0)

  /** The sample user agent names both a mobile and an Android client, so
      the sample request takes the low-risk device distribution. */
  lemma SampleUserAgentIsMobileAndroid()
    ensures IsMobileAndroid(SampleUserAgent)
    ensures DeviceRisk(SampleTransaction) == Beta(2, 8)
  {
    assert SampleUserAgent[13..19] == "Mobile";
    assert OccursAt(SampleUserAgent, "Mobile", 13);
    assert SampleUserAgent[21..28] == "Android";
    assert OccursAt(SampleUserAgent, "Android", 21);
    ContainsIffOccurs(SampleUserAgent, "Mobile");
    ContainsIffOccurs(SampleUserAgent, "Android");
  }

  /** On the sample request the deviation is 500, the user features come
      from the history, and the location, velocity and behaviour scorers take
      their low-risk (or, for behaviour, trusting) distributions. */
  lemma SampleRequest(clock: Clock, draws: Draws)
    ensures var f := ExtractFeatures(SampleTransaction, Some(SampleHistory), clock, draws);
      && f.amountDeviation == 500.0
      && f.userAgeDays == 30.0 && f.previousTransactions == 15.0
      && f.avgTransactionAmount == 500.0 && f.timeSinceLastTx == 6.0
      && f.locationRiskScore == draws.location
      && f.deviceRiskScore == draws.device
      && f.velocityScore == draws.velocity
      && f.behavioralScore == draws.behavioral
    ensures LocationRisk(SampleTransaction) == Beta(2, 8)
    ensures VelocityRisk(Some(SampleHistory)) == Beta(2, 8)
    ensures BehavioralScore(Some(SampleHistory)) == Beta(6, 4)
  {
  }
}
