/** The four risk sub-scorers. Each picks either a fixed value or a Beta
    distribution from the request; the random draw itself is an input (see
    `Sample`), so what is modelled is which distribution is selected. */
module RiskSubScores {
  import opened Wrappers
  import opened Numbers
  import opened Strings
  import opened Transactions

  /** What a sub-scorer returns: a fixed value, or one draw from Beta(alpha, beta). */
  datatype Source = Constant(value: real) | Beta(alpha: nat, beta: nat)

  /** Every outcome of the source lies in [0, 1]. */
  predicate WellFormed(src: Source) {
    match src
    case Constant(v) => 0.0 <= v <= 1.0
    case Beta(a, b) => a > 0 && b > 0
  }

  /** The sub-score produced by `src` when the random generator yields `u`. */
  function Sample(src: Source, u: UnitInterval): (r: real)
    ensures WellFormed(src) ==> 0.0 <= r <= 1.0
    ensures src.Beta? ==> r == u
  {
    match src
    case Constant(v) => v
    case Beta(_, _) => u
  }

  /** Expected value of the source: alpha / (alpha + beta) for a Beta distribution. */
  function Mean(src: Source): real
    requires WellFormed(src)
  {
    match src
    case Constant(v) => v
    case Beta(a, b) => a as real / (a + b) as real
  }

  // ---------------------------------------------------------------- location

  /** The country allow-list that selects the low-risk distribution. */
  const LowRiskCountries: seq<string> := ["NG", "KE", "GH", "ZA"]

  /** `transaction.get('location', {}).get('country')`. */
  function Country(tx: Transaction): Option<string> {
    match tx.location
    case None => None
    case Some(loc) => loc.country
  }

  predicate InLowRiskCountry(tx: Transaction) {
    Country(tx).Some? && Country(tx).value in LowRiskCountries
  }

  function LocationRisk(tx: Transaction): (r: Source)
    ensures WellFormed(r)
    ensures r == Beta(2, 8) || r == Beta(5, 5)
  {
    if InLowRiskCountry(tx) then Beta(2, 8) else Beta(5, 5)
  }

  /** An allow-listed country selects Beta(2, 8); every other country, a
      missing country and a missing location select Beta(5, 5). */
  lemma LocationSelection(tx: Transaction)
    ensures LocationRisk(tx) == Beta(2, 8) <==>
              exists i :: 0 <= i < |LowRiskCountries| && Country(tx) == Some(LowRiskCountries[i])
    ensures LocationRisk(tx) == Beta(5, 5) <==> !InLowRiskCountry(tx)
    ensures tx.location.None? ==> LocationRisk(tx) == Beta(5, 5)
    ensures Country(tx) == Some("NG") ==> LocationRisk(tx) == Beta(2, 8)
  {
    if InLowRiskCountry(tx) {
      var i :| 0 <= i < |LowRiskCountries| && LowRiskCountries[i] == Country(tx).value;
      assert Country(tx) == Some(LowRiskCountries[i]);
    }
  }

  /** The allow-list lowers the expected location risk. */
  lemma AllowListLowersLocationRisk(low: Transaction, other: Transaction)
    requires InLowRiskCountry(low) && !InLowRiskCountry(other)
    ensures Mean(LocationRisk(low)) < Mean(LocationRisk(other))
  {
  }

  // ------------------------------------------------------------------ device

  /** `transaction.get('deviceInfo', {}).get('userAgent', '')`. */
  function UserAgent(tx: Transaction): string {
    match tx.deviceInfo
    case None => ""
    case Some(info) => info.userAgent.GetOr("")
  }

  /** `'Mobile' in user_agent and 'Android' in user_agent`. */
  predicate IsMobileAndroid(userAgent: string) {
    Contains(userAgent, "Mobile") && Contains(userAgent, "Android")
  }

  function DeviceRisk(tx: Transaction): (r: Source)
    ensures WellFormed(r)
    ensures r == Beta(2, 8) || r == Beta(4, 6)
  {
    if IsMobileAndroid(UserAgent(tx)) then Beta(2, 8) else Beta(4, 6)
  }

  /** Beta(2, 8) exactly when both words occur somewhere in the user agent;
      Beta(4, 6) otherwise, in particular when the device record or its user
      agent is missing. */
  lemma DeviceSelection(tx: Transaction)
    ensures DeviceRisk(tx) == Beta(2, 8) <==>
              (exists i :: OccursAt(UserAgent(tx), "Mobile", i))
              && (exists j :: OccursAt(UserAgent(tx), "Android", j))
    ensures tx.deviceInfo.None? ==> DeviceRisk(tx) == Beta(4, 6)
    ensures tx.deviceInfo.Some? && tx.deviceInfo.value.userAgent.None? ==> DeviceRisk(tx) == Beta(4, 6)
  {
    ContainsIffOccurs(UserAgent(tx), "Mobile");
    ContainsIffOccurs(UserAgent(tx), "Android");
    EmptyContainsNothing("Mobile");
  }

  /** A mobile Android client lowers the expected device risk. */
  lemma MobileAndroidLowersDeviceRisk(mobile: Transaction, other: Transaction)
    requires IsMobileAndroid(UserAgent(mobile)) && !IsMobileAndroid(UserAgent(other))
    ensures Mean(DeviceRisk(mobile)) < Mean(DeviceRisk(other))
  {
  }

  // ---------------------------------------------------------------- velocity

  /** Strictly more recent transactions than this selects the high-velocity distribution. */
  const HighVelocityCount: real := 10.0

  /** `history.get('recent_tx_count', 0)`. */
  function RecentTxCount(h: History): real {
    h.recentTxCount.GetOr(0.0)
  }

  function VelocityRisk(history: Option<History>): (r: Source)
    ensures WellFormed(r)
    ensures r == Constant(0.1) || r == Beta(8, 2) || r == Beta(2, 8)
  {
    if !HasHistory(history) then Constant(0.1)
    else if RecentTxCount(history.value) > HighVelocityCount then Beta(8, 2)
    else Beta(2, 8)
  }

  /** 0.1 without history; with history, Beta(8, 2) exactly when the recent
      count exceeds ten, so a count of ten and a missing count take Beta(2, 8). */
  lemma VelocitySelection(history: Option<History>)
    ensures VelocityRisk(history) == Constant(0.1) <==> !HasHistory(history)
    ensures VelocityRisk(history) == Beta(8, 2) <==>
              HasHistory(history) && RecentTxCount(history.value) > 10.0
    ensures HasHistory(history) && history.value.recentTxCount.None? ==> VelocityRisk(history) == Beta(2, 8)
    ensures HasHistory(history) && history.value.recentTxCount == Some(10.0) ==> VelocityRisk(history) == Beta(2, 8)
  {
  }

  /** More recent transactions never lower the expected velocity risk. */
  lemma VelocityRiskMonotone(h1: History, h2: History)
    requires HasHistory(Some(h1)) && HasHistory(Some(h2))
    requires RecentTxCount(h1) <= RecentTxCount(h2)
    ensures Mean(VelocityRisk(Some(h1))) <= Mean(VelocityRisk(Some(h2)))
  {
  }

  // -------------------------------------------------------------- behavioral

  /** A trust score (higher is better), unlike the three risk scores above. */
  function BehavioralScore(history: Option<History>): (r: Source)
    ensures WellFormed(r)
    ensures r == Constant(0.5) || r == Beta(6, 4)
  {
    if !HasHistory(history) then Constant(0.5) else Beta(6, 4)
  }

  /** Neutral 0.5 without history; with history, Beta(6, 4), whose mean leans
      towards trust. */
  lemma BehavioralSelection(history: Option<History>)
    ensures BehavioralScore(history) == Constant(0.5) <==> !HasHistory(history)
    ensures BehavioralScore(history) == Beta(6, 4) <==> HasHistory(history)
    ensures Mean(BehavioralScore(history)) >= 0.5
    ensures HasHistory(history) ==> Mean(BehavioralScore(history)) > 0.5
  {
  }
}
