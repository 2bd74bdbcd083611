/** The twelve named features, the fixed column order the scaler and the
    classifiers were fitted on, and the selection of a feature dictionary into
    a vector in that order. */
module FeatureVectors {
  import opened Wrappers

  /** The feature dictionary built by extraction, one field per name. */
  datatype Features = Features(
    transactionAmount: real,
    hourOfDay: real,
    dayOfWeek: real,
    userAgeDays: real,
    previousTransactions: real,
    avgTransactionAmount: real,
    locationRiskScore: real,
    deviceRiskScore: real,
    velocityScore: real,
    behavioralScore: real,
    timeSinceLastTx: real,
    amountDeviation: real)

  /** The column order fixed at construction and shared by training and scoring. */
  const FeatureColumns: seq<string> := [
    "transaction_amount", "hour_of_day", "day_of_week",
    "user_age_days", "previous_transactions", "avg_transaction_amount",
    "location_risk_score", "device_risk_score", "velocity_score",
    "behavioral_score", "time_since_last_tx", "amount_deviation"
  ]

  /** The features as the dictionary extraction returns, keyed by name. */
  function Row(f: Features): map<string, real> {
    map[
      "transaction_amount" := f.transactionAmount,
      "hour_of_day" := f.hourOfDay,
      "day_of_week" := f.dayOfWeek,
      "user_age_days" := f.userAgeDays,
      "previous_transactions" := f.previousTransactions,
      "avg_transaction_amount" := f.avgTransactionAmount,
      "location_risk_score" := f.locationRiskScore,
      "device_risk_score" := f.deviceRiskScore,
      "velocity_score" := f.velocityScore,
      "behavioral_score" := f.behavioralScore,
      "time_since_last_tx" := f.timeSinceLastTx,
      "amount_deviation" := f.amountDeviation
    ]
  }

  /** Selecting `columns` from a one-row table: the values in column order, or
      a missing column (the table library's KeyError). */
  function SelectColumns(row: map<string, real>, columns: seq<string>): (r: Result<seq<real>, string>)
    ensures r.Success? <==> forall i :: 0 <= i < |columns| ==> columns[i] in row
    ensures r.Success? ==> |r.value| == |columns|
    ensures r.Success? ==> forall i :: 0 <= i < |columns| ==> r.value[i] == row[columns[i]]
    ensures r.Failure? ==> r.error in columns && r.error !in row
  {
    if |columns| == 0 then Success([])
    else if columns[0] !in row then Failure(columns[0])
    else
      match SelectColumns(row, columns[1..])
      case Success(rest) => Success([row[columns[0]]] + rest)
      case Failure(missing) => Failure(missing)
  }

  /** Extraction defines exactly the twelve column names, each once. */
  lemma RowDefinesEveryColumn(f: Features)
    ensures |FeatureColumns| == 12
    ensures forall i, j :: 0 <= i < j < |FeatureColumns| ==> FeatureColumns[i] != FeatureColumns[j]
    ensures forall name :: name in Row(f) <==> name in FeatureColumns
  {
  }

  /** Looking a name up in the dictionary gives the feature of that name. */
  lemma RowLookups(f: Features)
    ensures Row(f)["transaction_amount"] == f.transactionAmount
    ensures Row(f)["hour_of_day"] == f.hourOfDay
    ensures Row(f)["day_of_week"] == f.dayOfWeek
    ensures Row(f)["user_age_days"] == f.userAgeDays
    ensures Row(f)["previous_transactions"] == f.previousTransactions
    ensures Row(f)["avg_transaction_amount"] == f.avgTransactionAmount
    ensures Row(f)["location_risk_score"] == f.locationRiskScore
    ensures Row(f)["device_risk_score"] == f.deviceRiskScore
    ensures Row(f)["velocity_score"] == f.velocityScore
    ensures Row(f)["behavioral_score"] == f.behavioralScore
    ensures Row(f)["time_since_last_tx"] == f.timeSinceLastTx
    ensures Row(f)["amount_deviation"] == f.amountDeviation
  {
  }

  /** The twelve features listed field by field in declaration order. */
  function InColumnOrder(f: Features): seq<real> {
    [f.transactionAmount, f.hourOfDay, f.dayOfWeek,
     f.userAgeDays, f.previousTransactions, f.avgTransactionAmount,
     f.locationRiskScore, f.deviceRiskScore, f.velocityScore,
     f.behavioralScore, f.timeSinceLastTx, f.amountDeviation]
  }

  /** Selecting the fixed columns from the dictionary succeeds and lists the
      features in column order. */
  lemma SelectionInColumnOrder(f: Features)
    ensures SelectColumns(Row(f), FeatureColumns) == Success(InColumnOrder(f))
  {
    var row := Row(f);
    RowLookups(f);
    assert forall i :: 0 <= i < |FeatureColumns| ==> FeatureColumns[i] in row;
    var sel := SelectColumns(row, FeatureColumns);
    assert sel.Success?;
    var v := sel.value;
    var e := InColumnOrder(f);
    assert |v| == |e| == 12;
    forall i | 0 <= i < 12
      ensures v[i] == e[i]
    {
      assert v[i] == row[FeatureColumns[i]];
    }
    assert v == e;
  }

  /** The vector handed to the scaler: the dictionary selected in column
      order. The selection never fails and yields the twelve features in the
      fixed order. */
  function FeatureVector(f: Features): (v: seq<real>)
    ensures |v| == |FeatureColumns|
    ensures v == InColumnOrder(f)
  {
    SelectionInColumnOrder(f);
    SelectColumns(Row(f), FeatureColumns).value
  }
}
