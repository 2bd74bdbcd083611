/** The request data the scorer reads: the transaction record and the optional
    user history record. Both are dictionaries in the original program; every
    key the scorer looks up is an `Option` field here, `None` meaning the key is
    absent. */
module Transactions {
  import opened Wrappers

  /** The `location` sub-record; only `country` is read. */
  datatype Location = Location(country: Option<string>)

  /** The `deviceInfo` sub-record; only `userAgent` is read. */
  datatype DeviceInfo = DeviceInfo(userAgent: Option<string>)

  /** The keys of a transaction record that feature extraction reads. */
  datatype Transaction = Transaction(
    amount: Option<real>,
    location: Option<Location>,
    deviceInfo: Option<DeviceInfo>)

  /** `float(transaction.get('amount', 0))`: no sign check is made. */
  function Amount(tx: Transaction): real {
    tx.amount.GetOr(0.0)
  }

  /** A user history record: the five keys the scorer reads, plus the number
      of other keys it carries (they matter only to the record's truthiness). */
  datatype History = History(
    accountAgeDays: Option<real>,
    transactionCount: Option<real>,
    avgAmount: Option<real>,
    recentTxCount: Option<real>,
    hoursSinceLastTx: Option<real>,
    otherKeys: nat)

  /** The empty dictionary `{}`. */
  const EmptyHistory: History := History(None, None, None, None, None, 0)

  /** `len(history)`. */
  function KeyCount(h: History): nat {
    (if h.accountAgeDays.Some? then 1 else 0)
    + (if h.transactionCount.Some? then 1 else 0)
    + (if h.avgAmount.Some? then 1 else 0)
    + (if h.recentTxCount.Some? then 1 else 0)
    + (if h.hoursSinceLastTx.Some? then 1 else 0)
    + h.otherKeys
  }

  /** Python truthiness of the optional history argument (`if user_history:`):
      false for `None` and for an empty dictionary alike. */
  predicate HasHistory(history: Option<History>) {
    history.Some? && KeyCount(history.value) > 0
  }

  /** Exactly the empty dictionary and `None` count as "no history". */
  lemma HasHistoryIffNonEmpty(history: Option<History>)
    ensures !HasHistory(history) <==> history == None || history == Some(EmptyHistory)
  {
  }
}
