# Transaction fraud scoring — a Dafny model

This project models the risk-scoring pipeline of `FraudDetectionEngine` in
`ai/fraud_detection.py`. A transaction record and an optional user-history
record become twelve named features. Four of them are risk sub-scores, each
taken from a fixed value or a Beta distribution that the request selects. The
features are selected in a fixed column order, scaled, and scored by a random
forest and a gradient-boosting classifier. The mean of the two probabilities
is mapped to a risk level (LOW / MEDIUM / HIGH) and an action (APPROVE /
REVIEW / BLOCK). The result also carries a confidence and the four sub-scores
in display polarity.

Modules, one per part of the pipeline:

- `Wrappers` — `Option` (a dictionary key that may be missing) and `Result`.
- `Numbers` — the `UnitInterval` type and `Abs`/`Min`/`Max`.
- `Strings` — Python's `sub in s` for strings.
- `Transactions` — the transaction and history records, and the truthiness of the history argument.
- `RiskSubScores` — the location, device, velocity and behavioural sub-scorers.
- `FeatureVectors` — the feature record, the fixed column list, and the column selection.
- `Extraction` — feature extraction, with the clock and the random draws as inputs.
- `Ensemble` — the ensemble mean and the confidence.
- `DecisionPolicy` — thresholds, risk levels and actions.
- `Scoring` — the whole scoring call and the display of the sub-scores.

How the parts of the program that cannot be seen are modelled:

- **Dictionaries.** Every key the code looks up is an `Option` field, and `None` means the key is absent. The history record also counts its other keys (`otherKeys`). This makes `if user_history:` exact: `None` and `{}` both mean "no history", while a record holding only unrelated keys means "history", with every default applied.
- **Clock.** `datetime.now()` becomes a `Clock` input: an hour in 0..23 and a weekday in 0..6.
- **Random draws.** `np.random.beta` becomes a `Draws` input of four values in [0, 1]. Each sub-scorer returns a `Source`, either `Constant(c)` or `Beta(alpha, beta)`, and `Sample` turns a source and a draw into the score. What is proved is which source is selected.
- **Fitted model.** The scaler and the two classifiers are function-typed fields of `Engine`. The classifiers return values in [0, 1].

Behaviour of the code worth knowing, which the model reproduces:

- The amount is not validated. `float(transaction.get('amount', 0))` accepts any number, negative ones included, and a missing amount becomes 0 (`Extraction.AmountTakenAsGiven`).
- Missing history keys fall back to 1 (account age), 0 (transaction count), the current amount (average amount) and 24 (hours since the last transaction).
- Selecting the fixed columns from the extracted dictionary cannot hit a missing column (`FeatureVectors.SelectionInColumnOrder`).

## Model

| member | source | states |
|---|---|---|
| Strings.ContainsIffOccurs | ai/fraud_detection.py:187 | the substring test used on the user agent holds exactly when the word occurs at some position of the string |
| Strings.EmptyContainsNothing | ai/fraud_detection.py:184 | the default empty user agent contains neither word |
| Transactions.HasHistoryIffNonEmpty | ai/fraud_detection.py:152 | the history argument counts as absent exactly when it is `None` or the empty record |
| RiskSubScores.LocationRisk | ai/fraud_detection.py:173-179 | the location sub-scorer always selects a well-formed source, Beta(2,8) or Beta(5,5) |
| RiskSubScores.LocationSelection | ai/fraud_detection.py:176-179 | Beta(2,8) exactly when the country equals one of NG, KE, GH, ZA; Beta(5,5) otherwise, including a missing location or country |
| RiskSubScores.AllowListLowersLocationRisk | ai/fraud_detection.py:177-179 | an allow-listed country has a lower expected location risk than any other |
| RiskSubScores.DeviceRisk | ai/fraud_detection.py:181-189 | the device sub-scorer always selects a well-formed source, Beta(2,8) or Beta(4,6) |
| RiskSubScores.DeviceSelection | ai/fraud_detection.py:183-189 | Beta(2,8) exactly when both "Mobile" and "Android" occur in the user agent; Beta(4,6) otherwise, including a missing device record or user agent |
| RiskSubScores.MobileAndroidLowersDeviceRisk | ai/fraud_detection.py:187-189 | a mobile Android client has a lower expected device risk than any other client |
| RiskSubScores.VelocityRisk | ai/fraud_detection.py:191-199 | the velocity sub-scorer always selects a well-formed source: 0.1, Beta(8,2) or Beta(2,8) |
| RiskSubScores.VelocitySelection | ai/fraud_detection.py:193-199 | 0.1 exactly without history; Beta(8,2) exactly when the recent count is strictly above 10; a count of exactly 10 or a missing count selects Beta(2,8) |
| RiskSubScores.VelocityRiskMonotone | ai/fraud_detection.py:196-199 | with history, a higher recent count never lowers the expected velocity risk |
| RiskSubScores.BehavioralScore | ai/fraud_detection.py:201-207 | the behavioural sub-scorer always selects a well-formed source, 0.5 or Beta(6,4) |
| RiskSubScores.BehavioralSelection | ai/fraud_detection.py:203-207 | 0.5 exactly without history, Beta(6,4) exactly with history, whose expected value leans to trust |
| RiskSubScores.Sample | ai/fraud_detection.py:178 | a draw from a well-formed source lies in [0, 1], and a Beta source yields the generator's draw |
| FeatureVectors.SelectColumns | ai/fraud_detection.py:217 | selecting columns from a row succeeds exactly when every column is present, giving one value per column in column order; otherwise it names a missing column |
| FeatureVectors.RowDefinesEveryColumn | ai/fraud_detection.py:28-33 | there are twelve distinct column names, and the extracted dictionary defines exactly those names |
| FeatureVectors.SelectionInColumnOrder | ai/fraud_detection.py:217 | selecting the fixed columns from an extracted dictionary never fails and lists the twelve features in the fixed order |
| FeatureVectors.FeatureVector | ai/fraud_detection.py:217 | the vector passed to the scaler has twelve entries, the features in column order |
| Extraction.ExtractFeatures | ai/fraud_detection.py:142-171 | the amount is taken from the record; hour and weekday are the clock's; the deviation is the non-negative distance between amount and average, zero exactly when they are equal; the four sub-scores lie in [0, 1] |
| Extraction.ColdStart | ai/fraud_detection.py:152-169 | without history: user age 1, 0 previous transactions, average equal to the amount, 24 hours since the last transaction, zero deviation, velocity 0.1, behaviour 0.5 |
| Extraction.EmptyHistoryIsNoHistory | ai/fraud_detection.py:152 | an empty history record and a missing one give identical features |
| Extraction.HistoryFields | ai/fraud_detection.py:153-168 | with history, each user feature comes from its key, and a missing key falls back to 1, 0, the amount or 24 |
| Extraction.UnrelatedKeysOnly | ai/fraud_detection.py:152-168 | a record with only unrelated keys keeps the cold-start user features, but velocity and behaviour become random draws |
| Extraction.AmountTakenAsGiven | ai/fraud_detection.py:147 | every amount, negative ones such as -50 included, is scored as given, and a missing amount is zero |
| Extraction.SampleRequest | ai/fraud_detection.py:264-278 | on the entry point's sample request the deviation is 500, the user features come from the history, and location, velocity and behaviour take their low-risk or trusting distributions |
| Extraction.SampleUserAgentIsMobileAndroid | ai/fraud_detection.py:269 | the sample user agent contains both "Mobile" and "Android", so the sample request takes the low-risk device distribution |
| Ensemble.EnsembleProbability | ai/fraud_detection.py:223-225 | the ensemble probability lies between the two member probabilities, equidistant from both |
| Ensemble.Confidence | ai/fraud_detection.py:244 | confidence lies in [0.5, 1] and is the larger of the probability and its complement |
| Ensemble.EnsembleSymmetric | ai/fraud_detection.py:225 | the member order does not matter, and members that agree give their common value |
| Ensemble.ConfidenceIsDistanceFromBoundary | ai/fraud_detection.py:244 | confidence is 0.5 plus the distance from 0.5, is symmetric under complement, and is 0.5 only at 0.5 |
| Ensemble.AveragingExample | ai/fraud_detection.py:225 | members answering 0.8 and 0.4 give probability 0.6 and confidence 0.6 |
| DecisionPolicy.Decide | ai/fraud_detection.py:228-236 | LOW exactly below 0.3, MEDIUM exactly on [0.3, 0.7), HIGH exactly from 0.7; the action is the one paired with the level |
| DecisionPolicy.ClassifyMatchesBands | ai/fraud_detection.py:228-236 | the threshold cascade picks a level exactly when the probability lies in that level's interval |
| DecisionPolicy.BandsPartition | ai/fraud_detection.py:228-236 | the three intervals cover every probability and do not overlap |
| DecisionPolicy.BoundariesBelongAbove | ai/fraud_detection.py:228-233 | 0.3 and 0.7 fall into the higher band; values just below them fall into the lower band |
| DecisionPolicy.ClassifyMonotone | ai/fraud_detection.py:228-236 | a higher probability never gives a lower risk level |
| DecisionPolicy.DecisionDeterminedByLevel | ai/fraud_detection.py:228-236 | equal levels give equal decisions, and equal actions imply equal levels |
| Scoring.Display | ai/fraud_detection.py:246-250 | the displayed location, device and velocity scores complement the risk scores; the behavioural score passes through |
| Scoring.DisplayPolarity | ai/fraud_detection.py:246-250 | display reverses the order of the risk scores, keeps the order of the trust score, and the raw risk can be read back |
| Scoring.PredictFraud | ai/fraud_detection.py:209-253 | the score is the mean of the two members' answers on the scaled feature vector and lies in [0, 1]; confidence is in [0.5, 1] and is the larger of score and complement; the level's band holds the score; the action matches the level; the displayed sub-scores are in [0, 1] |
| Scoring.InversionIsDisplayOnly | ai/fraud_detection.py:214-250 | the classifiers see the raw sub-scores in columns 6 to 9, the display shows their complements (behaviour unchanged), and the score is the mean of the two members' answers on that vector |
| Scoring.ScoreDependsOnlyOnVector | ai/fraud_detection.py:217-236 | two requests with the same feature vector, whatever their clocks and draws, get the same score and level |
| Scoring.FixedMembersExample | ai/fraud_detection.py:223-236 | with members fixed at 0.8 and 0.4, any request scores 0.6, is reviewed, and has confidence 0.6 |

## Left out

- Synthetic data generation, training, evaluation and model loading/saving (ai/fraud_detection.py:36-140) are library training and file I/O. The fitted scaler and classifiers are opaque inputs.
- The internals of the standard scaler and the two classifiers are library code. Only the classifiers' range [0, 1] is assumed.
- The sampling of the Beta distributions is a foreign random generator. Each draw is an input in [0, 1]. The velocity and behavioural scorers consume no draw when they return a constant; this matters only to a seeded generator's sequence, and is not modelled.
- Both `datetime.now()` calls become one `Clock` input. The two separate reads of the clock could straddle midnight; that is not modelled.
- Rounding to three decimals, the processing-time string, the timestamp, the DataFrame construction, logging and the global instance (ai/fraud_detection.py:20-22, 211, 238-256) are formatting and process plumbing. Because of the rounding, the returned `riskScore` can read 0.3 while the level, computed on the unrounded probability, is LOW; the model states bands on the unrounded probability.
- Non-numeric amounts (`float` of a string, or of `None` stored under the key) are not modelled. The amount is a real or absent.
- A `location` or `deviceInfo` key that is present but holds `None` would make the `.get` call raise. The model only has absent or present records.
- A `userAgent` key that is present but holds `None` would make `'Mobile' in user_agent` raise a type error (ai/fraud_detection.py:187). The model only has an absent or a string user agent.
- Python floats are exact reals here. Float rounding in `(rf_prob + gb_prob) / 2` and in `1 - x` is not modelled, so a probability within rounding distance of 0.3 or 0.7 may land in the other band at run time. NaN and infinite amounts, which `float()` accepts and the scaler or classifiers then reject, are not modelled either.
- The fitted scaler can itself reject a vector whose width or column names differ from those it was fitted on (ai/fraud_detection.py:220). The scaler is opaque here, so only the column selection before it is shown not to fail.
- History values are reals. Values of other types, stored under the read keys, are not modelled.
- The transaction's `type` and `timestamp` keys are never read by the scorer and are not modelled.
- Proxy_Hedera.py, GetReverses.py and Domain_Lookup.py are HTTP clients and interactive menus with no scoring logic.
