# Fraud detection pipeline, modelled in Dafny

This project models the detection pipeline of a transaction fraud detection
system and proves properties of it. The pipeline has five parts:

- Five configurable rules, each a side-effect-free verdict on one transaction:
  - high amount;
  - risky location;
  - night-time hour window, which may wrap midnight;
  - online channel;
  - risky merchant.
- The rule factory, which builds the ordered list of enabled rules from an
  already-parsed configuration and fills in the per-rule defaults.
- The fraud engine, which sums the scores of the matched verdicts.
- The detection service `analyzeAndPersist`, which does these steps in order:
  1. folds the rule verdicts into a score and a list of "ruleName:reason" labels;
  2. reads the account's recent history once;
  3. adds 20 points when the history reaches the velocity limit;
  4. adds 15 points when the history holds a duplicate (same amount, merchant
     equal ignoring case);
  5. classifies the total as LOW, MEDIUM or HIGH;
  6. saves the transaction;
  7. unless the tier is LOW, builds an alert, saves it and returns it.
- In-memory transaction and alert stores that keep the contracts of the two
  DAOs:
  - a transaction id is stored at most once;
  - the history of an account is its transactions from a given instant on;
  - every saved alert gets a fresh, increasing id.

Files:

| file | contents |
|---|---|
| `wrappers.dfy` | `Option` and `Result` |
| `java_int.dfy` | Java `int` arithmetic: `Wrap` to 32 bits, `Add`, and the lemma that wrapping after each step equals wrapping once |
| `java_string.dfy` | `trim`, ASCII `toUpperCase`/`toLowerCase`, `equalsIgnoreCase`, `String.join`, decimal text of numbers |
| `model.dfy` | `Transaction` and `RuleResult` as datatypes, `FraudAlert` as a class with setters |
| `rules.dfy` | the `Rule` datatype, `Evaluate`, the five rules and their lemmas |
| `rule_factory.dfy` | the parsed configuration and `CreateRules` |
| `engine.dfy` | the verdict fold shared by the engine and the service, and `FraudEngine` |
| `store.dfy` | `TransactionDao` and `AlertDao` over in-memory rows |
| `detection.dfy` | risk tiers, the duplicate check, and `DetectionService` |
| `scenarios.dfy` | the two service tests restated as Dafny methods on fresh in-memory stores |

Modelling choices:

- **Nulls.** A `null` transaction, `null` rule verdict or `null` optional field
  is `None`. An exception is a `Failure` outcome.
- **Integers.** Scores and weights are Java `int`s (`Int32`), and every `+=`
  wraps around in two's complement. The methods are proved equal to `Wrap` of
  the exact mathematical sum. `ScoreWrapsAround` shows that two matching rules
  of weight 2^30 give a negative total.
- **Amounts.** Amounts are exact `real`s.
- **Time.** A timestamp is an instant in seconds together with its hour of
  the day. The clock reading `now` is a parameter.
- **Rules.** A `Rule` value is the rule with its configuration already bound.
  The `Stub` constructor stands for any other implementation of the interface
  that gives a fixed verdict, possibly `null`. The tests' anonymous rules are
  `Stub`s.

Two behaviours of the code a reader might not expect are modelled as
written:

- **Duplicate check.** Every rule treats a missing field as a non-match.
  The duplicate check is different: `anyMatch` calls
  `r.getMerchant().equalsIgnoreCase(...)` on each recent transaction whose
  amount equals the new one (`DetectionService.java` lines 56-57). A stored
  transaction with that amount and no merchant therefore throws.
  - `DuplicateScan` models `anyMatch` as written: it stops at the first
    duplicate, and fails at such a transaction met before any duplicate.
  - `AnalyzeAndPersist` returns `Failure(NullMerchantInHistory)` in that case
    and changes nothing.
- **Score range.** The `RuleResult` scores are summed in Java `int`, which
  wraps around.
  - `Engine.ScoreNonNegative` proves the score is not negative when no
    matched score is negative and the exact sum fits in 32 bits.
  - `Engine.ScoreWrapsAround` exhibits the wrap.

## Model

| member | source | states |
|---|---|---|
| JavaInt.WrapSpec | src/main/java/com/fraud/engine/FraudEngine.java:24 | a Java `int` sum differs from the exact sum by a multiple of 2^32 and equals it when it fits in 32 bits |
| JavaInt.WrapAdd | src/main/java/com/fraud/service/DetectionService.java:42 | wrapping the running total after each `+=` gives the same value as wrapping the exact total once |
| JavaInt.WrapIsIdentityIff | src/main/java/com/fraud/engine/FraudEngine.java:24 | the `int` total equals the exact total exactly when the exact total fits in 32 bits |
| JavaString.TrimStart | src/main/java/com/fraud/rules/impl/GeoLocationRule.java:26 | the result is a suffix of the input starting at a non-blank character, and every character dropped is at most U+0020 |
| JavaString.TrimEnd | src/main/java/com/fraud/rules/impl/GeoLocationRule.java:26 | the result is a prefix of the input ending at a non-blank character, and every character dropped is at most U+0020 |
| JavaString.Trim | src/main/java/com/fraud/rules/impl/GeoLocationRule.java:26 | the trimmed text is empty or starts and ends with a character above U+0020 |
| JavaString.TrimIgnoresPadding | src/main/java/com/fraud/rules/impl/GeoLocationRule.java:25-26 | blank padding on either side never changes the trimmed text |
| JavaString.TrimIdempotent | src/main/java/com/fraud/rules/impl/ChannelRiskRule.java:24 | trimming twice is trimming once |
| JavaString.CharIgnoreCaseIffUpper | src/main/java/com/fraud/rules/impl/GeoLocationRule.java:28 | two characters are equal ignoring case exactly when their upper-case forms are equal, and exactly when their lower-case forms are |
| JavaString.IgnoreCaseIffUpperEqual | src/main/java/com/fraud/rules/impl/RiskyMerchantRule.java:34 | `equalsIgnoreCase` holds exactly when the upper-cased strings are equal |
| JavaString.IgnoreCaseIffLowerEqual | src/main/java/com/fraud/rules/impl/ChannelRiskRule.java:24-26 | `equalsIgnoreCase` holds exactly when the lower-cased strings are equal |
| JavaString.IgnoreCaseEquivalence | src/main/java/com/fraud/rules/impl/GeoLocationRule.java:28 | `equalsIgnoreCase` is reflexive, symmetric and transitive |
| JavaString.JoinSnoc | src/main/java/com/fraud/service/DetectionService.java:73 | appending one more part appends the separator and that part to the joined text |
| JavaString.NatTextValue | src/main/java/com/fraud/rules/impl/NightTimeRule.java:43 | the decimal text `"" + n` of a number denotes that number, is "0" for zero and has no leading zero otherwise |
| Model.FraudAlert.constructor | src/main/java/com/fraud/model/FraudAlert.java:16-23 | the five fields are stored as given, `createdAt` is the clock reading, and `id` is 0 |
| Model.FraudAlert.SetId | src/main/java/com/fraud/model/FraudAlert.java:27 | sets `id` and can change no other field |
| Model.FraudAlert.SetTransactionId | src/main/java/com/fraud/model/FraudAlert.java:30 | sets `transactionId` and can change no other field |
| Model.FraudAlert.SetAccountId | src/main/java/com/fraud/model/FraudAlert.java:33 | sets `accountId` and can change no other field |
| Model.FraudAlert.SetScore | src/main/java/com/fraud/model/FraudAlert.java:36 | sets `score` and can change no other field |
| Model.FraudAlert.SetRiskLevel | src/main/java/com/fraud/model/FraudAlert.java:39 | sets `riskLevel` and can change no other field |
| Model.FraudAlert.SetReason | src/main/java/com/fraud/model/FraudAlert.java:42 | sets `reason` and can change no other field |
| Model.FraudAlert.SetCreatedAt | src/main/java/com/fraud/model/FraudAlert.java:45 | sets `createdAt` and can change no other field |
| Rules.HighAmountBoundary | src/main/java/com/fraud/rules/impl/HighAmountRule.java:20-26 | an amount equal to the threshold matches; an amount below it gives the unmatched verdict with score 0 and reason "ok"; raising a matching amount keeps it matching |
| Rules.HighAmountTestCases | src/test/java/com/fraud/HighAmountRuleTest.java:14-40 | with threshold 50000 and weight 30, an amount of 75000 matches with score 30 and an amount of 100 does not match and scores 0 |
| Rules.GeoLocationIgnoresCaseAndPadding | src/main/java/com/fraud/rules/impl/GeoLocationRule.java:22-33 | two locations whose trimmed texts are equal ignoring case both match or both miss (the reasons can differ, since they quote the location) |
| Rules.GeoLocationEmptySetNeverMatches | src/main/java/com/fraud/rules/impl/GeoLocationRule.java:27-32 | with no risky country configured, no transaction matches |
| Rules.NightWindowWrapIsComplement | src/main/java/com/fraud/rules/impl/NightTimeRule.java:34-40 | a window with start after end is exactly the complement of the plain window from end to start; a window with start equal to end is empty |
| Rules.NightWindowExample | src/main/java/com/fraud/rules/impl/NightTimeRule.java:37-40 | in the 22-to-3 window, hours 23 and 2 are night hours and 10 is not |
| Rules.ChannelRiskOnlineIgnoringCase | src/main/java/com/fraud/rules/impl/ChannelRiskRule.java:20-30 | a transaction with a channel matches exactly when the trimmed channel equals "online" ignoring case |
| Rules.ImageStep | src/main/java/com/fraud/rules/impl/RiskyMerchantRule.java:20-22 | adding one name to the input adds its normalised form to the normalised set |
| Rules.NewRiskyMerchantRule | src/main/java/com/fraud/rules/impl/RiskyMerchantRule.java:15-24 | the constructor's loop stores exactly the trimmed, upper-cased configured names, with the given weight |
| Rules.RiskyMerchantMatchesConfiguredName | src/main/java/com/fraud/rules/impl/RiskyMerchantRule.java:27-39 | a transaction with a merchant matches exactly when some configured name and the merchant are equal ignoring case once both are trimmed |
| Rules.NormaliseMember | src/main/java/com/fraud/rules/impl/RiskyMerchantRule.java:34 | the stored set contains the merchant's normal form exactly when some configured name equals the merchant ignoring case and surrounding whitespace |
| Rules.EvaluateContract | src/main/java/com/fraud/rules/Rule.java:8-20 | each of the five rules returns a non-null verdict that carries the rule's name, its weight when it matches and 0 when it does not, and it never matches a `null` transaction |
| RuleFactory.Configured | src/main/java/com/fraud/engine/RuleFactory.java:20-75 | the rule built from an entry carries that entry's name |
| RuleFactory.EnabledAmongMembers | src/main/java/com/fraud/engine/RuleFactory.java:21-23 | the kept keys are exactly the given keys whose entry is present and enabled; there are no more of them than keys; without a "rules" node none is kept |
| RuleFactory.EnabledKeysSpec | src/main/java/com/fraud/engine/RuleFactory.java:18-77 | a kind is built exactly when its entry is present and enabled (default true); kinds come in the fixed order HighAmount, GeoLocation, NightTime, ChannelRisk, RiskyMerchant, each at most once, so at most five; with no "rules" node the list is empty |
| RuleFactory.EnabledAmongKeepsOrder | src/main/java/com/fraud/engine/RuleFactory.java:20-77 | keeping only enabled keys preserves the order of the blocks |
| RuleFactory.Defaults | src/main/java/com/fraud/engine/RuleFactory.java:25-68 | missing parameters give weights 30, 25, 20, 15 and 25, the night window 0 to 5 and the threshold 50000; an absent risky-name array gives an empty set |
| RuleFactory.ChannelWeightIsWeightOnline | src/main/java/com/fraud/engine/RuleFactory.java:59 | the channel rule reads "weightOnline": changing the entry's "weight" changes nothing |
| RuleFactory.CollectNames | src/main/java/com/fraud/engine/RuleFactory.java:36-39 | the set holds exactly the array's elements, and is empty when the array is absent |
| RuleFactory.Added | src/main/java/com/fraud/engine/RuleFactory.java:20-29 | one block adds at most one rule |
| RuleFactory.Step | src/main/java/com/fraud/engine/RuleFactory.java:20-75 | each block extends the list of the keys visited so far by the configured rule of its entry exactly when that entry is enabled, keeping names and keys in the same order |
| RuleFactory.HighAmountBlock | src/main/java/com/fraud/engine/RuleFactory.java:20-29 | adds `HighAmount(threshold or 50000, weight or 30)` exactly when the entry is present and enabled |
| RuleFactory.GeoLocationBlock | src/main/java/com/fraud/engine/RuleFactory.java:31-42 | adds the location rule over the top-level "riskyCountries" names, weight or 25, exactly when the entry is enabled |
| RuleFactory.NightTimeBlock | src/main/java/com/fraud/engine/RuleFactory.java:44-53 | adds the night rule with start or 0, end or 5 and weight or 20, exactly when the entry is enabled |
| RuleFactory.ChannelRiskBlock | src/main/java/com/fraud/engine/RuleFactory.java:55-62 | adds the channel rule with "weightOnline" or 15, exactly when the entry is enabled |
| RuleFactory.RiskyMerchantBlock | src/main/java/com/fraud/engine/RuleFactory.java:64-75 | adds the merchant rule over the normalised top-level "riskyMerchants" names, weight or 25, exactly when the entry is enabled |
| RuleFactory.CreateRules | src/main/java/com/fraud/engine/RuleFactory.java:12-78 | the names of the built rules are the enabled keys in fixed order, and each rule is the one its entry configures |
| Engine.FoldAppend | src/main/java/com/fraud/service/DetectionService.java:37-45 | score and labels of a concatenated verdict list are those of the parts, added and concatenated |
| Engine.UnmatchedAddsNothing | src/main/java/com/fraud/service/DetectionService.java:40-44 | a `null` or unmatched verdict, anywhere in the list, adds nothing to the score and nothing to the reasons |
| Engine.MatchedAddsItsLabel | src/main/java/com/fraud/service/DetectionService.java:41-44 | a matched verdict adds its score, and its "ruleName:reason" label at its own position |
| Engine.LabelsComeFromMatches | src/main/java/com/fraud/service/DetectionService.java:41-43 | every reason is the label of some matched verdict, and there are no more reasons than rules |
| Engine.MatchedSumNonNegative | src/main/java/com/fraud/engine/FraudEngine.java:21-26 | with no negative matched score, the exact sum is not negative |
| Engine.ScoreNonNegative | src/main/java/com/fraud/engine/FraudEngine.java:20-27 | with no negative matched score and no overflow, the engine's score is not negative |
| Engine.ScoreWrapsAround | src/main/java/com/fraud/engine/FraudEngine.java:24 | two matching rules of weight 2^30 make the `int` score -2^31 |
| Engine.VerdictsPrefix | src/main/java/com/fraud/engine/FraudEngine.java:22-23 | the verdicts of one more rule extend the previous verdicts by that rule's verdict |
| Engine.FoldStep | src/main/java/com/fraud/engine/FraudEngine.java:22-25 | one more rule extends the exact sum by its matched score and the labels by its label, or by nothing |
| Engine.FraudEngine.constructor | src/main/java/com/fraud/engine/FraudEngine.java:16-18 | the engine keeps the given rule list |
| Engine.FraudEngine.Evaluate | src/main/java/com/fraud/engine/FraudEngine.java:20-27 | the result is the `int` sum of the scores of the non-null matched verdicts, 0 for an empty list; the rule list is a constant, so evaluation leaves it unchanged |
| Store.SavedWellFormed | src/main/java/com/fraud/dao/TransactionDao.java:40-76 | a save keeps every stored row timestamped and every id unique |
| Store.SaveIdempotent | src/main/java/com/fraud/dao/TransactionDao.java:64-71 | after a save that did not throw, the id is stored, and saving the same transaction again changes nothing |
| Store.SavedContents | src/main/java/com/fraud/dao/TransactionDao.java:56-71 | a save keeps every stored row and adds the transaction exactly when it has a timestamp and its id is new |
| Store.SinceMembers | src/main/java/com/fraud/dao/TransactionDao.java:27-29 | the history holds exactly the stored rows of the account with timestamp not before `since`, and no more rows than the store |
| Store.HistorySpec | src/main/java/com/fraud/dao/TransactionDao.java:89-93 | a blank account id gives no history; otherwise the history is the account's rows from `since` on |
| Store.SinceWidens | src/main/java/com/fraud/dao/TransactionDao.java:81-84 | a longer window never has fewer rows |
| Store.TransactionDao.constructor | src/main/java/com/fraud/dao/TransactionDao.java:31-33 | an empty store |
| Store.TransactionDao.Save | src/main/java/com/fraud/dao/TransactionDao.java:40-76 | records the call; inserts a new id; ignores a duplicate id; a `null` timestamp throws before anything is written |
| Store.TransactionDao.GetTransactionsSince | src/main/java/com/fraud/dao/TransactionDao.java:89-128 | the rows read are the history of the account from `since` on, none for a blank account id |
| Store.TransactionDao.GetRecentTransactions | src/main/java/com/fraud/dao/TransactionDao.java:81-84 | the history from `now - windowSeconds` on |
| Store.AlertDao.constructor | src/main/java/com/fraud/dao/AlertDao.java:23-25 | an empty alert store whose first key is 1 |
| Store.AlertDao.SaveAlert | src/main/java/com/fraud/dao/AlertDao.java:32-70 | appends a copy of the alert, gives it the next generated key through `SetId`, and that key differs from every stored one |
| Detection.ClassifyAlertIff | src/main/java/com/fraud/service/DetectionService.java:64-72 | the tier is not LOW exactly when the score reaches a threshold, and is HIGH exactly when it reaches the high one |
| Detection.ClassifyMonotone | src/main/java/com/fraud/service/DetectionService.java:65-68 | a higher score never gets a lower tier, whatever the two thresholds |
| Detection.TierNameInjective | src/main/java/com/fraud/service/DetectionService.java:65-72 | the tier names are distinct, so comparing the risk string with "LOW" tests for the LOW tier |
| Detection.DuplicateScanSpec | src/main/java/com/fraud/service/DetectionService.java:56-57 | when the scan succeeds, it answers whether some recent transaction has the same amount and a merchant equal ignoring case; it fails exactly when a same-amount transaction without a merchant comes before every duplicate |
| Detection.NoHazardNoFailure | src/main/java/com/fraud/service/DetectionService.java:56-57 | with every recent merchant present, the scan succeeds and answers whether a duplicate exists |
| Detection.QuietHistoryIsEngineScore | src/main/java/com/fraud/service/DetectionService.java:37-62 | with neither history check firing, the total and the reasons are those of the rules alone |
| Detection.AlertTextEndsWithHistoryReasons | src/main/java/com/fraud/service/DetectionService.java:58-73 | a duplicate appends "; " and the duplicate reason to the text of the other reasons |
| Detection.DetectionService.constructor | src/main/java/com/fraud/service/DetectionService.java:22-33 | the stores, the rules and the four thresholds are kept as given, taken in Java's order (medium before high) |
| Detection.DetectionService.ScoreRules | src/main/java/com/fraud/service/DetectionService.java:37-45 | step 1 gives the `int` sum of the non-null matched scores, which is also `FraudEngine.Evaluate`'s result (both are proved equal to the same sum), and the matched labels in list order |
| Detection.DetectionService.CheckHistory | src/main/java/com/fraud/service/DetectionService.java:47-62 | adds 20 and the velocity reason when the history reaches the limit, then 15 and the duplicate reason when a duplicate exists; fails when the scan fails |
| Detection.DetectionService.Persist | src/main/java/com/fraud/service/DetectionService.java:70-79 | saves the transaction; unless the risk is "LOW", saves and returns a fresh alert with the transaction's ids, the score, the risk, the joined reasons and the next key; a `null` timestamp stops it at the first save |
| Detection.DetectionService.AnalyzeAndPersist | src/main/java/com/fraud/service/DetectionService.java:35-80 | the history is read once, before the save; the transaction is saved on every call that gets past the duplicate check; an alert is saved and returned exactly when the tier is not LOW, and it carries the transaction's ids, the total score, the tier name, the reasons joined with "; " and a fresh id; otherwise the alert store is unchanged |
| Scenarios.LowRiskTransactionDoesNotCreateAlert | src/test/java/com/fraud/DetectionServiceTest.java:33-58 | an unmatched rule with thresholds 30 and 60: nothing is returned, the transaction is saved once, and no alert is saved |
| Scenarios.HighRiskTransactionCreatesAlert | src/test/java/com/fraud/DetectionServiceTest.java:60-87 | a rule matching with 50 points: an alert is returned, the transaction is saved once, and one MEDIUM alert with score 50, reason "highRule:big" and key 1 is saved |

## Left out

- JDBC, connection handling, SQL state codes and logging are not modelled. The
  stores are in-memory rows. A `DaoException` from a failing connection or
  query is not modelled.
- The history query orders rows by timestamp, newest first. The in-memory store
  returns rows in insertion order. This affects only which comes first for
  `DuplicateScan`: a duplicate, or a stored transaction without a merchant.
  `DuplicateScanSpec` holds for any order.
- Floating point is not modelled. Amounts are exact reals, with exact `>=` and
  `==`. `AmountText` renders an amount in plain decimal notation, not the
  scientific notation `Double.toString` switches to for large or small values.
- Case mapping is ASCII only. Unicode and locale-specific mapping are not
  modelled.
- The clock is not modelled.
  - `LocalDateTime.now()` is called once by the alert constructor and once by
    `getRecentTransactions`. Both readings are the single parameter `now`.
  - The alert table fills `created_at` itself. The stored row copies the
    alert's `createdAt` instead.
- `TransactionDao` rejects a `null` or blank account id and a `null` `since`.
  The model has only the blank account id case: ids are plain strings and
  `since` is a number.
- `save(null)` and `saveAlert(null)` (both ignored) are not modelled, and
  neither is a `null` transaction passed to `analyzeAndPersist`. Nothing in the
  pipeline passes any of them.
- `saveAlert` has two paths where no key is assigned: no row inserted, or no
  key returned. The in-memory store always inserts and always generates a key.
- `AlertDao.getAlertsByAccount` is not modelled, because nothing in the
  pipeline calls it.
- The no-argument constructors of `Transaction` and `FraudAlert` are not
  modelled. Neither are the getters or the `Transaction` setters.
  - The core only reads a `Transaction`, so it is an immutable datatype.
  - An alert's fields are read directly.
- Transaction ids, account ids and currency are never `null` in the model.
- The configured country and merchant sets hold no `null` entries and are
  never `null`. The `r != null` and `m != null` tests of the rules therefore
  have no counterpart.
- Configuration loading and the parsing of numbers are not modelled. A
  malformed number in the properties therefore has no counterpart. The
  configuration arrives as a parsed datatype.
- Rules are modelled as the five variants plus `Stub`.
  - Another implementation of the interface is modelled as `Stub`, a fixed
    verdict.
  - The interface's default `name()` (the class name) is the `Stub`'s name.
- Two Java methods are split into helper methods:
  - `analyzeAndPersist` into `ScoreRules`, `CheckHistory` and `Persist`;
  - `createRules` into one method per rule block.

  The statements and their order are those of the Java methods.
- Engine.ScoreNonNegative: assumes the exact sum fits in 32 bits, because the
  Java `int` accumulator wraps around. `Engine.ScoreWrapsAround` shows the case
  it excludes.
