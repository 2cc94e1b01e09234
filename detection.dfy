/** `DetectionService.analyzeAndPersist`: score a transaction with the
    rules, the velocity check and the duplicate check, classify the score,
    persist the transaction and, unless the tier is LOW, persist and return
    an alert. */
module Detection {
  import opened Wrappers
  import opened JavaInt
  import opened JavaString
  import opened Model
  import opened Rules
  import opened Engine
  import opened Store

  const VelocityWeight: Int32 := 20
  const DuplicateWeight: Int32 := 15

  function VelocityReason(count: int, windowSeconds: int): string {
    "Velocity: " + IntText(count) + " txns within last " + IntText(windowSeconds) + "s"
  }

  const DuplicateReason := "Duplicate: same amount+merchant in recent window"

  // ---------------------------------------------------------------- risk tiers

  datatype Tier = Low | Medium | High

  function TierName(t: Tier): string {
    match t
    case Low => "LOW"
    case Medium => "MEDIUM"
    case High => "HIGH"
  }

  function TierRank(t: Tier): nat {
    match t
    case Low => 0
    case Medium => 1
    case High => 2
  }

  /** Step 4: HIGH from the high threshold on, else MEDIUM from the medium
      threshold on, else LOW. */
  function Classify(score: int, medium: int, high: int): Tier {
    if score >= high then High else if score >= medium then Medium else Low
  }

  /** The tier is LOW exactly below both thresholds, so an alert is raised
      exactly from the lower threshold on. */
  lemma ClassifyAlertIff(score: int, medium: int, high: int)
    ensures Classify(score, medium, high) != Low <==> score >= medium || score >= high
    ensures Classify(score, medium, high) == High <==> score >= high
  {
  }

  /** A higher score never gets a lower tier; this holds for any pair of
      thresholds, not only when medium <= high. */
  lemma ClassifyMonotone(s1: int, s2: int, medium: int, high: int)
    requires s1 <= s2
    ensures TierRank(Classify(s1, medium, high)) <= TierRank(Classify(s2, medium, high))
  {
  }

  /** The names are distinct, so comparing the risk string with "LOW" tests
      the tier. */
  lemma TierNameInjective(t: Tier, u: Tier)
    ensures TierName(t) == TierName(u) <==> t == u
    ensures TierName(t) == "LOW" <==> t == Low
  {
    if t != u {
      assert TierName(t)[0] != TierName(u)[0];
    }
  }

  // ---------------------------------------------------------------- duplicates

  /** A recent transaction is a duplicate when it has the same amount and a
      merchant equal to the transaction's, ignoring case. */
  predicate IsDuplicate(r: Transaction, tx: Transaction) {
    r.amount == tx.amount && r.merchant.Some? && tx.merchant.Some? && EqualsIgnoreCase(r.merchant.value, tx.merchant.value)
  }

  /** A recent transaction on which the duplicate test dereferences a `null`
      merchant. */
  predicate NullMerchantHazard(r: Transaction, tx: Transaction) {
    r.amount == tx.amount && r.merchant.None?
  }

  datatype Failure =
    | NullMerchantInHistory   // the duplicate test calls equalsIgnoreCase on a null merchant
    | NullTimestamp           // saving the transaction converts a null timestamp

  /** Step 3 as written: `anyMatch` stops at the first recent transaction
      that matches, and throws at one with the same amount and no merchant. */
  function DuplicateScan(recent: seq<Transaction>, tx: Transaction): Result<bool, Failure> {
    if recent == [] then Success(false)
    else
      var r := recent[0];
      if r.amount != tx.amount then DuplicateScan(recent[1..], tx)
      else if r.merchant.None? then Failure(NullMerchantInHistory)
      else if tx.merchant.Some? && EqualsIgnoreCase(r.merchant.value, tx.merchant.value) then Success(true)
      else DuplicateScan(recent[1..], tx)
  }

  /** The scan answers whether some recent transaction is a duplicate; it
      fails exactly when a hazard comes before every duplicate. */
  lemma {:induction false} DuplicateScanSpec(recent: seq<Transaction>, tx: Transaction)
    ensures DuplicateScan(recent, tx).Success? ==>
              (DuplicateScan(recent, tx).value <==> exists i :: 0 <= i < |recent| && IsDuplicate(recent[i], tx))
    ensures DuplicateScan(recent, tx).Failure? <==>
              exists i :: 0 <= i < |recent| && NullMerchantHazard(recent[i], tx) &&
                forall j :: 0 <= j < i ==> !IsDuplicate(recent[j], tx)
  {
    if recent != [] {
      var rest := recent[1..];
      DuplicateScanSpec(rest, tx);
      assert forall i :: 0 < i < |recent| ==> recent[i] == rest[i - 1];
      if DuplicateScan(recent, tx).Failure? && !NullMerchantHazard(recent[0], tx) {
        var k :| 0 <= k < |rest| && NullMerchantHazard(rest[k], tx) &&
                 forall j :: 0 <= j < k ==> !IsDuplicate(rest[j], tx);
        assert NullMerchantHazard(recent[k + 1], tx);
        forall j | 0 <= j < k + 1 ensures !IsDuplicate(recent[j], tx) {
          if j > 0 {
            assert recent[j] == rest[j - 1];
          }
        }
      }
      if !NullMerchantHazard(recent[0], tx) && !IsDuplicate(recent[0], tx) {
        assert DuplicateScan(recent, tx) == DuplicateScan(rest, tx);
        if exists i :: 0 <= i < |recent| && NullMerchantHazard(recent[i], tx) &&
             forall j :: 0 <= j < i ==> !IsDuplicate(recent[j], tx) {
          var i :| 0 <= i < |recent| && NullMerchantHazard(recent[i], tx) &&
                   forall j :: 0 <= j < i ==> !IsDuplicate(recent[j], tx);
          assert NullMerchantHazard(rest[i - 1], tx);
          forall j | 0 <= j < i - 1 ensures !IsDuplicate(rest[j], tx) {
            assert rest[j] == recent[j + 1];
          }
        }
      }
    }
  }

  /** Without a hazard in the history the scan always succeeds. */
  lemma NoHazardNoFailure(recent: seq<Transaction>, tx: Transaction)
    requires forall i :: 0 <= i < |recent| ==> !NullMerchantHazard(recent[i], tx)
    ensures DuplicateScan(recent, tx) == Success(exists i :: 0 <= i < |recent| && IsDuplicate(recent[i], tx))
  {
    DuplicateScanSpec(recent, tx);
  }

  // ---------------------------------------------------------------- the score

  /** The mathematical total of steps 1 to 3. */
  function ExactScore(vs: seq<Option<RuleResult>>, velocity: bool, duplicate: bool): int {
    MatchedSum(vs) + (if velocity then VelocityWeight else 0) + (if duplicate then DuplicateWeight else 0)
  }

  /** The reasons of steps 1 to 3: the matched rules' labels in list order,
      then the velocity reason, then the duplicate reason. */
  function Reasons(vs: seq<Option<RuleResult>>, velocity: Option<string>, duplicate: bool): seq<string> {
    MatchedLabels(vs) + (if velocity.Some? then [velocity.value] else []) + (if duplicate then [DuplicateReason] else [])
  }

  /** With neither history check firing the total is the engine's score. */
  lemma QuietHistoryIsEngineScore(vs: seq<Option<RuleResult>>)
    ensures Wrap(ExactScore(vs, false, false)) == Wrap(MatchedSum(vs))
    ensures Reasons(vs, None, false) == MatchedLabels(vs)
  {
  }

  /** The alert text lists the rule labels first and ends with the duplicate
      reason when a duplicate was found, joined by "; ". */
  lemma {:induction false} AlertTextEndsWithHistoryReasons(vs: seq<Option<RuleResult>>, velocity: Option<string>)
    requires MatchedLabels(vs) != [] || velocity.Some?
    ensures var before := MatchedLabels(vs) + (if velocity.Some? then [velocity.value] else []);
            Join("; ", Reasons(vs, velocity, true)) == Join("; ", before) + "; " + DuplicateReason
  {
    var before := MatchedLabels(vs) + (if velocity.Some? then [velocity.value] else []);
    assert Reasons(vs, velocity, true) == before + [DuplicateReason];
    JoinSnoc("; ", before, DuplicateReason);
  }

  // ---------------------------------------------------------------- the service

  class DetectionService {
    const txDao: TransactionDao
    const alertDao: AlertDao
    const rules: seq<Rule>
    const highRiskThreshold: Int32
    const mediumRiskThreshold: Int32
    const velocityWindowSeconds: Int32
    const velocityLimit: Int32

    predicate Valid()
      reads this, txDao, alertDao
    {
      txDao.Valid() && alertDao.Valid()
    }

    constructor (txDao: TransactionDao, alertDao: AlertDao, rules: seq<Rule>,
                 mediumRiskThreshold: Int32, highRiskThreshold: Int32,
                 velocityWindowSeconds: Int32, velocityLimit: Int32)
      ensures this.txDao == txDao && this.alertDao == alertDao && this.rules == rules
      ensures this.mediumRiskThreshold == mediumRiskThreshold && this.highRiskThreshold == highRiskThreshold
      ensures this.velocityWindowSeconds == velocityWindowSeconds && this.velocityLimit == velocityLimit
    {
      this.txDao := txDao;
      this.alertDao := alertDao;
      this.rules := rules;
      this.mediumRiskThreshold := mediumRiskThreshold;
      this.highRiskThreshold := highRiskThreshold;
      this.velocityWindowSeconds := velocityWindowSeconds;
      this.velocityLimit := velocityLimit;
    }

    /** The history the service reads for `tx` at time `now`. */
    function RecentFor(tx: Transaction, now: int): seq<Transaction>
      reads this, txDao
    {
      TransactionsSince(txDao.rows, tx.accountId, now - velocityWindowSeconds)
    }

    /** The velocity reason, present when the history reaches the limit. */
    function VelocityFor(recent: seq<Transaction>): Option<string> {
      if |recent| >= velocityLimit then Some(VelocityReason(|recent|, velocityWindowSeconds)) else None
    }

    /** The `int` total of steps 1 to 3. */
    function ScoreFor(tx: Transaction, recent: seq<Transaction>): Int32
      requires DuplicateScan(recent, tx).Success?
    {
      Wrap(ExactScore(Verdicts(rules, Some(tx)), VelocityFor(recent).Some?, DuplicateScan(recent, tx).value))
    }

    /** The reasons of steps 1 to 3. */
    function ReasonsFor(tx: Transaction, recent: seq<Transaction>): seq<string>
      requires DuplicateScan(recent, tx).Success?
    {
      Reasons(Verdicts(rules, Some(tx)), VelocityFor(recent), DuplicateScan(recent, tx).value)
    }

    /** The tier of step 4. */
    function TierFor(tx: Transaction, recent: seq<Transaction>): Tier
      requires DuplicateScan(recent, tx).Success?
    {
      Classify(ScoreFor(tx, recent), mediumRiskThreshold, highRiskThreshold)
    }

    /** `analyzeAndPersist(tx)`, the clock reading passed in as `now`. The
        history is read once, before the transaction is saved; the
        transaction is saved on every call that gets past the duplicate
        test; an alert is saved and returned exactly when the tier is not
        LOW. */
    method AnalyzeAndPersist(tx: Transaction, now: int) returns (result: Result<Option<FraudAlert>, Failure>)
      requires Valid()
      modifies txDao, alertDao
      ensures Valid()
      ensures var recent := old(RecentFor(tx, now));
              DuplicateScan(recent, tx).Failure? ==>
                result == Failure(NullMerchantInHistory) && unchanged(txDao, alertDao)
      ensures var recent := old(RecentFor(tx, now));
              DuplicateScan(recent, tx).Success? ==>
                txDao.saveLog == old(txDao.saveLog) + [tx] && txDao.rows == Saved(old(txDao.rows), tx)
      ensures var recent := old(RecentFor(tx, now));
              DuplicateScan(recent, tx).Success? && tx.timestamp.None? ==>
                result == Failure(NullTimestamp) && unchanged(alertDao)
      ensures var recent := old(RecentFor(tx, now));
              DuplicateScan(recent, tx).Success? && tx.timestamp.Some? && TierFor(tx, recent) == Low ==>
                result == Success(None) && unchanged(alertDao)
      ensures var recent := old(RecentFor(tx, now));
              DuplicateScan(recent, tx).Success? && tx.timestamp.Some? && TierFor(tx, recent) != Low ==>
                && result.Success? && result.value.Some? && fresh(result.value.value)
                && result.value.value.transactionId == tx.transactionId
                && result.value.value.accountId == tx.accountId
                && result.value.value.score == ScoreFor(tx, recent)
                && result.value.value.riskLevel == TierName(TierFor(tx, recent))
                && result.value.value.reason == Join("; ", ReasonsFor(tx, recent))
                && result.value.value.createdAt == now
                && result.value.value.id == old(alertDao.nextId)
                && alertDao.rows == old(alertDao.rows) + [Snapshot(result.value.value)]
                && alertDao.nextId == old(alertDao.nextId) + 1
    {
      ghost var recent0 := RecentFor(tx, now);
      // 1) the rules
      var totalScore, reasons := ScoreRules(tx);
      // 2) and 3) the history checks
      var recent := txDao.GetRecentTransactions(tx.accountId, velocityWindowSeconds, now);
      assert recent == recent0;
      var checked := CheckHistory(tx, recent, Verdicts(rules, Some(tx)), totalScore, reasons);
      if checked.Failure? {
        return Failure(checked.error);
      }
      totalScore, reasons := checked.value.0, checked.value.1;
      // 4) risk level
      var risk := TierName(Classify(totalScore, mediumRiskThreshold, highRiskThreshold));
      TierNameInjective(TierFor(tx, recent), Low);
      // 5) persist the transaction and the alert
      result := Persist(tx, totalScore, risk, reasons, now);
    }

    /** Step 1, the loop over the rules: the `int` sum of the scores of the
        non-null matched verdicts, and their "ruleName:reason" labels in
        list order. */
    method ScoreRules(tx: Transaction) returns (totalScore: Int32, reasons: seq<string>)
      ensures totalScore == Wrap(MatchedSum(Verdicts(rules, Some(tx))))
      ensures reasons == MatchedLabels(Verdicts(rules, Some(tx)))
    {
      totalScore := 0;
      reasons := [];
      for i := 0 to |rules|
        invariant totalScore == Wrap(MatchedSum(Verdicts(rules[..i], Some(tx))))
        invariant reasons == MatchedLabels(Verdicts(rules[..i], Some(tx)))
      {
        var result := Rules.Evaluate(rules[i], Some(tx));
        FoldStep(rules, Some(tx), i);
        ScoreStep(rules, Some(tx), i);
        if result.Some? && result.value.matched {
          totalScore := Add(totalScore, result.value.score);
          reasons := reasons + [Label(result.value)];
        }
      }
      assert rules[..|rules|] == rules;
    }

    /** Steps 2 and 3 on the history read once: +20 and the velocity reason
        when the history reaches the limit, then +15 and the duplicate
        reason when the duplicate test finds one. `vs` are the verdicts
        step 1 folded. */
    method CheckHistory(tx: Transaction, recent: seq<Transaction>, ghost vs: seq<Option<RuleResult>>,
                        totalScore: Int32, reasons: seq<string>)
      returns (checked: Result<(Int32, seq<string>), Failure>)
      requires totalScore == Wrap(MatchedSum(vs)) && reasons == MatchedLabels(vs)
      ensures DuplicateScan(recent, tx).Failure? ==> checked == Failure(NullMerchantInHistory)
      ensures DuplicateScan(recent, tx).Success? ==>
                var duplicate := DuplicateScan(recent, tx).value;
                checked == Success((Wrap(ExactScore(vs, VelocityFor(recent).Some?, duplicate)),
                                    Reasons(vs, VelocityFor(recent), duplicate)))
    {
      ghost var exact := MatchedSum(vs);
      var score, texts := totalScore, reasons;
      if |recent| >= velocityLimit {
        WrapAdd(exact, VelocityWeight);
        score := Add(score, VelocityWeight);
        exact := exact + VelocityWeight;
        texts := texts + [VelocityReason(|recent|, velocityWindowSeconds)];
      }
      var scan := DuplicateScan(recent, tx);
      if scan.Failure? {
        return Failure(NullMerchantInHistory);
      }
      if scan.value {
        WrapAdd(exact, DuplicateWeight);
        score := Add(score, DuplicateWeight);
        texts := texts + [DuplicateReason];
      }
      assert exact + (if scan.value then DuplicateWeight as int else 0) == ExactScore(vs, VelocityFor(recent).Some?, scan.value);
      assert texts == Reasons(vs, VelocityFor(recent), scan.value);
      return Success((score, texts));
    }

    /** Step 5: save the transaction, then, unless the risk is "LOW", build
        the alert and save it. A `null` timestamp makes the first save
        throw, and nothing after it happens. */
    method Persist(tx: Transaction, totalScore: Int32, risk: string, reasons: seq<string>, now: int)
      returns (result: Result<Option<FraudAlert>, Failure>)
      requires Valid()
      modifies txDao, alertDao
      ensures Valid()
      ensures txDao.saveLog == old(txDao.saveLog) + [tx] && txDao.rows == Saved(old(txDao.rows), tx)
      ensures tx.timestamp.None? ==> result == Failure(NullTimestamp) && unchanged(alertDao)
      ensures tx.timestamp.Some? && risk == "LOW" ==> result == Success(None) && unchanged(alertDao)
      ensures tx.timestamp.Some? && risk != "LOW" ==>
                && result.Success? && result.value.Some? && fresh(result.value.value)
                && result.value.value.transactionId == tx.transactionId
                && result.value.value.accountId == tx.accountId
                && result.value.value.score == totalScore
                && result.value.value.riskLevel == risk
                && result.value.value.reason == Join("; ", reasons)
                && result.value.value.createdAt == now
                && result.value.value.id == old(alertDao.nextId)
                && alertDao.rows == old(alertDao.rows) + [Snapshot(result.value.value)]
                && alertDao.nextId == old(alertDao.nextId) + 1
    {
      var outcome := txDao.Save(tx);
      if outcome == NullTimestampThrown {
        return Failure(NullTimestamp);
      }
      if risk != "LOW" {
        var reasonTxt := Join("; ", reasons);
        var alert := new FraudAlert(tx.transactionId, tx.accountId, totalScore, risk, reasonTxt, now);
        alertDao.SaveAlert(alert);
        return Success(Some(alert));
      }
      return Success(None);
    }
  }
}
