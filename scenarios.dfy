/** The two service scenarios of the test suite on fresh in-memory stores:
    a rule that never matches leaves the transaction LOW and raises no
    alert; a rule that matches with 50 points makes it MEDIUM (thresholds
    30 and 60) and raises one alert. The clock reading and the hour of the
    transaction are parameters, so each scenario holds at every time. */
module Scenarios {
  import opened Wrappers
  import opened JavaString
  import opened Model
  import opened Rules
  import opened Engine
  import opened Store
  import opened Detection

  function TestTransaction(id: string, amount: real, now: int, hour: Hour): Transaction {
    Transaction(id, "acct1", amount, "INR", Some(Timestamp(now, hour)), Some("M"), Some("India"), Some("Card"))
  }

  method LowRiskTransactionDoesNotCreateAlert(now: int, hour: Hour)
    returns (result: Result<Option<FraudAlert>, Failure>, txRows: seq<Transaction>, alertRows: seq<AlertRow>)
    ensures result == Success(None)
    ensures txRows == [TestTransaction("T1", 10.0, now, hour)]
    ensures alertRows == []
  {
    var txDao := new TransactionDao();
    var alertDao := new AlertDao();
    var zeroRule := Stub("zeroRule", Some(RuleResult("zeroRule", false, 0, "ok")));
    var svc := new DetectionService(txDao, alertDao, [zeroRule], 30, 60, 120, 3);
    var t := TestTransaction("T1", 10.0, now, hour);
    assert svc.RecentFor(t, now) == [];
    assert Verdicts([zeroRule], Some(t)) == [zeroRule.verdict];
    assert MatchedSum([zeroRule.verdict]) == 0;
    assert svc.TierFor(t, []) == Low;
    result := svc.AnalyzeAndPersist(t, now);
    // `save` was called once, with the transaction
    assert txDao.saveLog == [t];
    txRows, alertRows := txDao.rows, alertDao.rows;
  }

  method HighRiskTransactionCreatesAlert(now: int, hour: Hour)
    returns (result: Result<Option<FraudAlert>, Failure>, txRows: seq<Transaction>, alertRows: seq<AlertRow>)
    ensures result.Success? && result.value.Some?
    ensures txRows == [TestTransaction("T2", 1000.0, now, hour)]
    ensures alertRows == [AlertRow(1, "T2", "acct1", 50, "MEDIUM", "highRule:big", now)]
  {
    var txDao := new TransactionDao();
    var alertDao := new AlertDao();
    var highRule := Stub("highRule", Some(RuleResult("highRule", true, 50, "big")));
    var svc := new DetectionService(txDao, alertDao, [highRule], 30, 60, 120, 3);
    var t := TestTransaction("T2", 1000.0, now, hour);
    assert svc.RecentFor(t, now) == [];
    assert Verdicts([highRule], Some(t)) == [highRule.verdict];
    assert MatchedSum([highRule.verdict]) == 50;
    assert [highRule.verdict][..0] == [];
    assert Label(highRule.verdict.value) == "highRule:big";
    assert MatchedLabels([highRule.verdict]) == ["highRule:big"];
    assert svc.ScoreFor(t, []) == 50 && svc.TierFor(t, []) == Medium;
    assert Join("; ", svc.ReasonsFor(t, [])) == "highRule:big";
    result := svc.AnalyzeAndPersist(t, now);
    // `save` and `saveAlert` were each called once
    assert txDao.saveLog == [t];
    txRows, alertRows := txDao.rows, alertDao.rows;
  }
}
