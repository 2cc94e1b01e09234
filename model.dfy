/** The records the detection pipeline works on: the transaction under
    inspection, the verdict of one rule, and the alert raised for a risky
    transaction. */
module Model {
  import opened Wrappers
  import opened JavaInt

  type Hour = h: int | 0 <= h < 24

  /** A `LocalDateTime`: the point in time (seconds on a fixed time line)
      and its hour of the day. */
  datatype Timestamp = Timestamp(instant: int, hour: Hour)

  /** A transaction. The core only reads transactions, so the mutable Java
      bean becomes a value; the fields the rules test for `null` are
      optional. */
  datatype Transaction = Transaction(
    transactionId: string,
    accountId: string,
    amount: real,
    currency: string,
    timestamp: Option<Timestamp>,
    merchant: Option<string>,
    location: Option<string>,
    channel: Option<string>)

  /** The immutable verdict of one rule on one transaction. */
  datatype RuleResult = RuleResult(ruleName: string, matched: bool, score: Int32, reason: string)

  /** An alert. Its fields are mutable, and `AlertDao.saveAlert` assigns
      the generated key through `SetId` after inserting it. */
  class FraudAlert {
    var id: int
    var transactionId: string
    var accountId: string
    var score: Int32
    var riskLevel: string
    var reason: string
    var createdAt: int

    /** The five-argument constructor; `createdAt` is the clock reading
        `LocalDateTime.now()` takes, passed in. */
    constructor (transactionId: string, accountId: string, score: Int32, riskLevel: string,
                 reason: string, createdAt: int)
      ensures this.id == 0
      ensures this.transactionId == transactionId && this.accountId == accountId
      ensures this.score == score && this.riskLevel == riskLevel && this.reason == reason
      ensures this.createdAt == createdAt
    {
      this.id := 0;
      this.transactionId := transactionId;
      this.accountId := accountId;
      this.score := score;
      this.riskLevel := riskLevel;
      this.reason := reason;
      this.createdAt := createdAt;
    }

    method SetId(id: int)
      modifies this`id
      ensures this.id == id
    {
      this.id := id;
    }

    method SetTransactionId(transactionId: string)
      modifies this`transactionId
      ensures this.transactionId == transactionId
    {
      this.transactionId := transactionId;
    }

    method SetAccountId(accountId: string)
      modifies this`accountId
      ensures this.accountId == accountId
    {
      this.accountId := accountId;
    }

    method SetScore(score: Int32)
      modifies this`score
      ensures this.score == score
    {
      this.score := score;
    }

    method SetRiskLevel(riskLevel: string)
      modifies this`riskLevel
      ensures this.riskLevel == riskLevel
    {
      this.riskLevel := riskLevel;
    }

    method SetReason(reason: string)
      modifies this`reason
      ensures this.reason == reason
    {
      this.reason := reason;
    }

    method SetCreatedAt(createdAt: int)
      modifies this`createdAt
      ensures this.createdAt == createdAt
    {
      this.createdAt := createdAt;
    }
  }
}
