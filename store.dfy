/** In-memory stand-ins for `TransactionDao` and `AlertDao`. They keep the
    contracts the detection service relies on: a transaction id is stored at
    most once and saving it again changes nothing, the history of an account
    is its transactions from a given instant on, and every saved alert gets
    a fresh id. */
module Store {
  import opened Wrappers
  import opened JavaInt
  import opened JavaString
  import opened Model

  // ---------------------------------------------------------------- transactions

  /** What one call of `save(t)` does. */
  datatype SaveOutcome =
    | Inserted
      // the store already holds the id: the integrity violation is ignored
    | DuplicateIgnored
      // `Timestamp.valueOf(null)` throws before anything is written
    | NullTimestampThrown

  predicate HasId(rows: seq<Transaction>, id: string) {
    exists i :: 0 <= i < |rows| && rows[i].transactionId == id
  }

  /** The rows a store holds: each with a timestamp, and no id twice. */
  predicate WellFormed(rows: seq<Transaction>) {
    && (forall i :: 0 <= i < |rows| ==> rows[i].timestamp.Some?)
    && (forall i, j :: 0 <= i < j < |rows| ==> rows[i].transactionId != rows[j].transactionId)
  }

  /** The rows after `save(t)`. */
  function Saved(rows: seq<Transaction>, t: Transaction): seq<Transaction> {
    if t.timestamp.None? || HasId(rows, t.transactionId) then rows else rows + [t]
  }

  lemma SavedWellFormed(rows: seq<Transaction>, t: Transaction)
    requires WellFormed(rows)
    ensures WellFormed(Saved(rows, t))
  {
    if t.timestamp.Some? && !HasId(rows, t.transactionId) {
      var r := rows + [t];
      forall i, j | 0 <= i < j < |r| ensures r[i].transactionId != r[j].transactionId {
        if j == |rows| {
          assert r[i] == rows[i];
        }
      }
    }
  }

  /** After a save the store holds the id, unless the save threw; a second
      save of the same transaction changes nothing. */
  lemma SaveIdempotent(rows: seq<Transaction>, t: Transaction)
    ensures t.timestamp.Some? ==> HasId(Saved(rows, t), t.transactionId)
    ensures Saved(Saved(rows, t), t) == Saved(rows, t)
  {
    if t.timestamp.Some? && !HasId(rows, t.transactionId) {
      var r := rows + [t];
      assert r[|rows|].transactionId == t.transactionId;
    }
  }

  /** A save never removes or alters a stored row; it adds `t` or nothing. */
  lemma SavedContents(rows: seq<Transaction>, t: Transaction)
    ensures rows <= Saved(rows, t)
    ensures |Saved(rows, t)| <= |rows| + 1
    ensures forall x :: x in Saved(rows, t) <==> x in rows || (x == t && t.timestamp.Some? && !HasId(rows, t.transactionId))
  {
  }

  /** A row of the account at or after `since`. */
  predicate InWindow(t: Transaction, accountId: string, since: int) {
    t.accountId == accountId && t.timestamp.Some? && t.timestamp.value.instant >= since
  }

  /** The rows of `accountId` from `since` on, in store order. */
  function Since(rows: seq<Transaction>, accountId: string, since: int): seq<Transaction> {
    if rows == [] then []
    else
      var last := rows[|rows| - 1];
      Since(rows[..|rows| - 1], accountId, since) + (if InWindow(last, accountId, since) then [last] else [])
  }

  /** `getTransactionsSince(accountId, since)`: nothing for a blank account
      id. */
  function TransactionsSince(rows: seq<Transaction>, accountId: string, since: int): seq<Transaction> {
    if Trim(accountId) == "" then [] else Since(rows, accountId, since)
  }

  /** The history holds exactly the stored transactions of the account whose
      timestamp is not before `since`, and never more rows than the store. */
  lemma {:induction false} SinceMembers(rows: seq<Transaction>, accountId: string, since: int)
    ensures |Since(rows, accountId, since)| <= |rows|
    ensures forall x :: x in Since(rows, accountId, since) <==> x in rows && InWindow(x, accountId, since)
  {
    if rows != [] {
      var init := rows[..|rows| - 1];
      SinceMembers(init, accountId, since);
      assert rows == init + [rows[|rows| - 1]];
    }
  }

  lemma HistorySpec(rows: seq<Transaction>, accountId: string, since: int)
    ensures Trim(accountId) == "" ==> TransactionsSince(rows, accountId, since) == []
    ensures Trim(accountId) != "" ==>
              forall x :: x in TransactionsSince(rows, accountId, since) <==> x in rows && InWindow(x, accountId, since)
    ensures |TransactionsSince(rows, accountId, since)| <= |rows|
  {
    SinceMembers(rows, accountId, since);
  }

  /** A longer window sees at least the rows of a shorter one. */
  lemma {:induction false} SinceWidens(rows: seq<Transaction>, accountId: string, since: int, earlier: int)
    requires earlier <= since
    ensures |Since(rows, accountId, since)| <= |Since(rows, accountId, earlier)|
  {
    if rows != [] {
      SinceWidens(rows[..|rows| - 1], accountId, since, earlier);
    }
  }

  class TransactionDao {
    var rows: seq<Transaction>
    /** Every transaction `save` has been called with, in call order. */
    ghost var saveLog: seq<Transaction>

    predicate Valid()
      reads this
    {
      WellFormed(rows)
    }

    constructor ()
      ensures Valid() && rows == [] && saveLog == []
    {
      rows := [];
      saveLog := [];
    }

    /** `save(t)`. */
    method Save(t: Transaction) returns (outcome: SaveOutcome)
      requires Valid()
      modifies this
      ensures Valid()
      ensures saveLog == old(saveLog) + [t]
      ensures rows == Saved(old(rows), t)
      ensures outcome == if t.timestamp.None? then NullTimestampThrown
                         else if HasId(old(rows), t.transactionId) then DuplicateIgnored
                         else Inserted
    {
      saveLog := saveLog + [t];
      SavedWellFormed(rows, t);
      if t.timestamp.None? {
        return NullTimestampThrown;
      }
      if exists i :: 0 <= i < |rows| && rows[i].transactionId == t.transactionId {
        return DuplicateIgnored;
      }
      rows := rows + [t];
      return Inserted;
    }

    /** `getTransactionsSince(accountId, since)`: the query's result set read
        row by row. */
    method GetTransactionsSince(accountId: string, since: int) returns (list: seq<Transaction>)
      ensures list == TransactionsSince(rows, accountId, since)
    {
      if Trim(accountId) == "" {
        return [];
      }
      list := [];
      for i := 0 to |rows|
        invariant list == Since(rows[..i], accountId, since)
      {
        assert rows[..i + 1][..i] == rows[..i];
        if InWindow(rows[i], accountId, since) {
          list := list + [rows[i]];
        }
      }
      assert rows[..|rows|] == rows;
    }

    /** `getRecentTransactions(accountId, windowSeconds)`, the clock reading
        passed in as `now`. */
    method GetRecentTransactions(accountId: string, windowSeconds: Int32, now: int) returns (list: seq<Transaction>)
      ensures list == TransactionsSince(rows, accountId, now - windowSeconds)
    {
      list := GetTransactionsSince(accountId, now - windowSeconds);
    }
  }

  // ---------------------------------------------------------------- alerts

  /** A row of the alerts table: a copy of the alert's fields at insertion. */
  datatype AlertRow = AlertRow(
    id: int, transactionId: string, accountId: string, score: Int32,
    riskLevel: string, reason: string, createdAt: int)

  function Snapshot(a: FraudAlert): AlertRow
    reads a
  {
    AlertRow(a.id, a.transactionId, a.accountId, a.score, a.riskLevel, a.reason, a.createdAt)
  }

  /** Generated keys are positive and increase in insertion order. */
  predicate KeysIncrease(rows: seq<AlertRow>, nextId: int) {
    && nextId >= 1
    && (forall i :: 0 <= i < |rows| ==> 1 <= rows[i].id < nextId)
    && (forall i, j :: 0 <= i < j < |rows| ==> rows[i].id < rows[j].id)
  }

  class AlertDao {
    var rows: seq<AlertRow>
    /** The key the identity column generates next. */
    var nextId: int

    predicate Valid()
      reads this
    {
      KeysIncrease(rows, nextId)
    }

    constructor ()
      ensures Valid() && rows == [] && nextId == 1
    {
      rows := [];
      nextId := 1;
    }

    /** `saveAlert(a)`: insert the row and hand the generated key back
        through `setId`. */
    method SaveAlert(a: FraudAlert)
      requires Valid()
      modifies this, a`id
      ensures Valid()
      ensures a.id == old(nextId) && nextId == old(nextId) + 1
      ensures forall i :: 0 <= i < |old(rows)| ==> old(rows)[i].id != a.id
      ensures rows == old(rows) + [Snapshot(a)]
    {
      var generatedId := nextId;
      a.SetId(generatedId);
      rows := rows + [Snapshot(a)];
      nextId := nextId + 1;
    }
  }
}
