/**
 * The hosted database's credit ledger: the `credits` column of `profiles`,
 * the `credit_transactions` table and the `update_user_credits` stored
 * procedure. The procedure's body is not part of this model: only its
 * arguments and its reply are. It is modelled as one atomic step that adds a
 * signed amount to the user's balance and appends one transaction record.
 */
module Ledger {
  import opened Js
  import opened Types

  /** One row of `credit_transactions` (its id and timestamp are left out). */
  datatype Transaction = Transaction(
    userId: UserId,
    amount: int,
    kind: TransactionType,
    description: string,
    referenceId: Option<string>)

  /**
   * How a call to the hosted database ends, which the application does not
   * control: it completes, the client library hands back an error object, or
   * the call throws.
   */
  datatype CallOutcome = Completes | ReturnsError(message: string) | Throws(message: string)

  /** What the caller of `update_user_credits` receives. */
  datatype RpcReply = RpcOk | RpcError(message: string) | RpcThrew(message: string)

  /** The message of the error the procedure reports for a user without a profile. */
  const NO_PROFILE := "user has no profile"

  /** The stored part of the ledger. */
  datatype LedgerState = LedgerState(credits: map<UserId, int>, log: seq<Transaction>)

  /** Sum of the amounts of `u`'s transactions in `log`. */
  function SumFor(log: seq<Transaction>, u: UserId): int
    decreases |log|
  {
    if log == [] then 0
    else SumFor(log[..|log| - 1], u) + (if log[|log| - 1].userId == u then log[|log| - 1].amount else 0)
  }

  /**
   * The ledger invariant: every balance is the sum of that user's transaction
   * amounts, and every transaction belongs to a user with a profile.
   */
  ghost predicate Consistent(s: LedgerState) {
    && (forall u :: u in s.credits ==> s.credits[u] == SumFor(s.log, u))
    && (forall i :: 0 <= i < |s.log| ==> s.log[i].userId in s.credits)
  }

  /** Append `tx` and move its user's balance by its amount. */
  function Record(s: LedgerState, tx: Transaction): (t: LedgerState)
    requires tx.userId in s.credits
    ensures t.log == s.log + [tx]
    ensures t.credits.Keys == s.credits.Keys
    ensures t.credits[tx.userId] == s.credits[tx.userId] + tx.amount
    ensures forall v :: v in s.credits && v != tx.userId ==> t.credits[v] == s.credits[v]
  {
    LedgerState(s.credits[tx.userId := s.credits[tx.userId] + tx.amount], s.log + [tx])
  }

  /**
   * One call of `update_user_credits(tx)`: when the call completes for a user
   * with a profile, the transaction is recorded; otherwise nothing changes and
   * the caller receives the error.
   */
  function Call(s: LedgerState, tx: Transaction, outcome: CallOutcome): (r: (LedgerState, RpcReply))
    ensures r.1 == RpcOk <==> outcome == Completes && tx.userId in s.credits
    ensures r.1 == RpcOk ==> r.0 == Record(s, tx)
    ensures r.1 != RpcOk ==> r.0 == s
    ensures outcome.Throws? ==> r.1 == RpcThrew(outcome.message)
    ensures outcome.ReturnsError? ==> r.1 == RpcError(outcome.message)
  {
    match outcome
    case Throws(m) => (s, RpcThrew(m))
    case ReturnsError(m) => (s, RpcError(m))
    case Completes =>
      if tx.userId in s.credits then (Record(s, tx), RpcOk) else (s, RpcError(NO_PROFILE))
  }

  lemma SumForAppend(log: seq<Transaction>, tx: Transaction, u: UserId)
    ensures SumFor(log + [tx], u) == SumFor(log, u) + (if tx.userId == u then tx.amount else 0)
  {
    assert (log + [tx])[..|log + [tx]| - 1] == log;
  }

  /** Recording a transaction keeps every balance equal to its user's sum. */
  lemma RecordKeepsConsistent(s: LedgerState, tx: Transaction)
    requires Consistent(s) && tx.userId in s.credits
    ensures Consistent(Record(s, tx))
  {
    var t := Record(s, tx);
    forall u | u in t.credits
      ensures t.credits[u] == SumFor(t.log, u)
    {
      SumForAppend(s.log, tx, u);
    }
  }

  /** Whatever its outcome, a call keeps the ledger consistent. */
  lemma CallKeepsConsistent(s: LedgerState, tx: Transaction, outcome: CallOutcome)
    requires Consistent(s)
    ensures Consistent(Call(s, tx, outcome).0)
  {
    if Call(s, tx, outcome).1 == RpcOk {
      RecordKeepsConsistent(s, tx);
    }
  }

  /** A successful call changes exactly one balance, by exactly the amount. */
  lemma CallMovesOneBalance(s: LedgerState, tx: Transaction, outcome: CallOutcome, v: UserId)
    requires Call(s, tx, outcome).1 == RpcOk && v in s.credits
    ensures Call(s, tx, outcome).0.credits[v] == s.credits[v] + (if v == tx.userId then tx.amount else 0)
    ensures |Call(s, tx, outcome).0.log| == |s.log| + 1
  {
  }

  class Ledger {
    var credits: map<UserId, int>
    var log: seq<Transaction>

    function State(): LedgerState
      reads this
    {
      LedgerState(credits, log)
    }

    ghost predicate Valid()
      reads this
    {
      Consistent(State())
    }

    /** A ledger whose users all start with no credits and no history. */
    constructor (users: set<UserId>)
      ensures Valid()
      ensures credits == map u | u in users :: 0
      ensures log == []
    {
      credits := map u | u in users :: 0;
      log := [];
    }

    /** The stored procedure `update_user_credits`, as one atomic step. */
    method UpdateUserCredits(
      userId: UserId, amount: int, kind: TransactionType, description: string,
      referenceId: Option<string>, outcome: CallOutcome)
      returns (reply: RpcReply)
      requires Valid()
      modifies this
      ensures Valid()
      ensures (State(), reply) == Call(old(State()), Transaction(userId, amount, kind, description, referenceId), outcome)
    {
      var tx := Transaction(userId, amount, kind, description, referenceId);
      CallKeepsConsistent(State(), tx, outcome);
      var r := Call(State(), tx, outcome);
      credits, log := r.0.credits, r.0.log;
      reply := r.1;
    }
  }
}

/** Plain inserts into a table of the hosted database. */
module Tables {
  import opened Js

  /** The insert either succeeds and the store assigns the row's id, or fails. */
  datatype InsertOutcome = Inserted(id: string) | InsertFailed(message: string)

  class Table<R> {
    var rows: seq<(string, R)>

    constructor ()
      ensures rows == []
    {
      rows := [];
    }

    /** `insert(row).select().single()`: the stored row's id, or nothing. */
    method Insert(row: R, outcome: InsertOutcome) returns (id: Option<string>)
      modifies this
      ensures outcome.Inserted? ==> id == Some(outcome.id) && rows == old(rows) + [(outcome.id, row)]
      ensures outcome.InsertFailed? ==> id == None && rows == old(rows)
    {
      match outcome
      case Inserted(i) =>
        rows := rows + [(i, row)];
        id := Some(i);
      case InsertFailed(_) =>
        id := None;
    }
  }
}
