/** src/services/TransactionService.ts: the earlier transfer engine.

    Inside one `$transaction` it appends the record first, then debits the
    sender and credits the receiver. Errors are classified only after the
    unit of work has been rolled back: a foreign-key error on `from_user_id`
    or `to_user_id` names the missing user, a check-constraint error naming
    `balance_nonnegative_check` is insufficient funds, and everything else
    (a "record not found" included) is rethrown as it came. */
module EarlyTransactionService {
  import opened Wrappers
  import opened Common
  import opened PrismaUtil
  import opened ServiceErrors
  import opened Store
  import Text

  /** The transaction the earlier service returns: the record id and the
      amount and users it was called with. */
  datatype TransactionView = TransactionView(id: string, amount: int, from_user_id: UserId, to_user_id: UserId)

  datatype TransferResult = TransferResult(transaction: TransactionView, final_balance: int)

  datatype Run<T> = Run(result: Result<T, ServiceError>, after: DbState, calls: seq<StoreCall>)

  function Append(amount: int, from_user_id: UserId, to_user_id: UserId): StoreCall {
    CreateTransactionCall(amount, from_user_id, to_user_id)
  }
  function Debit(amount: int, from_user_id: UserId): StoreCall { UpdateBalanceCall(from_user_id, -amount) }
  function Credit(amount: int, to_user_id: UserId): StoreCall { UpdateBalanceCall(to_user_id, amount) }

  /** The statements the earlier `createTransaction` issues, in order, when none fails. */
  function TransferCalls(amount: int, from_user_id: UserId, to_user_id: UserId): seq<StoreCall> {
    [Append(amount, from_user_id, to_user_id), Debit(amount, from_user_id), Credit(amount, to_user_id)]
  }

  /** The `catch` block around the `$transaction`, and its classification
      policy: only a foreign-key error whose field is `from_user_id` or
      `to_user_id` blames a user, only a check-constraint error naming
      `balance_nonnegative_check` is insufficient funds, and every other
      error, a foreign-key error on any other field and a "record not found"
      included, is rethrown unchanged. */
  function Classify(e: RawError, amount: int, from_user_id: UserId, to_user_id: UserId): (r: ServiceError)
    ensures r.UserIDNotFound? <==>
      IsForeignKeyConstraint(e) && FieldNameOfForeignKeyConstraintError(e) in {Some("from_user_id"), Some("to_user_id")}
    ensures FieldNameOfForeignKeyConstraintError(e) == Some("from_user_id") ==> r == UserIDNotFound(from_user_id)
    ensures FieldNameOfForeignKeyConstraintError(e) == Some("to_user_id") ==> r == UserIDNotFound(to_user_id)
    ensures r.InsufficientFunds? <==> e.UnknownRequest? && Text.Contains(e.message, BalanceCheckName)
    ensures r.InsufficientFunds? ==> r == InsufficientFunds(from_user_id, amount)
    ensures IsRecordNotFound(e) ==> r == Unclassified(e)
    ensures !r.UserIDNotFound? && !r.InsufficientFunds? ==> r == Unclassified(e)
  {
    if IsForeignKeyConstraint(e) && FieldNameOfForeignKeyConstraintError(e) == Some("from_user_id") then
      UserIDNotFound(from_user_id)
    else if IsForeignKeyConstraint(e) && FieldNameOfForeignKeyConstraintError(e) == Some("to_user_id") then
      UserIDNotFound(to_user_id)
    else if e.UnknownRequest? && Text.Contains(e.message, BalanceCheckName) then
      InsufficientFunds(from_user_id, amount)
    else Unclassified(e)
  }

  /** The earlier `createTransaction(amount, from_user_id, to_user_id)` on
      tables `s`, each statement failing if `faults` says so. */
  function TransferSpec(
    s: DbState, faults: map<StoreCall, RawError>,
    amount: int, from_user_id: UserId, to_user_id: UserId, id: string, now: Timestamp)
    : (run: Run<TransferResult>)
    ensures run.result.Err? ==> run.after == s
    ensures 1 <= |run.calls| <= 3 && run.calls == TransferCalls(amount, from_user_id, to_user_id)[..|run.calls|]
    ensures run.result.Ok? ==> |run.calls| == 3
  {
    var created := CreateTransactionStep(s, FaultIn(faults, Append(amount, from_user_id, to_user_id)),
                                         id, amount, from_user_id, to_user_id, now);
    if created.result.Err? then
      Run(Err(Classify(created.result.error, amount, from_user_id, to_user_id)), s,
          [Append(amount, from_user_id, to_user_id)])
    else
      var debit := UpdateBalanceStep(created.after, FaultIn(faults, Debit(amount, from_user_id)), from_user_id, -amount, now);
      if debit.result.Err? then
        Run(Err(Classify(debit.result.error, amount, from_user_id, to_user_id)), s,
            [Append(amount, from_user_id, to_user_id), Debit(amount, from_user_id)])
      else
        var credit := UpdateBalanceStep(debit.after, FaultIn(faults, Credit(amount, to_user_id)), to_user_id, amount, now);
        if credit.result.Err? then
          Run(Err(Classify(credit.result.error, amount, from_user_id, to_user_id)), s,
              TransferCalls(amount, from_user_id, to_user_id))
        else
          var view := TransactionView(created.result.value.row.id, amount, from_user_id, to_user_id);
          Run(Ok(TransferResult(view, debit.result.value.value)), credit.after, TransferCalls(amount, from_user_id, to_user_id))
  }

  /** Success between two different users: the record is appended, the
      sender's balance drops and the receiver's rises by `amount`, nothing
      else changes, and the result carries the inputs, the new record's id
      and the sender's balance after the debit. */
  lemma TransferMovesAmount(
    s: DbState, faults: map<StoreCall, RawError>,
    amount: int, from_user_id: UserId, to_user_id: UserId, id: string, now: Timestamp)
    requires from_user_id != to_user_id
    requires TransferSpec(s, faults, amount, from_user_id, to_user_id, id, now).result.Ok?
    ensures var run := TransferSpec(s, faults, amount, from_user_id, to_user_id, id, now);
      && from_user_id in s.balances && to_user_id in s.balances
      && run.after.balances.Keys == s.balances.Keys
      && run.after.balances[from_user_id].value == s.balances[from_user_id].value - amount
      && run.after.balances[to_user_id].value == s.balances[to_user_id].value + amount
      && (forall u :: u in s.balances && u != from_user_id && u != to_user_id ==> run.after.balances[u] == s.balances[u])
      && run.after.users == s.users && run.after.emails == s.emails
      && run.after.transactions == s.transactions + [TransactionRow(id, amount, from_user_id, to_user_id, now)]
      && run.result.value.transaction == TransactionView(id, amount, from_user_id, to_user_id)
      && run.result.value.final_balance == run.after.balances[from_user_id].value
  {
  }

  /** The balances are touched only after the record has been appended. */
  lemma BalancesOnlyAfterRecord(
    s: DbState, faults: map<StoreCall, RawError>,
    amount: int, from_user_id: UserId, to_user_id: UserId, id: string, now: Timestamp)
    requires |TransferSpec(s, faults, amount, from_user_id, to_user_id, id, now).calls| > 1
    ensures CreateTransactionStep(s, FaultIn(faults, Append(amount, from_user_id, to_user_id)),
                                  id, amount, from_user_id, to_user_id, now).result.Ok?
  {
  }

  /** With nothing but the data against it, a transfer of a positive amount
      between consistent tables fails for exactly one of three reasons, checked
      in this order: the sender does not exist, the receiver does not exist
      (both read back from the foreign-key error's message), the sender
      cannot cover the amount; otherwise it succeeds. */
  lemma {:induction false} TransferOutcome(
    s: DbState, amount: int, from_user_id: UserId, to_user_id: UserId, id: string, now: Timestamp)
    requires Consistent(s) && amount > 0
    ensures var r := TransferSpec(s, map[], amount, from_user_id, to_user_id, id, now).result;
      && (from_user_id !in s.users ==> r == Err(UserIDNotFound(from_user_id)))
      && (from_user_id in s.users && to_user_id !in s.users ==> r == Err(UserIDNotFound(to_user_id)))
      && (from_user_id in s.users && to_user_id in s.users && s.balances[from_user_id].value < amount ==>
            r == Err(InsufficientFunds(from_user_id, amount)))
      && (r.Ok? <==> from_user_id in s.users && to_user_id in s.users && s.balances[from_user_id].value >= amount)
  {
    FieldNameRoundTrip("from_user_id");
    FieldNameRoundTrip("to_user_id");
    NegativeBalanceMessageNamesCheck();
  }

  lemma TransferKeepsConsistent(
    s: DbState, faults: map<StoreCall, RawError>,
    amount: int, from_user_id: UserId, to_user_id: UserId, id: string, now: Timestamp)
    requires Consistent(s)
    ensures Consistent(TransferSpec(s, faults, amount, from_user_id, to_user_id, id, now).after)
  {
    var run := TransferSpec(s, faults, amount, from_user_id, to_user_id, id, now);
    if run.result.Ok? {
      var created := CreateTransactionStep(s, FaultIn(faults, Append(amount, from_user_id, to_user_id)),
                                           id, amount, from_user_id, to_user_id, now);
      CreateTransactionKeepsConsistent(s, FaultIn(faults, Append(amount, from_user_id, to_user_id)),
                                       id, amount, from_user_id, to_user_id, now);
      var debit := UpdateBalanceStep(created.after, FaultIn(faults, Debit(amount, from_user_id)), from_user_id, -amount, now);
      UpdateBalanceKeepsConsistent(created.after, FaultIn(faults, Debit(amount, from_user_id)), from_user_id, -amount, now);
      UpdateBalanceKeepsConsistent(debit.after, FaultIn(faults, Credit(amount, to_user_id)), to_user_id, amount, now);
    }
  }

  class TransactionService {
    const db: Db

    constructor(db: Db)
      ensures this.db == db
    {
      this.db := db;
    }

    /** The earlier `createTransaction`: `id` and `now` stand for the record
        id and the timestamp the database generates. */
    method CreateTransaction(amount: int, from_user_id: UserId, to_user_id: UserId, id: string, now: Timestamp)
      returns (r: Result<TransferResult, ServiceError>)
      modifies db
      ensures var run := TransferSpec(old(db.State()), old(db.faults), amount, from_user_id, to_user_id, id, now);
        r == run.result && db.State() == run.after && db.calls == old(db.calls) + run.calls
      ensures db.faults == old(db.faults)
      ensures old(db.Valid()) ==> db.Valid()
    {
      var snapshot := db.Begin();
      var created := db.CreateTransaction(id, amount, from_user_id, to_user_id, now);
      if created.Err? {
        db.Rollback(snapshot);
        return Err(Classify(created.error, amount, from_user_id, to_user_id));
      }
      var debit := db.UpdateBalance(from_user_id, -amount, now);
      if debit.Err? {
        db.Rollback(snapshot);
        return Err(Classify(debit.error, amount, from_user_id, to_user_id));
      }
      var credit := db.UpdateBalance(to_user_id, amount, now);
      if credit.Err? {
        db.Rollback(snapshot);
        return Err(Classify(credit.error, amount, from_user_id, to_user_id));
      }
      r := Ok(TransferResult(TransactionView(created.value.row.id, amount, from_user_id, to_user_id), debit.value.value));
    }
  }
}
