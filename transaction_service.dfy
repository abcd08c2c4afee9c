/** server/src/services/TransactionService.ts: the transfer engine.

    `createTransaction` runs, inside one `$transaction`, the debit of the
    sender, the credit of the receiver and the append of the record, in that
    order. A `found_sender` flag set after the debit decides whom a "record
    not found" error blames; a check-constraint error naming
    `balance_nonnegative_check` means insufficient funds; anything else is
    rethrown. Any thrown error rolls the whole unit of work back.

    `retrieveTransactions` reads the sender's records newest first and maps
    each to the view the service returns. */
module ServerTransactionService {
  import opened Wrappers
  import opened Common
  import opened PrismaUtil
  import opened ServiceErrors
  import opened Store
  import Text

  /** The server's `MiniTocoTransaction` as the service fills it in: amount,
      sender, receiver's email, record id and creation date. */
  datatype TransactionView = TransactionView(
    id: string, amount: int, from_user_id: UserId, to_user_email: string, date: Timestamp)

  datatype TransferResult = TransferResult(transaction: TransactionView, final_balance: int)

  /** The outcome of a service call: its result, the tables after it, and
      the statements it issued. */
  datatype Run<T> = Run(result: Result<T, ServiceError>, after: DbState, calls: seq<StoreCall>)

  /** The `catch` block of `createTransaction`, and its classification
      policy: a not-found error blames the receiver once the sender has been
      found and the sender before; a check-constraint error naming
      `balance_nonnegative_check` is insufficient funds of the sender for the
      amount; every other error is rethrown unchanged. */
  function Classify(e: RawError, found_sender: bool, amount: int, from_user_id: UserId, to_user_id: UserId)
    : (r: ServiceError)
    ensures r.UserIDNotFound? <==> IsRecordNotFound(e)
    ensures r.UserIDNotFound? ==> r.user_id == (if found_sender then to_user_id else from_user_id)
    ensures r.InsufficientFunds? <==> !IsRecordNotFound(e) && e.UnknownRequest? && Text.Contains(e.message, BalanceCheckName)
    ensures r.InsufficientFunds? ==> r == InsufficientFunds(from_user_id, amount)
    ensures !r.UserIDNotFound? && !r.InsufficientFunds? ==> r == Unclassified(e)
  {
    if IsRecordNotFound(e) then UserIDNotFound(if found_sender then to_user_id else from_user_id)
    else if e.UnknownRequest? && Text.Contains(e.message, BalanceCheckName) then InsufficientFunds(from_user_id, amount)
    else Unclassified(e)
  }

  function Debit(amount: int, from_user_id: UserId): StoreCall { UpdateBalanceCall(from_user_id, -amount) }
  function Credit(amount: int, to_user_id: UserId): StoreCall { UpdateBalanceCall(to_user_id, amount) }
  function Append(amount: int, from_user_id: UserId, to_user_id: UserId): StoreCall {
    CreateTransactionCall(amount, from_user_id, to_user_id)
  }

  /** The statements `createTransaction` issues, in order, when none fails. */
  function TransferCalls(amount: int, from_user_id: UserId, to_user_id: UserId): seq<StoreCall> {
    [Debit(amount, from_user_id), Credit(amount, to_user_id), Append(amount, from_user_id, to_user_id)]
  }

  /** `createTransaction(amount, from_user_id, to_user_id)` on tables `s`,
      each statement failing if `faults` says so; `id` and `now`
      are the record id and the clock the database supplies. */
  function TransferSpec(
    s: DbState, faults: map<StoreCall, RawError>,
    amount: int, from_user_id: UserId, to_user_id: UserId, id: string, now: Timestamp)
    : (run: Run<TransferResult>)
    ensures run.result.Err? ==> run.after == s
    ensures 1 <= |run.calls| <= 3 && run.calls == TransferCalls(amount, from_user_id, to_user_id)[..|run.calls|]
    ensures run.result.Ok? ==> |run.calls| == 3
  {
    var debit := UpdateBalanceStep(s, FaultIn(faults, Debit(amount, from_user_id)), from_user_id, -amount, now);
    if debit.result.Err? then
      Run(Err(Classify(debit.result.error, false, amount, from_user_id, to_user_id)), s,
          [Debit(amount, from_user_id)])
    else
      AfterDebit(s, debit.after, debit.result.value.value, faults, amount, from_user_id, to_user_id, id, now)
  }

  /** The rest of `createTransaction` once the sender has been found and
      debited: `s` is the state to roll back to, `current` the state after
      the debit and `final_balance` the sender's new balance. */
  function AfterDebit(
    s: DbState, current: DbState, final_balance: int, faults: map<StoreCall, RawError>,
    amount: int, from_user_id: UserId, to_user_id: UserId, id: string, now: Timestamp)
    : (run: Run<TransferResult>)
    ensures run.result.Err? ==> run.after == s
    ensures 2 <= |run.calls| <= 3 && run.calls == TransferCalls(amount, from_user_id, to_user_id)[..|run.calls|]
    ensures run.result.Ok? ==> |run.calls| == 3
  {
    var credit := UpdateBalanceStep(current, FaultIn(faults, Credit(amount, to_user_id)), to_user_id, amount, now);
    if credit.result.Err? then
      Run(Err(Classify(credit.result.error, true, amount, from_user_id, to_user_id)), s,
          [Debit(amount, from_user_id), Credit(amount, to_user_id)])
    else
      var created := CreateTransactionStep(credit.after, FaultIn(faults, Append(amount, from_user_id, to_user_id)), id, amount, from_user_id, to_user_id, now);
      if created.result.Err? then
        Run(Err(Classify(created.result.error, true, amount, from_user_id, to_user_id)), s,
            TransferCalls(amount, from_user_id, to_user_id))
      else
        var row := created.result.value.row;
        var view := TransactionView(row.id, row.amount, row.from_user_id, created.result.value.to_user_email, row.created_at);
        Run(Ok(TransferResult(view, final_balance)), created.after, TransferCalls(amount, from_user_id, to_user_id))
  }

  /** Success between two different users: the sender's balance drops by
      `amount`, the receiver's rises by `amount`, no other balance and no
      user changes, exactly one record (amount, from, to) is appended, and
      the result carries that record and the sender's new balance. */
  lemma TransferMovesAmount(
    s: DbState, faults: map<StoreCall, RawError>,
    amount: int, from_user_id: UserId, to_user_id: UserId, id: string, now: Timestamp)
    requires from_user_id != to_user_id
    requires TransferSpec(s, faults, amount, from_user_id, to_user_id, id, now).result.Ok?
    ensures var run := TransferSpec(s, faults, amount, from_user_id, to_user_id, id, now);
      && from_user_id in s.balances && to_user_id in s.balances && to_user_id in s.users
      && run.after.balances.Keys == s.balances.Keys
      && run.after.balances[from_user_id].value == s.balances[from_user_id].value - amount
      && run.after.balances[to_user_id].value == s.balances[to_user_id].value + amount
      && (forall u :: u in s.balances && u != from_user_id && u != to_user_id ==> run.after.balances[u] == s.balances[u])
      && run.after.users == s.users && run.after.emails == s.emails
      && run.after.transactions == s.transactions + [TransactionRow(id, amount, from_user_id, to_user_id, now)]
      && run.result.value.transaction == TransactionView(id, amount, from_user_id, s.users[to_user_id].email, now)
      && run.result.value.final_balance == run.after.balances[from_user_id].value
  {
  }

  /** Whatever the users, the log gains the record (amount, from, to) when the
      transfer succeeds and stays as it was otherwise. */
  lemma TransferLogEffect(
    s: DbState, faults: map<StoreCall, RawError>,
    amount: int, from_user_id: UserId, to_user_id: UserId, id: string, now: Timestamp)
    ensures var run := TransferSpec(s, faults, amount, from_user_id, to_user_id, id, now);
      && (run.result.Err? ==> run.after.transactions == s.transactions)
      && (run.result.Ok? ==>
            run.after.transactions == s.transactions + [TransactionRow(id, amount, from_user_id, to_user_id, now)])
  {
  }

  /** Sending to oneself, when it succeeds, leaves the balance where it was
      and still appends a record. */
  lemma SelfTransferKeepsBalance(
    s: DbState, faults: map<StoreCall, RawError>, amount: int, user_id: UserId, id: string, now: Timestamp)
    requires TransferSpec(s, faults, amount, user_id, user_id, id, now).result.Ok?
    ensures var run := TransferSpec(s, faults, amount, user_id, user_id, id, now);
      && user_id in s.balances
      && run.after.balances[user_id].value == s.balances[user_id].value
      && run.after.transactions == s.transactions + [TransactionRow(id, amount, user_id, user_id, now)]
      && run.result.value.final_balance == s.balances[user_id].value - amount
  {
  }

  /** The record is created only after both balance updates have succeeded. */
  lemma RecordOnlyAfterBothUpdates(
    s: DbState, faults: map<StoreCall, RawError>,
    amount: int, from_user_id: UserId, to_user_id: UserId, id: string, now: Timestamp)
    requires Append(amount, from_user_id, to_user_id) in TransferSpec(s, faults, amount, from_user_id, to_user_id, id, now).calls
    ensures var debit := UpdateBalanceStep(s, FaultIn(faults, Debit(amount, from_user_id)), from_user_id, -amount, now);
      && debit.result.Ok?
      && UpdateBalanceStep(debit.after, FaultIn(faults, Credit(amount, to_user_id)), to_user_id, amount, now).result.Ok?
  {
  }

  /** Blame follows progress: an error on the debit is classified with
      `found_sender` false, an error on the credit or on the append with
      `found_sender` true; the tables are left as they were either way. */
  lemma ErrorsClassifiedByProgress(
    s: DbState, faults: map<StoreCall, RawError>,
    amount: int, from_user_id: UserId, to_user_id: UserId, id: string, now: Timestamp)
    ensures var run := TransferSpec(s, faults, amount, from_user_id, to_user_id, id, now);
      var debit := UpdateBalanceStep(s, FaultIn(faults, Debit(amount, from_user_id)), from_user_id, -amount, now);
      var credit := UpdateBalanceStep(debit.after, FaultIn(faults, Credit(amount, to_user_id)), to_user_id, amount, now);
      var created := CreateTransactionStep(credit.after, FaultIn(faults, Append(amount, from_user_id, to_user_id)), id, amount, from_user_id, to_user_id, now);
      && (debit.result.Err? ==>
            run.result == Err(Classify(debit.result.error, false, amount, from_user_id, to_user_id)))
      && (debit.result.Ok? && credit.result.Err? ==>
            run.result == Err(Classify(credit.result.error, true, amount, from_user_id, to_user_id)))
      && (debit.result.Ok? && credit.result.Ok? && created.result.Err? ==>
            run.result == Err(Classify(created.result.error, true, amount, from_user_id, to_user_id)))
      && (run.result.Err? ==> run.after == s)
  {
  }

  /** A not-found error raised by the debit blames the sender; one raised
      after the debit succeeded blames the receiver. */
  lemma NotFoundBlame(
    s: DbState, faults: map<StoreCall, RawError>,
    amount: int, from_user_id: UserId, to_user_id: UserId, id: string, now: Timestamp, e: RawError)
    requires IsRecordNotFound(e)
    ensures FaultIn(faults, Debit(amount, from_user_id)) == Some(e) ==>
      TransferSpec(s, faults, amount, from_user_id, to_user_id, id, now).result == Err(UserIDNotFound(from_user_id))
    ensures (&& FaultIn(faults, Debit(amount, from_user_id)).None? && FaultIn(faults, Credit(amount, to_user_id)) == Some(e)
             && from_user_id in s.balances && s.balances[from_user_id].value >= amount)
      ==> TransferSpec(s, faults, amount, from_user_id, to_user_id, id, now).result == Err(UserIDNotFound(to_user_id))
  {
  }

  /** With nothing but the data against it, a transfer of a positive amount
      between consistent tables fails for exactly one of three reasons, checked
      in this order: the sender does not exist, the sender cannot cover the
      amount, the receiver does not exist; otherwise it succeeds. */
  lemma TransferOutcome(
    s: DbState, faults: map<StoreCall, RawError>,
    amount: int, from_user_id: UserId, to_user_id: UserId, id: string, now: Timestamp)
    requires Consistent(s) && amount > 0
    requires faults == map[]
    ensures var r := TransferSpec(s, faults, amount, from_user_id, to_user_id, id, now).result;
      && (from_user_id !in s.users ==> r == Err(UserIDNotFound(from_user_id)))
      && (from_user_id in s.users && s.balances[from_user_id].value < amount ==>
            r == Err(InsufficientFunds(from_user_id, amount)))
      && (from_user_id in s.users && s.balances[from_user_id].value >= amount && to_user_id !in s.users ==>
            r == Err(UserIDNotFound(to_user_id)))
      && (r.Ok? <==> from_user_id in s.users && s.balances[from_user_id].value >= amount && to_user_id in s.users)
  {
    NegativeBalanceMessageNamesCheck();
  }

  /** The tables stay consistent: balances non-negative, the email index and
      the log's foreign keys intact. */
  lemma TransferKeepsConsistent(
    s: DbState, faults: map<StoreCall, RawError>,
    amount: int, from_user_id: UserId, to_user_id: UserId, id: string, now: Timestamp)
    requires Consistent(s)
    ensures Consistent(TransferSpec(s, faults, amount, from_user_id, to_user_id, id, now).after)
  {
    var debit := UpdateBalanceStep(s, FaultIn(faults, Debit(amount, from_user_id)), from_user_id, -amount, now);
    UpdateBalanceKeepsConsistent(s, FaultIn(faults, Debit(amount, from_user_id)), from_user_id, -amount, now);
    var credit := UpdateBalanceStep(debit.after, FaultIn(faults, Credit(amount, to_user_id)), to_user_id, amount, now);
    UpdateBalanceKeepsConsistent(debit.after, FaultIn(faults, Credit(amount, to_user_id)), to_user_id, amount, now);
    CreateTransactionKeepsConsistent(credit.after, FaultIn(faults, Append(amount, from_user_id, to_user_id)), id, amount, from_user_id, to_user_id, now);
  }

  /** `db_transaction` mapped to the view: amount, sender, receiver's email, id, date. */
  function ToView(t: TransactionWithReceiver): (v: TransactionView)
    ensures v.id == t.row.id && v.amount == t.row.amount && v.from_user_id == t.row.from_user_id
    ensures v.to_user_email == t.to_user_email && v.date == t.row.created_at
  {
    TransactionView(t.row.id, t.row.amount, t.row.from_user_id, t.to_user_email, t.row.created_at)
  }

  /** `retrieveTransactions(from_user_id)`: the query, then `map`; a store error is rethrown. */
  function RetrieveSpec(s: DbState, fault: Option<RawError>, from_user_id: UserId): (r: Result<seq<TransactionView>, ServiceError>)
    requires LogReferencesUsers(s)
    ensures r.Err? <==> fault.Some?
    ensures r.Err? ==> r.error == Unclassified(fault.value)
  {
    var found := FindTransactionsStep(s, fault, from_user_id).result;
    if found.Err? then Err(Unclassified(found.error))
    else Ok(seq(|found.value|, i requires 0 <= i < |found.value| => ToView(found.value[i])))
  }

  /** `retrieveTransactions` returns one view per record of the log sent by
      `from_user_id` (each as many times as it occurs, no other record),
      newest first, each carrying the record's amount, sender, id and date
      and its receiver's email. */
  lemma RetrieveReturnsSentNewestFirst(s: DbState, from_user_id: UserId)
    requires Consistent(s)
    ensures var r := RetrieveSpec(s, None, from_user_id);
      var rows := NewestFirst(SentBy(s.transactions, from_user_id));
      && r.Ok? && |r.value| == |rows|
      && (forall x :: multiset(rows)[x] == if x.from_user_id == from_user_id then multiset(s.transactions)[x] else 0)
      && (forall i :: 0 <= i < |rows| ==>
            && rows[i].to_user_id in s.users
            && r.value[i] == TransactionView(rows[i].id, rows[i].amount, from_user_id,
                                             s.users[rows[i].to_user_id].email, rows[i].created_at))
      && (forall i, j :: 0 <= i < j < |r.value| ==> r.value[i].date >= r.value[j].date)
  {
    QueriedRowsAreSent(s.transactions, from_user_id);
    QueriedRowsReferenceUsers(s, from_user_id);
  }

  class TransactionService {
    const db: Db

    constructor(db: Db)
      ensures this.db == db
    {
      this.db := db;
    }

    /** `createTransaction`: `id` and `now` stand for the record id and the
        timestamp the database generates. */
    method CreateTransaction(amount: int, from_user_id: UserId, to_user_id: UserId, id: string, now: Timestamp)
      returns (r: Result<TransferResult, ServiceError>)
      modifies db
      ensures var run := TransferSpec(old(db.State()), old(db.faults), amount, from_user_id, to_user_id, id, now);
        r == run.result && db.State() == run.after && db.calls == old(db.calls) + run.calls
      ensures db.faults == old(db.faults)
      ensures old(db.Valid()) ==> db.Valid()
    {
      var snapshot := db.Begin();
      var found_sender := false;
      var debit := db.UpdateBalance(from_user_id, -amount, now);
      if debit.Err? {
        var e := Classify(debit.error, found_sender, amount, from_user_id, to_user_id);
        db.Rollback(snapshot);
        return Err(e);
      }
      found_sender := true;
      var credit := db.UpdateBalance(to_user_id, amount, now);
      if credit.Err? {
        var e := Classify(credit.error, found_sender, amount, from_user_id, to_user_id);
        db.Rollback(snapshot);
        return Err(e);
      }
      var created := db.CreateTransaction(id, amount, from_user_id, to_user_id, now);
      if created.Err? {
        var e := Classify(created.error, found_sender, amount, from_user_id, to_user_id);
        db.Rollback(snapshot);
        return Err(e);
      }
      var row := created.value.row;
      var transaction := TransactionView(row.id, row.amount, row.from_user_id, created.value.to_user_email, row.created_at);
      r := Ok(TransferResult(transaction, debit.value.value));
    }

    /** `retrieveTransactions`: reads and changes no table. */
    method RetrieveTransactions(from_user_id: UserId) returns (r: Result<seq<TransactionView>, ServiceError>)
      requires db.Valid()
      modifies db
      ensures r == RetrieveSpec(old(db.State()), old(db.FaultFor(FindTransactionsCall(from_user_id))), from_user_id)
      ensures db.State() == old(db.State()) && db.faults == old(db.faults)
      ensures db.calls == old(db.calls) + [FindTransactionsCall(from_user_id)]
      ensures old(db.Valid()) ==> db.Valid()
    {
      var found := db.FindTransactions(from_user_id);
      if found.Err? {
        return Err(Unclassified(found.error));
      }
      r := Ok(seq(|found.value|, i requires 0 <= i < |found.value| => ToView(found.value[i])));
    }
  }
}
