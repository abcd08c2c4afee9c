/** The store the services talk to through Prisma: users with a unique email
    index, one balance row per user kept non-negative by the database's
    `balance_nonnegative_check` constraint, and an append-only transaction log
    whose rows reference their sender and receiver.

    Each statement the services issue is a pure step over `DbState` that
    either succeeds or fails with a `RawError` and leaves the state untouched.
    The class `Db` holds the tables in fields and runs the steps; its `faults`
    map makes a given statement fail with a given error, standing in for
    whatever else the database may report (a lost connection, a timeout, a
    mock's rejection). */
module Store {
  import opened Wrappers
  import opened Common
  import opened PrismaUtil
  import Text

  datatype UserRow = UserRow(
    id: UserId, email: string, pw_hash: string, first_name: string, last_name: string,
    created_at: Timestamp, updated_at: Timestamp)

  datatype BalanceRow = BalanceRow(value: int, updated_at: Timestamp)

  datatype TransactionRow = TransactionRow(
    id: string, amount: int, from_user_id: UserId, to_user_id: UserId, created_at: Timestamp)

  /** A transaction row read with `include: { to_user: true }`. */
  datatype TransactionWithReceiver = TransactionWithReceiver(row: TransactionRow, to_user_email: string)

  /** A user row read with `include: { balance: true }`. */
  datatype UserWithBalance = UserWithBalance(user: UserRow, balance: BalanceRow)

  datatype DbState = DbState(
    users: map<UserId, UserRow>,
    emails: map<string, UserId>,
    balances: map<UserId, BalanceRow>,
    transactions: seq<TransactionRow>)

  /** The statements issued, in order, as the store sees them. */
  datatype StoreCall =
    | UpdateBalanceCall(user_id: UserId, delta: int)
    | CreateTransactionCall(amount: int, from_user_id: UserId, to_user_id: UserId)
    | CreateUserCall(email: string)
    | FindUserByEmailCall(email: string)
    | FindUserByIdCall(user_id: UserId)
    | FindTransactionsCall(from_user_id: UserId)

  /** What one statement returns, and the state after it. */
  datatype Step<T> = Step(result: Result<T, RawError>, after: DbState)

  const BalanceCheckName := "balance_nonnegative_check"
  const NegativeBalanceMessage := "new row for relation \"Balance\" violates check constraint \"" + BalanceCheckName + "\""
  const RecordToUpdateNotFound := "Record to update not found."
  const EmailTaken := "Unique constraint failed on the fields: (`email`)"
  const IdTaken := "Unique constraint failed on the fields: (`id`)"

  /** The database's message for a negative balance names the check constraint. */
  lemma NegativeBalanceMessageNamesCheck()
    ensures Text.Contains(NegativeBalanceMessage, BalanceCheckName)
  {
    Text.ContainsWitness(NegativeBalanceMessage, "new row for relation \"Balance\" violates check constraint \"",
                         BalanceCheckName, "\"");
  }

  function EmptyState(): DbState {
    DbState(map[], map[], map[], [])
  }

  // ---- integrity -------------------------------------------------------------

  /** Every user has a balance row and nothing else does; rows are keyed by their id. */
  predicate RowsKeyed(s: DbState) {
    && s.users.Keys == s.balances.Keys
    && (forall id :: id in s.users ==> s.users[id].id == id)
  }

  /** The unique email index agrees with the user rows in both directions. */
  predicate EmailIndexed(s: DbState) {
    && (forall e :: e in s.emails ==> s.emails[e] in s.users && s.users[s.emails[e]].email == e)
    && (forall id :: id in s.users ==> s.users[id].email in s.emails && s.emails[s.users[id].email] == id)
  }

  /** What `balance_nonnegative_check` guarantees. */
  predicate BalancesNonNegative(s: DbState) {
    forall id :: id in s.balances ==> s.balances[id].value >= 0
  }

  /** The foreign keys of the log. */
  predicate LogReferencesUsers(s: DbState) {
    forall i :: 0 <= i < |s.transactions| ==>
      s.transactions[i].from_user_id in s.users && s.transactions[i].to_user_id in s.users
  }

  predicate Consistent(s: DbState) {
    RowsKeyed(s) && EmailIndexed(s) && BalancesNonNegative(s) && LogReferencesUsers(s)
  }

  // ---- statements --------------------------------------------------------------

  /** `balance.update({ where: { user_id }, data: { value: { increment: delta } } })`
      (a decrement is a negative delta): no row gives P2025, a negative result
      violates the check constraint; otherwise the row is updated and returned. */
  function UpdateBalanceStep(s: DbState, fault: Option<RawError>, user_id: UserId, delta: int, now: Timestamp)
    : (r: Step<BalanceRow>)
    ensures r.result.Ok? <==> fault.None? && user_id in s.balances && s.balances[user_id].value + delta >= 0
    ensures r.result.Err? ==> r.after == s
    ensures r.result.Ok? ==>
      && r.result.value.value == s.balances[user_id].value + delta
      && r.after == s.(balances := s.balances[user_id := r.result.value])
    ensures fault.None? && user_id !in s.balances ==> r.result.Err? && IsRecordNotFound(r.result.error)
  {
    if fault.Some? then Step(Err(fault.value), s)
    else if user_id !in s.balances then Step(Err(KnownRequest(RecordNotFoundCode, RecordToUpdateNotFound)), s)
    else if s.balances[user_id].value + delta < 0 then Step(Err(UnknownRequest(NegativeBalanceMessage)), s)
    else
      var row := BalanceRow(s.balances[user_id].value + delta, now);
      Step(Ok(row), s.(balances := s.balances[user_id := row]))
  }

  /** `transaction.create({ data: { amount, from_user_id, to_user_id }, include: { to_user: true } })`:
      each missing user breaks a foreign key (the sender's is checked first);
      otherwise the row is appended and returned with the receiver's email. */
  function CreateTransactionStep(
    s: DbState, fault: Option<RawError>, id: string, amount: int, from_user_id: UserId, to_user_id: UserId, now: Timestamp)
    : (r: Step<TransactionWithReceiver>)
    ensures r.result.Ok? <==> fault.None? && from_user_id in s.users && to_user_id in s.users
    ensures r.result.Err? ==> r.after == s
    ensures r.result.Ok? ==>
      && r.result.value.row == TransactionRow(id, amount, from_user_id, to_user_id, now)
      && r.result.value.to_user_email == s.users[to_user_id].email
      && r.after == s.(transactions := s.transactions + [r.result.value.row])
    ensures fault.None? && from_user_id !in s.users ==>
      r.result == Err(KnownRequest(ForeignKeyConstraintCode, ForeignKeyMessage("from_user_id")))
    ensures fault.None? && from_user_id in s.users && to_user_id !in s.users ==>
      r.result == Err(KnownRequest(ForeignKeyConstraintCode, ForeignKeyMessage("to_user_id")))
  {
    if fault.Some? then Step(Err(fault.value), s)
    else if from_user_id !in s.users then
      Step(Err(KnownRequest(ForeignKeyConstraintCode, ForeignKeyMessage("from_user_id"))), s)
    else if to_user_id !in s.users then
      Step(Err(KnownRequest(ForeignKeyConstraintCode, ForeignKeyMessage("to_user_id"))), s)
    else
      var row := TransactionRow(id, amount, from_user_id, to_user_id, now);
      Step(Ok(TransactionWithReceiver(row, s.users[to_user_id].email)), s.(transactions := s.transactions + [row]))
  }

  /** `user.create` with a nested `balance: { create: { value: initial_balance } }`,
      one statement: a taken email or id breaks a unique index (P2002), a
      negative starting balance breaks the check constraint; otherwise the
      user, its index entry and its balance row are inserted together. */
  function CreateUserStep(
    s: DbState, fault: Option<RawError>, id: UserId, email: string, pw_hash: string,
    first_name: string, last_name: string, initial_balance: int, now: Timestamp)
    : (r: Step<UserRow>)
    ensures r.result.Ok? <==>
      fault.None? && email !in s.emails && id !in s.users && initial_balance >= 0
    ensures r.result.Err? ==> r.after == s
    ensures fault.None? && (email in s.emails || id in s.users) ==> r.result.Err? && IsUniqueConstraint(r.result.error)
    ensures r.result.Ok? ==>
      && r.result.value == UserRow(id, email, pw_hash, first_name, last_name, now, now)
      && r.after.users == s.users[id := r.result.value]
      && r.after.emails == s.emails[email := id]
      && r.after.balances == s.balances[id := BalanceRow(initial_balance, now)]
      && r.after.transactions == s.transactions
  {
    if fault.Some? then Step(Err(fault.value), s)
    else if email in s.emails then Step(Err(KnownRequest(UniqueConstraintCode, EmailTaken)), s)
    else if id in s.users then Step(Err(KnownRequest(UniqueConstraintCode, IdTaken)), s)
    else if initial_balance < 0 then Step(Err(UnknownRequest(NegativeBalanceMessage)), s)
    else
      var user := UserRow(id, email, pw_hash, first_name, last_name, now, now);
      var s' := DbState(s.users[id := user], s.emails[email := id],
                        s.balances[id := BalanceRow(initial_balance, now)], s.transactions);
      Step(Ok(user), s')
  }

  /** Each statement keeps the tables consistent. */
  lemma UpdateBalanceKeepsConsistent(s: DbState, fault: Option<RawError>, user_id: UserId, delta: int, now: Timestamp)
    requires Consistent(s)
    ensures Consistent(UpdateBalanceStep(s, fault, user_id, delta, now).after)
  {
  }

  lemma CreateTransactionKeepsConsistent(
    s: DbState, fault: Option<RawError>, id: string, amount: int, from_user_id: UserId, to_user_id: UserId, now: Timestamp)
    requires Consistent(s)
    ensures Consistent(CreateTransactionStep(s, fault, id, amount, from_user_id, to_user_id, now).after)
  {
  }

  lemma CreateUserKeepsConsistent(
    s: DbState, fault: Option<RawError>, id: UserId, email: string, pw_hash: string,
    first_name: string, last_name: string, initial_balance: int, now: Timestamp)
    requires Consistent(s)
    ensures Consistent(CreateUserStep(s, fault, id, email, pw_hash, first_name, last_name, initial_balance, now).after)
  {
    var s' := CreateUserStep(s, fault, id, email, pw_hash, first_name, last_name, initial_balance, now).after;
    if s' != s {
      forall i | 0 <= i < |s'.transactions|
        ensures s'.transactions[i].from_user_id in s'.users && s'.transactions[i].to_user_id in s'.users
      {
        assert s.transactions[i].from_user_id in s.users;
      }
    }
  }

  /** `user.findUnique({ where: { id }, include: { balance: true } })`: the
      user and its balance, or null. */
  function FindUserByIdStep(s: DbState, fault: Option<RawError>, user_id: UserId): (r: Step<Option<UserWithBalance>>)
    ensures r.after == s
    ensures fault.None? && Consistent(s) ==>
      r.result.Ok? && (r.result.value.Some? <==> user_id in s.users)
    ensures r.result.Ok? && r.result.value.Some? ==>
      && user_id in s.users && user_id in s.balances
      && r.result.value.value == UserWithBalance(s.users[user_id], s.balances[user_id])
  {
    if fault.Some? then Step(Err(fault.value), s)
    else if user_id in s.users && user_id in s.balances then
      Step(Ok(Some(UserWithBalance(s.users[user_id], s.balances[user_id]))), s)
    else Step(Ok(None), s)
  }

  /** `user.findUnique({ where: { email }, include: { balance: true } })`: an
      exact match on the unique email index. */
  function FindUserByEmailStep(s: DbState, fault: Option<RawError>, email: string): (r: Step<Option<UserWithBalance>>)
    ensures r.after == s
    ensures fault.None? && Consistent(s) ==>
      r.result.Ok? && (r.result.value.Some? <==> exists id :: id in s.users && s.users[id].email == email)
    ensures r.result.Ok? && r.result.value.Some? ==>
      var found := r.result.value.value;
      && found.user.id in s.users && s.users[found.user.id] == found.user && found.user.email == email
      && found.user.id in s.balances && s.balances[found.user.id] == found.balance
  {
    if fault.Some? then Step(Err(fault.value), s)
    else if email in s.emails && s.emails[email] in s.users && s.emails[email] in s.balances
            && s.users[s.emails[email]].email == email && s.users[s.emails[email]].id == s.emails[email] then
      var id := s.emails[email];
      Step(Ok(Some(UserWithBalance(s.users[id], s.balances[id]))), s)
    else
      assert fault.None? && Consistent(s) ==> !exists id :: id in s.users && s.users[id].email == email;
      Step(Ok(None), s)
  }

  // ---- findMany({ where: { from_user_id }, orderBy: { created_at: "desc" } }) --

  /** The rows sent by `from_user_id`, in log order. */
  function SentBy(rows: seq<TransactionRow>, from_user_id: UserId): (r: seq<TransactionRow>)
    ensures forall i :: 0 <= i < |r| ==> r[i].from_user_id == from_user_id
  {
    if rows == [] then []
    else if rows[0].from_user_id == from_user_id then [rows[0]] + SentBy(rows[1..], from_user_id)
    else SentBy(rows[1..], from_user_id)
  }

  /** `SentBy` keeps every matching row as often as it occurs, and nothing else. */
  lemma {:induction false} SentByCounts(rows: seq<TransactionRow>, from_user_id: UserId, x: TransactionRow)
    ensures multiset(SentBy(rows, from_user_id))[x] == if x.from_user_id == from_user_id then multiset(rows)[x] else 0
    decreases |rows|
  {
    if rows != [] {
      SentByCounts(rows[1..], from_user_id, x);
      assert rows == [rows[0]] + rows[1..];
      assert multiset(rows) == multiset{rows[0]} + multiset(rows[1..]);
    }
  }

  predicate SortedNewestFirst(rows: seq<TransactionRow>) {
    forall i, j :: 0 <= i < j < |rows| ==> rows[i].created_at >= rows[j].created_at
  }

  /** Places `x` before the first row that is not newer than it. */
  function InsertNewestFirst(x: TransactionRow, rows: seq<TransactionRow>): (r: seq<TransactionRow>)
    ensures multiset(r) == multiset(rows) + multiset{x}
    decreases |rows|
  {
    if rows == [] || rows[0].created_at <= x.created_at then [x] + rows
    else
      assert rows == [rows[0]] + rows[1..];
      [rows[0]] + InsertNewestFirst(x, rows[1..])
  }

  lemma {:induction false} InsertKeepsSorted(x: TransactionRow, rows: seq<TransactionRow>)
    requires SortedNewestFirst(rows)
    ensures SortedNewestFirst(InsertNewestFirst(x, rows))
    decreases |rows|
  {
    if rows == [] || rows[0].created_at <= x.created_at {
    } else {
      var rest := InsertNewestFirst(x, rows[1..]);
      InsertKeepsSorted(x, rows[1..]);
      forall k | 0 <= k < |rest| ensures rows[0].created_at >= rest[k].created_at {
        assert rest[k] in multiset(rows[1..]) + multiset{x};
        if rest[k] != x {
          assert rest[k] in rows[1..];
          var j :| 0 <= j < |rows[1..]| && rows[1..][j] == rest[k];
          assert rows[j + 1] == rest[k];
        }
      }
      assert InsertNewestFirst(x, rows) == [rows[0]] + rest;
    }
  }

  /** The order the query returns: newest first, a permutation of its input
      (rows with equal timestamps keep their log order). */
  function NewestFirst(rows: seq<TransactionRow>): (r: seq<TransactionRow>)
    ensures multiset(r) == multiset(rows)
    ensures SortedNewestFirst(r)
  {
    if rows == [] then []
    else
      assert rows == [rows[0]] + rows[1..];
      InsertKeepsSorted(rows[0], NewestFirst(rows[1..]));
      InsertNewestFirst(rows[0], NewestFirst(rows[1..]))
  }

  /** The query's rows are exactly the records sent by `from_user_id`, each
      as many times as it occurs in the log. */
  lemma QueriedRowsAreSent(rows: seq<TransactionRow>, from_user_id: UserId)
    ensures var q := NewestFirst(SentBy(rows, from_user_id));
      && (forall x :: multiset(q)[x] == if x.from_user_id == from_user_id then multiset(rows)[x] else 0)
      && (forall i :: 0 <= i < |q| ==> q[i].from_user_id == from_user_id)
  {
    var q := NewestFirst(SentBy(rows, from_user_id));
    forall x: TransactionRow ensures multiset(q)[x] == if x.from_user_id == from_user_id then multiset(rows)[x] else 0 {
      SentByCounts(rows, from_user_id, x);
    }
    forall i | 0 <= i < |q| ensures q[i].from_user_id == from_user_id {
      assert q[i] in multiset(SentBy(rows, from_user_id));
      SentByCounts(rows, from_user_id, q[i]);
    }
  }

  /** Every row the query returns is a row of the log, so its receiver exists. */
  lemma QueriedRowsReferenceUsers(s: DbState, from_user_id: UserId)
    requires LogReferencesUsers(s)
    ensures ReceiversKnown(NewestFirst(SentBy(s.transactions, from_user_id)), s.users)
  {
    var rows := NewestFirst(SentBy(s.transactions, from_user_id));
    forall i | 0 <= i < |rows| ensures rows[i].to_user_id in s.users {
      SentByCounts(s.transactions, from_user_id, rows[i]);
      assert rows[i] in multiset(SentBy(s.transactions, from_user_id));
      assert rows[i] in s.transactions;
    }
  }

  predicate ReceiversKnown(rows: seq<TransactionRow>, users: map<UserId, UserRow>) {
    forall i :: 0 <= i < |rows| ==> rows[i].to_user_id in users
  }

  /** `include: { to_user: true }`: each row with its receiver's email. */
  function WithReceivers(rows: seq<TransactionRow>, users: map<UserId, UserRow>): (r: seq<TransactionWithReceiver>)
    requires ReceiversKnown(rows, users)
    ensures |r| == |rows|
    ensures forall i :: 0 <= i < |rows| ==> r[i] == TransactionWithReceiver(rows[i], users[rows[i].to_user_id].email)
  {
    seq(|rows|, i requires 0 <= i < |rows| => TransactionWithReceiver(rows[i], users[rows[i].to_user_id].email))
  }

  /** `transaction.findMany({ where: { from_user_id }, include: { to_user: true },
      orderBy: { created_at: "desc" } })`. */
  function FindTransactionsStep(s: DbState, fault: Option<RawError>, from_user_id: UserId)
    : (r: Step<seq<TransactionWithReceiver>>)
    requires LogReferencesUsers(s)
    ensures r.after == s
    ensures r.result.Ok? <==> fault.None?
    ensures r.result.Ok? ==>
      (QueriedRowsReferenceUsers(s, from_user_id);
       r.result.value == WithReceivers(NewestFirst(SentBy(s.transactions, from_user_id)), s.users))
  {
    if fault.Some? then Step(Err(fault.value), s)
    else
      QueriedRowsReferenceUsers(s, from_user_id);
      Step(Ok(WithReceivers(NewestFirst(SentBy(s.transactions, from_user_id)), s.users)), s)
  }

  function FaultIn(faults: map<StoreCall, RawError>, call: StoreCall): Option<RawError> {
    if call in faults then Some(faults[call]) else None
  }

  // ---- the database ------------------------------------------------------------

  class Db {
    var users: map<UserId, UserRow>
    var emails: map<string, UserId>
    var balances: map<UserId, BalanceRow>
    var transactions: seq<TransactionRow>
    /** Failures to inject: a statement in `faults` fails with the error it maps to. */
    var faults: map<StoreCall, RawError>
    /** Every statement issued so far, in order. */
    ghost var calls: seq<StoreCall>

    function State(): DbState
      reads this
    {
      DbState(users, emails, balances, transactions)
    }

    predicate Valid()
      reads this
    {
      Consistent(State())
    }

    /** The failure injected for `call`, if any. */
    function FaultFor(call: StoreCall): Option<RawError>
      reads this
    {
      FaultIn(faults, call)
    }

    constructor Create(faults: map<StoreCall, RawError>)
      ensures State() == EmptyState() && calls == [] && this.faults == faults
      ensures Valid()
    {
      users, emails, balances, transactions := map[], map[], map[], [];
      this.faults := faults;
      calls := [];
    }

    method UpdateBalance(user_id: UserId, delta: int, now: Timestamp) returns (r: Result<BalanceRow, RawError>)
      modifies this
      ensures var step := UpdateBalanceStep(old(State()), old(FaultFor(UpdateBalanceCall(user_id, delta))), user_id, delta, now);
        r == step.result && State() == step.after
      ensures calls == old(calls) + [UpdateBalanceCall(user_id, delta)] && faults == old(faults)
      ensures old(Valid()) ==> Valid()
    {
      var step := UpdateBalanceStep(State(), FaultFor(UpdateBalanceCall(user_id, delta)), user_id, delta, now);
      r := step.result;
      users, emails, balances, transactions := step.after.users, step.after.emails, step.after.balances, step.after.transactions;
      calls := calls + [UpdateBalanceCall(user_id, delta)];
      if old(Valid()) {
        UpdateBalanceKeepsConsistent(old(State()), old(FaultFor(UpdateBalanceCall(user_id, delta))), user_id, delta, now);
      }
    }

    method CreateTransaction(id: string, amount: int, from_user_id: UserId, to_user_id: UserId, now: Timestamp)
      returns (r: Result<TransactionWithReceiver, RawError>)
      modifies this
      ensures var step := CreateTransactionStep(old(State()), old(FaultFor(CreateTransactionCall(amount, from_user_id, to_user_id))), id, amount, from_user_id, to_user_id, now);
        r == step.result && State() == step.after
      ensures calls == old(calls) + [CreateTransactionCall(amount, from_user_id, to_user_id)] && faults == old(faults)
      ensures old(Valid()) ==> Valid()
    {
      var step := CreateTransactionStep(State(), FaultFor(CreateTransactionCall(amount, from_user_id, to_user_id)), id, amount, from_user_id, to_user_id, now);
      r := step.result;
      users, emails, balances, transactions := step.after.users, step.after.emails, step.after.balances, step.after.transactions;
      calls := calls + [CreateTransactionCall(amount, from_user_id, to_user_id)];
      if old(Valid()) {
        CreateTransactionKeepsConsistent(old(State()), old(FaultFor(CreateTransactionCall(amount, from_user_id, to_user_id))),
                                         id, amount, from_user_id, to_user_id, now);
      }
    }

    method CreateUser(
      id: UserId, email: string, pw_hash: string, first_name: string, last_name: string,
      initial_balance: int, now: Timestamp)
      returns (r: Result<UserRow, RawError>)
      modifies this
      ensures var step := CreateUserStep(old(State()), old(FaultFor(CreateUserCall(email))), id, email, pw_hash, first_name, last_name, initial_balance, now);
        r == step.result && State() == step.after
      ensures calls == old(calls) + [CreateUserCall(email)] && faults == old(faults)
      ensures old(Valid()) ==> Valid()
    {
      var step := CreateUserStep(State(), FaultFor(CreateUserCall(email)), id, email, pw_hash, first_name, last_name, initial_balance, now);
      r := step.result;
      users, emails, balances, transactions := step.after.users, step.after.emails, step.after.balances, step.after.transactions;
      calls := calls + [CreateUserCall(email)];
      if old(Valid()) {
        CreateUserKeepsConsistent(old(State()), old(FaultFor(CreateUserCall(email))),
                                  id, email, pw_hash, first_name, last_name, initial_balance, now);
      }
    }

    method FindUserById(user_id: UserId) returns (r: Result<Option<UserWithBalance>, RawError>)
      modifies this
      ensures var step := FindUserByIdStep(old(State()), old(FaultFor(FindUserByIdCall(user_id))), user_id);
        r == step.result && State() == step.after
      ensures calls == old(calls) + [FindUserByIdCall(user_id)] && faults == old(faults)
      ensures old(Valid()) ==> Valid()
    {
      r := FindUserByIdStep(State(), FaultFor(FindUserByIdCall(user_id)), user_id).result;
      calls := calls + [FindUserByIdCall(user_id)];
    }

    method FindUserByEmail(email: string) returns (r: Result<Option<UserWithBalance>, RawError>)
      modifies this
      ensures var step := FindUserByEmailStep(old(State()), old(FaultFor(FindUserByEmailCall(email))), email);
        r == step.result && State() == step.after
      ensures calls == old(calls) + [FindUserByEmailCall(email)] && faults == old(faults)
      ensures old(Valid()) ==> Valid()
    {
      r := FindUserByEmailStep(State(), FaultFor(FindUserByEmailCall(email)), email).result;
      calls := calls + [FindUserByEmailCall(email)];
    }

    method FindTransactions(from_user_id: UserId) returns (r: Result<seq<TransactionWithReceiver>, RawError>)
      requires Valid()
      modifies this
      ensures var step := FindTransactionsStep(old(State()), old(FaultFor(FindTransactionsCall(from_user_id))), from_user_id);
        r == step.result && State() == step.after
      ensures calls == old(calls) + [FindTransactionsCall(from_user_id)] && faults == old(faults)
      ensures old(Valid()) ==> Valid()
    {
      r := FindTransactionsStep(State(), FaultFor(FindTransactionsCall(from_user_id)), from_user_id).result;
      calls := calls + [FindTransactionsCall(from_user_id)];
    }

    /** Start of `$transaction`: remember the tables. */
    method Begin() returns (snapshot: DbState)
      ensures snapshot == State()
      ensures Valid() ==> Consistent(snapshot)
    {
      snapshot := State();
    }

    /** A `$transaction` whose body threw: the tables go back to the snapshot;
        the statements issued stay issued. */
    method Rollback(snapshot: DbState)
      modifies this
      ensures State() == snapshot && calls == old(calls) && faults == old(faults)
      ensures Consistent(snapshot) ==> Valid()
    {
      users, emails, balances, transactions := snapshot.users, snapshot.emails, snapshot.balances, snapshot.transactions;
    }
  }
}
