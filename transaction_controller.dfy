/** server/src/controllers/TransactionController.ts: `POST /transactions`.
    After validation the receiver is looked up by email, then the transfer
    runs from the requester to that receiver, and each outcome becomes a
    status and a body. */
module ServerTransactionController {
  import opened Wrappers
  import opened Common
  import opened PrismaUtil
  import opened Store
  import opened ServiceErrors
  import opened RouteValidators
  import opened RequestAuthUsers
  import opened MiniTocoErrors
  import opened Responses
  import ServerUserService
  import ServerTransactionService
  import ServerRoutes
  import UserRows
  import Text

  function LookupCall(to_user_email: string): StoreCall {
    FindUserByEmailCall(Text.ToLower(to_user_email))
  }

  /** `createTransaction` on tables `s` with the route's `failures`. */
  function CreateTransactionSpec(
    failures: seq<Failure>, s: DbState, faults: map<StoreCall, RawError>,
    requester: RequestAuthUser, to_user_email: string, amount_str: string, id: string, now: Timestamp)
    : (o: Outcome)
    requires failures == [] ==> AmountValid(amount_str)
    ensures o.response.status in {200, 400, 404, 409, 500}
    ensures o.response.status != 200 ==> o.after == s
  {
    if failures != [] then Outcome(ValidationFailed(failures), s, [])
    else
      var amount := Text.ParseBigInt(amount_str).value;
      var to_user := ServerUserService.FindUserByEmailSpec(s, FaultIn(faults, LookupCall(to_user_email)), to_user_email);
      if to_user.Err? then
        if to_user.error.UserEmailNotFound? then
          Outcome(Response(404, Errors([BodyErrorOf("to_user_email", "to-user not found", to_user_email)])), s,
                  [LookupCall(to_user_email)])
        else Outcome(InternalServerError(), s, [LookupCall(to_user_email)])
      else
        var run := ServerTransactionService.TransferSpec(s, faults, amount, requester.id, to_user.value.user.id, id, now);
        Outcome(TransferResponse(run.result, amount), run.after, [LookupCall(to_user_email)] + run.calls)
  }

  /** The second `try` of `createTransaction`: the transfer's result, or the
      error it threw, as a response. */
  function TransferResponse(
    result: Result<ServerTransactionService.TransferResult, ServiceError>, amount: int): (r: Response)
    ensures r.status in {200, 404, 409, 500}
    ensures r.status == 200 <==> result.Ok?
    ensures result.Ok? ==> r.body == Transfer(result.value)
    ensures result.Err? && result.error.InsufficientFunds? ==>
      r == Response(409, Errors([BodyErrorOf("amount", "insufficient funds", Text.DecimalString(amount))]))
    ensures result.Err? && result.error.UserIDNotFound? ==>
      r == Response(404, Errors([BodyErrorOf("to_user_email", "User not found", result.error.user_id)]))
    ensures result.Err? && !result.error.InsufficientFunds? && !result.error.UserIDNotFound? ==>
      r == InternalServerError()
  {
    if result.Ok? then Response(200, Transfer(result.value))
    else if result.error.InsufficientFunds? then
      Response(409, Errors([BodyErrorOf("amount", "insufficient funds", Text.DecimalString(amount))]))
    else if result.error.UserIDNotFound? then
      Response(404, Errors([BodyErrorOf("to_user_email", "User not found", result.error.user_id)]))
    else InternalServerError()
  }

  /** A validation failure is answered before any service is called. */
  lemma ValidationFailureAnsweredFirst(
    failures: seq<Failure>, s: DbState, faults: map<StoreCall, RawError>,
    requester: RequestAuthUser, to_user_email: string, amount_str: string, id: string, now: Timestamp)
    requires failures != []
    ensures CreateTransactionSpec(failures, s, faults, requester, to_user_email, amount_str, id, now)
            == Outcome(Response(400, ValidationErrors(failures)), s, [])
  {
  }

  /** With nothing but the data against it, against consistent tables: an
      unknown receiver is 404 "to-user not found" and no transfer is
      attempted; a sender who cannot cover the amount is 409 with the amount
      as a decimal string; otherwise the transfer is made to the user the
      lower-cased email names and returned with 200, the sender's balance
      lowered by the amount and one record appended. */
  lemma {:induction false} CreateTransactionOutcomes(
    s: DbState, requester: RequestAuthUser, to_user_email: string, amount_str: string, id: string, now: Timestamp)
    requires Consistent(s) && AmountValid(amount_str) && requester.id in s.users
    ensures var o := CreateTransactionSpec([], s, map[], requester, to_user_email, amount_str, id, now);
      var amount := Text.ParseBigInt(amount_str).value;
      var known := exists u :: u in s.users && s.users[u].email == Text.ToLower(to_user_email);
      && (!known ==> o == Outcome(Response(404, Errors([BodyErrorOf("to_user_email", "to-user not found", to_user_email)])),
                                  s, [LookupCall(to_user_email)]))
      && (known && s.balances[requester.id].value < amount ==>
            && o.response == Response(409, Errors([BodyErrorOf("amount", "insufficient funds", Text.DecimalString(amount))]))
            && o.after == s)
      && (known && s.balances[requester.id].value >= amount ==>
            && o.response.status == 200 && o.response.body.Transfer?
            && o.response.body.result.final_balance == s.balances[requester.id].value - amount
            && exists u :: u in s.users && s.users[u].email == Text.ToLower(to_user_email)
                 && o.after.transactions == s.transactions + [TransactionRow(id, amount, requester.id, u, now)])
  {
    var amount := Text.ParseBigInt(amount_str).value;
    ServerUserService.FindUserByEmailOutcome(s, to_user_email);
    var to_user := ServerUserService.FindUserByEmailSpec(s, None, to_user_email);
    if to_user.Ok? {
      var u :| u in s.users && s.users[u].email == Text.ToLower(to_user_email)
               && to_user.value == ServerUserService.UserDetail(UserRows.ToUser(s.users[u]), UserRows.ToBalance(s.balances[u]));
      ServerTransactionService.TransferOutcome(s, map[], amount, requester.id, u, id, now);
      ServerTransactionService.TransferLogEffect(s, map[], amount, requester.id, u, id, now);
    }
  }

  /** A check-constraint error naming `balance_nonnegative_check`. */
  predicate IsBalanceCheck(e: RawError) {
    e.UnknownRequest? && Text.Contains(e.message, BalanceCheckName)
  }

  /** A lookup statement that fails, for whatever reason, is answered 500
      before any transfer is attempted. */
  lemma LookupFaultAnswered(
    s: DbState, faults: map<StoreCall, RawError>,
    requester: RequestAuthUser, to_user_email: string, amount_str: string, id: string, now: Timestamp)
    requires AmountValid(amount_str)
    requires FaultIn(faults, LookupCall(to_user_email)).Some?
    ensures CreateTransactionSpec([], s, faults, requester, to_user_email, amount_str, id, now)
            == Outcome(InternalServerError(), s, [LookupCall(to_user_email)])
  {
  }

  /** Once the receiver has been found, a failing debit is answered by the
      kind of its error, with the tables as they were: a not-found error is
      404 "User not found" naming the requester, the balance check is 409,
      and any other error is 500. */
  lemma {:induction false} DebitFaultAnswered(
    s: DbState, faults: map<StoreCall, RawError>,
    requester: RequestAuthUser, to_user_email: string, amount_str: string, id: string, now: Timestamp, e: RawError)
    requires Consistent(s) && AmountValid(amount_str)
    requires FaultIn(faults, LookupCall(to_user_email)).None?
    requires exists u :: u in s.users && s.users[u].email == Text.ToLower(to_user_email)
    requires FaultIn(faults, ServerTransactionService.Debit(Text.ParseBigInt(amount_str).value, requester.id)) == Some(e)
    ensures var o := CreateTransactionSpec([], s, faults, requester, to_user_email, amount_str, id, now);
      && o.after == s
      && (IsRecordNotFound(e) ==>
            o.response == Response(404, Errors([BodyErrorOf("to_user_email", "User not found", requester.id)])))
      && (!IsRecordNotFound(e) && IsBalanceCheck(e) ==> o.response.status == 409)
      && (!IsRecordNotFound(e) && !IsBalanceCheck(e) ==> o.response == InternalServerError())
  {
    ServerUserService.FindUserByEmailOutcome(s, to_user_email);
  }

  /** Once the receiver has been found and the requester debited, a failing
      credit is answered by the kind of its error, with the tables rolled
      back: a not-found error is 404 "User not found" naming the receiver,
      and any error other than a not-found or the balance check is 500. */
  lemma {:induction false} CreditFaultAnswered(
    s: DbState, faults: map<StoreCall, RawError>,
    requester: RequestAuthUser, to_user_email: string, amount_str: string, id: string, now: Timestamp, e: RawError)
    requires Consistent(s) && AmountValid(amount_str)
    requires FaultIn(faults, LookupCall(to_user_email)).None?
    requires requester.id in s.balances && s.balances[requester.id].value >= Text.ParseBigInt(amount_str).value
    requires FaultIn(faults, ServerTransactionService.Debit(Text.ParseBigInt(amount_str).value, requester.id)).None?
    ensures var o := CreateTransactionSpec([], s, faults, requester, to_user_email, amount_str, id, now);
      forall u | u in s.users && s.users[u].email == Text.ToLower(to_user_email)
                 && FaultIn(faults, ServerTransactionService.Credit(Text.ParseBigInt(amount_str).value, u)) == Some(e) ::
        && o.after == s
        && (IsRecordNotFound(e) ==>
              o.response == Response(404, Errors([BodyErrorOf("to_user_email", "User not found", u)])))
        && (!IsRecordNotFound(e) && !IsBalanceCheck(e) ==> o.response == InternalServerError())
  {
    var amount := Text.ParseBigInt(amount_str).value;
    ServerUserService.FindUserByEmailOutcome(s, to_user_email);
    var to_user := ServerUserService.FindUserByEmailSpec(s, None, to_user_email);
    forall u | u in s.users && s.users[u].email == Text.ToLower(to_user_email)
               && FaultIn(faults, ServerTransactionService.Credit(amount, u)) == Some(e)
      ensures to_user.Ok? && to_user.value.user.id == u
    {
      var v :| v in s.users && s.users[v].email == Text.ToLower(to_user_email)
               && to_user.value == ServerUserService.UserDetail(UserRows.ToUser(s.users[v]), UserRows.ToBalance(s.balances[v]));
      assert s.emails[s.users[u].email] == u && s.emails[s.users[v].email] == v;
    }
  }

  // ---- the self-send check ---------------------------------------------------

  /** The route as written lets through a receiver email that differs from
      the requester's only in the case of its letters; the lookup lower-cases
      it, finds the requester, and the transfer goes to the requester
      themself with 200 and a record whose sender and receiver coincide. */
  lemma {:induction false} SelfTransferThroughCaseBypass(
    s: DbState, requester: RequestAuthUser, to_user_email: string, amount_str: string, id: string, now: Timestamp)
    requires Consistent(s) && AmountValid(amount_str)
    requires requester.id in s.users && s.users[requester.id].email == requester.email
    requires to_user_email != requester.email && Text.ToLower(to_user_email) == requester.email
    requires s.balances[requester.id].value >= Text.ParseBigInt(amount_str).value
    ensures ServerRoutes.CreateTransactionFailuresAsWritten(true, requester.email, to_user_email, amount_str) == []
    ensures var o := CreateTransactionSpec([], s, map[], requester, to_user_email, amount_str, id, now);
      && o.response.status == 200
      && o.after.transactions
         == s.transactions + [TransactionRow(id, Text.ParseBigInt(amount_str).value, requester.id, requester.id, now)]
  {
    var amount := Text.ParseBigInt(amount_str).value;
    ServerUserService.FindUserByEmailOutcome(s, to_user_email);
    var to_user := ServerUserService.FindUserByEmailSpec(s, None, to_user_email);
    assert to_user.Ok?;
    var u :| u in s.users && s.users[u].email == Text.ToLower(to_user_email)
             && to_user.value == ServerUserService.UserDetail(UserRows.ToUser(s.users[u]), UserRows.ToBalance(s.balances[u]));
    assert u == requester.id;
    ServerTransactionService.TransferOutcome(s, map[], amount, requester.id, u, id, now);
    ServerTransactionService.TransferLogEffect(s, map[], amount, requester.id, u, id, now);
  }

  /** Over tables whose emails are stored lower-cased, a receiver email whose
      lower-cased form differs from the requester's never finds the requester. */
  lemma {:induction false} LookupMissesRequester(
    s: DbState, fault: Option<RawError>, requester: RequestAuthUser, to_user_email: string)
    requires Consistent(s) && ServerUserService.EmailsLowerCased(s)
    requires requester.id in s.users && s.users[requester.id].email == requester.email
    requires Text.ToLower(requester.email) != Text.ToLower(to_user_email)
    ensures var to_user := ServerUserService.FindUserByEmailSpec(s, fault, to_user_email);
      to_user.Ok? ==> to_user.value.user.id != requester.id
  {
    var to_user := ServerUserService.FindUserByEmailSpec(s, fault, to_user_email);
    if to_user.Ok? {
      ServerUserService.FindUserByEmailOutcome(s, to_user_email);
      assert fault.None?;
      var u :| u in s.users && s.users[u].email == Text.ToLower(to_user_email)
               && to_user.value == ServerUserService.UserDetail(UserRows.ToUser(s.users[u]), UserRows.ToBalance(s.balances[u]));
      Text.ToLowerIdempotent(requester.email);
    }
  }

  /** With the corrected self-send check, over tables whose emails are
      stored lower-cased, a request that passes validation never appends a
      record whose sender is its receiver, whatever else fails. */
  lemma {:induction false} NoSelfTransfer(
    s: DbState, faults: map<StoreCall, RawError>,
    requester: RequestAuthUser, to_user_email: string, amount_str: string, id: string, now: Timestamp)
    requires Consistent(s) && ServerUserService.EmailsLowerCased(s)
    requires requester.id in s.users && s.users[requester.id].email == requester.email
    requires ServerRoutes.CreateTransactionFailures(true, requester.email, to_user_email, amount_str) == []
    ensures var o := CreateTransactionSpec([], s, faults, requester, to_user_email, amount_str, id, now);
      forall i | |s.transactions| <= i < |o.after.transactions| ::
        o.after.transactions[i].from_user_id != o.after.transactions[i].to_user_id
  {
    var amount := Text.ParseBigInt(amount_str).value;
    var fault := FaultIn(faults, LookupCall(to_user_email));
    var to_user := ServerUserService.FindUserByEmailSpec(s, fault, to_user_email);
    LookupMissesRequester(s, fault, requester, to_user_email);
    if to_user.Ok? {
      var u := to_user.value.user.id;
      ServerTransactionService.TransferLogEffect(s, faults, amount, requester.id, u, id, now);
    }
  }

  class TransactionController {
    const transactions: ServerTransactionService.TransactionService
    const users: ServerUserService.UserService

    /** Both services work on the same database. */
    predicate Wired() {
      transactions.db == users.db
    }

    constructor(transactions: ServerTransactionService.TransactionService, users: ServerUserService.UserService)
      ensures this.transactions == transactions && this.users == users
    {
      this.transactions := transactions;
      this.users := users;
    }

    /** `createTransaction`: `failures` is what the route's validators found;
        `id` and `now` stand for the record id and the database clock. */
    method CreateTransaction(
      failures: seq<Failure>, requester: RequestAuthUser, to_user_email: string, amount_str: string,
      id: string, now: Timestamp)
      returns (resp: Response)
      requires Wired()
      requires failures == [] ==> AmountValid(amount_str)
      modifies users.db
      ensures var o := CreateTransactionSpec(failures, old(users.db.State()), old(users.db.faults),
                                             requester, to_user_email, amount_str, id, now);
        resp == o.response && users.db.State() == o.after && users.db.calls == old(users.db.calls) + o.calls
      ensures users.db.faults == old(users.db.faults)
      ensures old(users.db.Valid()) ==> users.db.Valid()
    {
      if failures != [] {
        return ValidationFailed(failures);
      }
      ghost var s, faults := users.db.State(), users.db.faults;
      var amount := Text.ParseBigInt(amount_str).value;
      var to_user := users.FindUserByEmail(to_user_email);
      assert to_user == ServerUserService.FindUserByEmailSpec(s, FaultIn(faults, LookupCall(to_user_email)), to_user_email);
      assert users.db.State() == s && users.db.faults == faults;
      if to_user.Err? {
        if to_user.error.UserEmailNotFound? {
          var e := BodyError("to_user_email", "to-user not found", to_user_email);
          resp := SendError(404, e);
          return;
        }
        return InternalServerError();
      }
      resp := TransferAndAnswer(requester.id, to_user.value.user.id, amount, id, now);
    }

    /** The second `try` of `createTransaction`: the transfer through the
        transaction service, answered by `SendTransferResponse`. */
    method TransferAndAnswer(from_user_id: UserId, to_user_id: UserId, amount: int, id: string, now: Timestamp)
      returns (resp: Response)
      requires Wired()
      modifies users.db
      ensures var run := ServerTransactionService.TransferSpec(old(users.db.State()), old(users.db.faults),
                                                               amount, from_user_id, to_user_id, id, now);
        resp == TransferResponse(run.result, amount) && users.db.State() == run.after
        && users.db.calls == old(users.db.calls) + run.calls
      ensures users.db.faults == old(users.db.faults)
      ensures old(users.db.Valid()) ==> users.db.Valid()
    {
      var result := transactions.CreateTransaction(amount, from_user_id, to_user_id, id, now);
      resp := SendTransferResponse(result, amount);
    }

    /** The second `try` and its `catch`: what is sent for the transfer's
        result. */
    method SendTransferResponse(result: Result<ServerTransactionService.TransferResult, ServiceError>, amount: int)
      returns (resp: Response)
      ensures resp == TransferResponse(result, amount)
    {
      if result.Ok? {
        return Response(200, Transfer(result.value));
      }
      if result.error.InsufficientFunds? {
        var e := BodyError("amount", "insufficient funds", Text.DecimalString(amount));
        resp := SendError(409, e);
        return;
      }
      if result.error.UserIDNotFound? {
        var e := BodyError("to_user_email", "User not found", result.error.user_id);
        resp := SendError(404, e);
        return;
      }
      resp := InternalServerError();
    }
  }
}
