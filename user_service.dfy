/** server/src/services/UserService.ts: creating users and finding them by
    email or id. Emails are lower-cased on the way in and on every lookup, so
    the address is matched without regard to the case of its ASCII letters.
    A lookup returns the user together with their balance. */
module ServerUserService {
  import opened Wrappers
  import opened Common
  import opened PrismaUtil
  import opened ServiceErrors
  import opened Store
  import opened MiniTocoUsers
  import opened MiniTocoBalances
  import opened UserRows
  import Text

  /** `MiniTocoUserDetail`: a user and their balance. */
  datatype UserDetail = UserDetail(user: MiniTocoUser, balance: MiniTocoBalance)

  datatype Run<T> = Run(result: Result<T, ServiceError>, after: DbState)

  /** `createUser(user, pw_hash, initial_balance)`: one `user.create` with
      the lower-cased email and a nested balance row. A unique-constraint
      violation becomes `UserAlreadyExistsError` carrying the email as the
      caller wrote it; any other error is rethrown. `id` and `now` stand for
      the id and the timestamps the database generates. */
  function CreateUserSpec(
    s: DbState, fault: Option<RawError>, user: MiniTocoUserToCreate, pw_hash: string, initial_balance: int,
    id: UserId, now: Timestamp)
    : (run: Run<MiniTocoUser>)
    ensures run.result.Err? ==> run.after == s
  {
    var step := CreateUserStep(s, fault, id, Text.ToLower(user.email), pw_hash, user.first_name, user.last_name,
                               initial_balance, now);
    if step.result.Err? then
      if IsUniqueConstraint(step.result.error) then Run(Err(UserAlreadyExists(user.email)), s)
      else Run(Err(Unclassified(step.result.error)), s)
    else Run(Ok(ToUser(step.result.value)), step.after)
  }

  /** `findUserByEmail(email)`: the lookup is by the lower-cased email; no
      match is `UserEmailNotFoundError` carrying the email as passed. */
  function FindUserByEmailSpec(s: DbState, fault: Option<RawError>, email: string): (r: Result<UserDetail, ServiceError>)
    ensures fault.Some? ==> r == Err(Unclassified(fault.value))
    ensures fault.None? && r.Err? ==> r.error == UserEmailNotFound(email)
    ensures r.Ok? ==>
      && r.value.user.id in s.users && r.value.user == ToUser(s.users[r.value.user.id])
      && r.value.user.email == Text.ToLower(email)
      && r.value.user.id in s.balances && r.value.balance == ToBalance(s.balances[r.value.user.id])
  {
    var found := FindUserByEmailStep(s, fault, Text.ToLower(email)).result;
    if found.Err? then Err(Unclassified(found.error))
    else if found.value.None? then Err(UserEmailNotFound(email))
    else Ok(UserDetail(ToUser(found.value.value.user), ToBalance(found.value.value.balance)))
  }

  /** `findUserById(user_id)`: no match is `UserIDNotFoundError`. */
  function FindUserByIdSpec(s: DbState, fault: Option<RawError>, user_id: UserId): (r: Result<UserDetail, ServiceError>)
    ensures fault.Some? ==> r == Err(Unclassified(fault.value))
    ensures fault.None? && r.Err? ==> r.error == UserIDNotFound(user_id)
    ensures r.Ok? ==>
      && user_id in s.users && r.value.user == ToUser(s.users[user_id])
      && user_id in s.balances && r.value.balance == ToBalance(s.balances[user_id])
  {
    var found := FindUserByIdStep(s, fault, user_id).result;
    if found.Err? then Err(Unclassified(found.error))
    else if found.value.None? then Err(UserIDNotFound(user_id))
    else Ok(UserDetail(ToUser(found.value.value.user), ToBalance(found.value.value.balance)))
  }

  /** What `createUser` does against consistent tables when nothing but the
      data can fail: an email already registered in any casing is
      `UserAlreadyExistsError` with the email as given; a fresh email is
      stored lower-cased with the requested starting balance, and every
      other field as given. Errors leave the tables as they were. */
  lemma CreateUserOutcome(
    s: DbState, user: MiniTocoUserToCreate, pw_hash: string, initial_balance: int, id: UserId, now: Timestamp)
    requires Consistent(s)
    ensures var run := CreateUserSpec(s, None, user, pw_hash, initial_balance, id, now);
      && (Text.ToLower(user.email) in s.emails ==> run.result == Err(UserAlreadyExists(user.email)))
      && (run.result.Ok? <==> Text.ToLower(user.email) !in s.emails && id !in s.users && initial_balance >= 0)
      && (run.result.Ok? ==>
            && run.result.value == MiniTocoUser(id, pw_hash, Text.ToLower(user.email), user.first_name, user.last_name, now, now)
            && run.after.balances[id] == BalanceRow(initial_balance, now)
            && run.after.users == s.users[id := ToUserRow(run.result.value)]
            && run.after.transactions == s.transactions)
      && (run.result.Err? ==> run.after == s)
      && Consistent(run.after)
  {
    CreateUserKeepsConsistent(s, None, id, Text.ToLower(user.email), pw_hash, user.first_name, user.last_name,
                              initial_balance, now);
  }

  /** Any other store error is rethrown as it came, and only a unique-constraint
      violation is reported as an existing user. */
  lemma CreateUserErrors(
    s: DbState, e: RawError, user: MiniTocoUserToCreate, pw_hash: string, initial_balance: int, id: UserId, now: Timestamp)
    ensures var r := CreateUserSpec(s, Some(e), user, pw_hash, initial_balance, id, now).result;
      && (IsUniqueConstraint(e) ==> r == Err(UserAlreadyExists(user.email)))
      && (!IsUniqueConstraint(e) ==> r == Err(Unclassified(e)))
  {
  }

  /** The row a created user is stored as. */
  function ToUserRow(u: MiniTocoUser): UserRow {
    UserRow(u.id, u.email, u.pw_hash, u.first_name, u.last_name, u.created_at, u.updated_at)
  }

  /** A user created with some casing of an email is found by any other
      casing of it, with the balance they were created with. */
  lemma {:induction false} CreatedUserFoundInAnyCase(
    s: DbState, user: MiniTocoUserToCreate, pw_hash: string, initial_balance: int, id: UserId, now: Timestamp,
    lookup: string)
    requires Consistent(s)
    requires Text.ToLower(lookup) == Text.ToLower(user.email)
    requires CreateUserSpec(s, None, user, pw_hash, initial_balance, id, now).result.Ok?
    ensures var run := CreateUserSpec(s, None, user, pw_hash, initial_balance, id, now);
      FindUserByEmailSpec(run.after, None, lookup) == Ok(UserDetail(run.result.value, MiniTocoBalance(initial_balance, now)))
  {
    var run := CreateUserSpec(s, None, user, pw_hash, initial_balance, id, now);
    CreateUserOutcome(s, user, pw_hash, initial_balance, id, now);
    var email := Text.ToLower(user.email);
    assert run.after.emails[email] == id;
    assert run.after.users[id].email == email;
  }

  /** Registering twice with emails that differ only in case: the second
      attempt is `UserAlreadyExistsError`. */
  lemma {:induction false} SecondRegistrationInOtherCaseRefused(
    s: DbState, first: MiniTocoUserToCreate, second: MiniTocoUserToCreate, pw_hash: string, initial_balance: int,
    id1: UserId, id2: UserId, now: Timestamp)
    requires Consistent(s)
    requires Text.ToLower(first.email) == Text.ToLower(second.email)
    requires CreateUserSpec(s, None, first, pw_hash, initial_balance, id1, now).result.Ok?
    ensures var after := CreateUserSpec(s, None, first, pw_hash, initial_balance, id1, now).after;
      CreateUserSpec(after, None, second, pw_hash, initial_balance, id2, now).result == Err(UserAlreadyExists(second.email))
  {
    CreateUserOutcome(s, first, pw_hash, initial_balance, id1, now);
    var after := CreateUserSpec(s, None, first, pw_hash, initial_balance, id1, now).after;
    CreateUserOutcome(after, second, pw_hash, initial_balance, id2, now);
  }

  /** `findUserByEmail` against consistent tables: found exactly when some
      user's stored email is the lower-cased lookup, and then it is that
      user with their balance; otherwise `UserEmailNotFoundError` with the
      lookup as passed. */
  lemma FindUserByEmailOutcome(s: DbState, email: string)
    requires Consistent(s)
    ensures var r := FindUserByEmailSpec(s, None, email);
      && (r.Ok? <==> exists id :: id in s.users && s.users[id].email == Text.ToLower(email))
      && (r.Err? ==> r.error == UserEmailNotFound(email))
      && (r.Ok? ==> exists id :: id in s.users && s.users[id].email == Text.ToLower(email)
                      && r.value == UserDetail(ToUser(s.users[id]), ToBalance(s.balances[id])))
  {
  }

  /** `findUserById` against consistent tables: the user with their balance,
      or `UserIDNotFoundError` with the id as passed. */
  lemma FindUserByIdOutcome(s: DbState, user_id: UserId)
    requires Consistent(s)
    ensures var r := FindUserByIdSpec(s, None, user_id);
      && (r.Ok? <==> user_id in s.users)
      && (r.Ok? ==> r.value == UserDetail(ToUser(s.users[user_id]), ToBalance(s.balances[user_id])))
      && (r.Err? ==> r.error == UserIDNotFound(user_id))
  {
  }

  /** Every stored email is lower-cased. */
  predicate EmailsLowerCased(s: DbState) {
    forall u :: u in s.users ==> Text.IsLower(s.users[u].email)
  }

  /** `createUser` stores only lower-cased emails, so tables built by it
      keep every email lower-cased. */
  lemma CreateUserKeepsEmailsLowerCased(
    s: DbState, fault: Option<RawError>, user: MiniTocoUserToCreate, pw_hash: string, initial_balance: int,
    id: UserId, now: Timestamp)
    requires EmailsLowerCased(s)
    ensures EmailsLowerCased(CreateUserSpec(s, fault, user, pw_hash, initial_balance, id, now).after)
  {
    Text.ToLowerIdempotent(user.email);
  }

  class UserService {
    const db: Db

    constructor(db: Db)
      ensures this.db == db
    {
      this.db := db;
    }

    method CreateUser(user: MiniTocoUserToCreate, pw_hash: string, initial_balance: int, id: UserId, now: Timestamp)
      returns (r: Result<MiniTocoUser, ServiceError>)
      modifies db
      ensures var run := CreateUserSpec(old(db.State()), old(db.FaultFor(CreateUserCall(Text.ToLower(user.email)))),
                                        user, pw_hash, initial_balance, id, now);
        r == run.result && db.State() == run.after
      ensures db.calls == old(db.calls) + [CreateUserCall(Text.ToLower(user.email))] && db.faults == old(db.faults)
      ensures old(db.Valid()) ==> db.Valid()
    {
      var created := db.CreateUser(id, Text.ToLower(user.email), pw_hash, user.first_name, user.last_name,
                                   initial_balance, now);
      if created.Err? {
        if IsUniqueConstraint(created.error) {
          return Err(UserAlreadyExists(user.email));
        }
        return Err(Unclassified(created.error));
      }
      var u := BuildUser(created.value);
      r := Ok(u);
    }

    method FindUserByEmail(email: string) returns (r: Result<UserDetail, ServiceError>)
      modifies db
      ensures r == FindUserByEmailSpec(old(db.State()), old(db.FaultFor(FindUserByEmailCall(Text.ToLower(email)))), email)
      ensures db.State() == old(db.State()) && db.faults == old(db.faults)
      ensures db.calls == old(db.calls) + [FindUserByEmailCall(Text.ToLower(email))]
      ensures old(db.Valid()) ==> db.Valid()
    {
      var found := db.FindUserByEmail(Text.ToLower(email));
      if found.Err? {
        return Err(Unclassified(found.error));
      }
      if found.value.None? {
        return Err(UserEmailNotFound(email));
      }
      var balance := BuildBalance(found.value.value.balance);
      var user := BuildUser(found.value.value.user);
      r := Ok(UserDetail(user, balance));
    }

    method FindUserById(user_id: UserId) returns (r: Result<UserDetail, ServiceError>)
      modifies db
      ensures r == FindUserByIdSpec(old(db.State()), old(db.FaultFor(FindUserByIdCall(user_id))), user_id)
      ensures db.State() == old(db.State()) && db.faults == old(db.faults)
      ensures db.calls == old(db.calls) + [FindUserByIdCall(user_id)]
      ensures old(db.Valid()) ==> db.Valid()
    {
      var found := db.FindUserById(user_id);
      if found.Err? {
        return Err(Unclassified(found.error));
      }
      if found.value.None? {
        return Err(UserIDNotFound(user_id));
      }
      var balance := BuildBalance(found.value.value.balance);
      var user := BuildUser(found.value.value.user);
      r := Ok(UserDetail(user, balance));
    }
  }
}
