/** src/services/UserService.ts: the earlier user service. Emails are stored
    and looked up exactly as given, and a lookup returns the user alone. */
module EarlyUserService {
  import opened Wrappers
  import opened Common
  import opened PrismaUtil
  import opened ServiceErrors
  import opened Store
  import opened MiniTocoUsers
  import opened UserRows

  datatype Run<T> = Run(result: Result<T, ServiceError>, after: DbState)

  /** `createUser(user, pw_hash, initial_balance)`: one `user.create` with the
      email as given and a nested balance row; a unique-constraint violation
      becomes `UserAlreadyExistsError`, any other error is rethrown. */
  function CreateUserSpec(
    s: DbState, fault: Option<RawError>, user: MiniTocoUserToCreate, pw_hash: string, initial_balance: int,
    id: UserId, now: Timestamp)
    : (run: Run<MiniTocoUser>)
    ensures run.result.Err? ==> run.after == s
  {
    var step := CreateUserStep(s, fault, id, user.email, pw_hash, user.first_name, user.last_name, initial_balance, now);
    if step.result.Err? then
      if IsUniqueConstraint(step.result.error) then Run(Err(UserAlreadyExists(user.email)), s)
      else Run(Err(Unclassified(step.result.error)), s)
    else Run(Ok(ToUser(step.result.value)), step.after)
  }

  /** `findUserByEmail(email)`: an exact match, or `UserEmailNotFoundError`. */
  function FindUserByEmailSpec(s: DbState, fault: Option<RawError>, email: string): (r: Result<MiniTocoUser, ServiceError>)
    ensures fault.Some? ==> r == Err(Unclassified(fault.value))
    ensures fault.None? && r.Err? ==> r.error == UserEmailNotFound(email)
    ensures r.Ok? ==> r.value.id in s.users && r.value == ToUser(s.users[r.value.id]) && r.value.email == email
  {
    var found := FindUserByEmailStep(s, fault, email).result;
    if found.Err? then Err(Unclassified(found.error))
    else if found.value.None? then Err(UserEmailNotFound(email))
    else Ok(ToUser(found.value.value.user))
  }

  /** `findUserById(user_id)`: the user, or `UserIDNotFoundError`. */
  function FindUserByIdSpec(s: DbState, fault: Option<RawError>, user_id: UserId): (r: Result<MiniTocoUser, ServiceError>)
    ensures fault.Some? ==> r == Err(Unclassified(fault.value))
    ensures fault.None? && r.Err? ==> r.error == UserIDNotFound(user_id)
    ensures r.Ok? ==> user_id in s.users && r.value == ToUser(s.users[user_id])
  {
    var found := FindUserByIdStep(s, fault, user_id).result;
    if found.Err? then Err(Unclassified(found.error))
    else if found.value.None? then Err(UserIDNotFound(user_id))
    else Ok(ToUser(found.value.value.user))
  }

  /** What `createUser` does against consistent tables when nothing but the
      data can fail: a registered email is `UserAlreadyExistsError`; a fresh
      one is stored exactly as given, with the requested starting balance. */
  lemma CreateUserOutcome(
    s: DbState, user: MiniTocoUserToCreate, pw_hash: string, initial_balance: int, id: UserId, now: Timestamp)
    requires Consistent(s)
    ensures var run := CreateUserSpec(s, None, user, pw_hash, initial_balance, id, now);
      && (user.email in s.emails ==> run.result == Err(UserAlreadyExists(user.email)))
      && (run.result.Ok? <==> user.email !in s.emails && id !in s.users && initial_balance >= 0)
      && (run.result.Ok? ==>
            && run.result.value == MiniTocoUser(id, pw_hash, user.email, user.first_name, user.last_name, now, now)
            && run.after.balances[id] == BalanceRow(initial_balance, now)
            && run.after.transactions == s.transactions)
      && (run.result.Err? ==> run.after == s)
      && Consistent(run.after)
  {
    CreateUserKeepsConsistent(s, None, id, user.email, pw_hash, user.first_name, user.last_name, initial_balance, now);
  }

  /** Any other store error is rethrown as it came. */
  lemma CreateUserErrors(
    s: DbState, e: RawError, user: MiniTocoUserToCreate, pw_hash: string, initial_balance: int, id: UserId, now: Timestamp)
    ensures var r := CreateUserSpec(s, Some(e), user, pw_hash, initial_balance, id, now).result;
      && (IsUniqueConstraint(e) ==> r == Err(UserAlreadyExists(user.email)))
      && (!IsUniqueConstraint(e) ==> r == Err(Unclassified(e)))
  {
  }

  /** A created user is found by exactly the email they registered with ... */
  lemma {:induction false} CreatedUserFoundByEmail(
    s: DbState, user: MiniTocoUserToCreate, pw_hash: string, initial_balance: int, id: UserId, now: Timestamp)
    requires Consistent(s)
    requires CreateUserSpec(s, None, user, pw_hash, initial_balance, id, now).result.Ok?
    ensures var run := CreateUserSpec(s, None, user, pw_hash, initial_balance, id, now);
      FindUserByEmailSpec(run.after, None, user.email) == Ok(run.result.value)
      && FindUserByIdSpec(run.after, None, id) == Ok(run.result.value)
  {
    var run := CreateUserSpec(s, None, user, pw_hash, initial_balance, id, now);
    CreateUserOutcome(s, user, pw_hash, initial_balance, id, now);
    assert run.after.emails[user.email] == id;
  }

  /** ... and not by any other spelling, unless someone registered that
      spelling too: the earlier lookup is case-sensitive. */
  lemma {:induction false} OtherSpellingNotFound(
    s: DbState, user: MiniTocoUserToCreate, pw_hash: string, initial_balance: int, id: UserId, now: Timestamp,
    lookup: string)
    requires Consistent(s)
    requires lookup != user.email && lookup !in s.emails
    requires CreateUserSpec(s, None, user, pw_hash, initial_balance, id, now).result.Ok?
    ensures var run := CreateUserSpec(s, None, user, pw_hash, initial_balance, id, now);
      FindUserByEmailSpec(run.after, None, lookup) == Err(UserEmailNotFound(lookup))
  {
    var run := CreateUserSpec(s, None, user, pw_hash, initial_balance, id, now);
    CreateUserOutcome(s, user, pw_hash, initial_balance, id, now);
    assert lookup !in run.after.emails;
    forall u | u in run.after.users ensures run.after.users[u].email != lookup {
      assert run.after.users[u].email in run.after.emails;
    }
  }

  /** `findUserByEmail` and `findUserById` against consistent tables. */
  lemma FindOutcomes(s: DbState, email: string, user_id: UserId)
    requires Consistent(s)
    ensures var r := FindUserByEmailSpec(s, None, email);
      && (r.Ok? <==> email in s.emails)
      && (r.Ok? ==> r.value == ToUser(s.users[s.emails[email]]))
      && (r.Err? ==> r.error == UserEmailNotFound(email))
    ensures var r := FindUserByIdSpec(s, None, user_id);
      && (r.Ok? <==> user_id in s.users)
      && (r.Ok? ==> r.value == ToUser(s.users[user_id]))
      && (r.Err? ==> r.error == UserIDNotFound(user_id))
  {
  }

  class UserService {
    const db: Db

    constructor(db: Db)
      ensures this.db == db
    {
      this.db := db;
    }

    method CreateUser(user: MiniTocoUserToCreate, pw_hash: string, initial_balance: int, id: UserId, now: Timestamp)
      returns (r: Result<MiniTocoUser, ServiceError>)
      modifies db
      ensures var run := CreateUserSpec(old(db.State()), old(db.FaultFor(CreateUserCall(user.email))),
                                        user, pw_hash, initial_balance, id, now);
        r == run.result && db.State() == run.after
      ensures db.calls == old(db.calls) + [CreateUserCall(user.email)] && db.faults == old(db.faults)
      ensures old(db.Valid()) ==> db.Valid()
    {
      var created := db.CreateUser(id, user.email, pw_hash, user.first_name, user.last_name, initial_balance, now);
      if created.Err? {
        if IsUniqueConstraint(created.error) {
          return Err(UserAlreadyExists(user.email));
        }
        return Err(Unclassified(created.error));
      }
      var u := BuildUser(created.value);
      r := Ok(u);
    }

    method FindUserByEmail(email: string) returns (r: Result<MiniTocoUser, ServiceError>)
      modifies db
      ensures r == FindUserByEmailSpec(old(db.State()), old(db.FaultFor(FindUserByEmailCall(email))), email)
      ensures db.State() == old(db.State()) && db.faults == old(db.faults)
      ensures db.calls == old(db.calls) + [FindUserByEmailCall(email)]
      ensures old(db.Valid()) ==> db.Valid()
    {
      var found := db.FindUserByEmail(email);
      if found.Err? {
        return Err(Unclassified(found.error));
      }
      if found.value.None? {
        return Err(UserEmailNotFound(email));
      }
      var u := BuildUser(found.value.value.user);
      r := Ok(u);
    }

    method FindUserById(user_id: UserId) returns (r: Result<MiniTocoUser, ServiceError>)
      modifies db
      ensures r == FindUserByIdSpec(old(db.State()), old(db.FaultFor(FindUserByIdCall(user_id))), user_id)
      ensures db.State() == old(db.State()) && db.faults == old(db.faults)
      ensures db.calls == old(db.calls) + [FindUserByIdCall(user_id)]
      ensures old(db.Valid()) ==> db.Valid()
    {
      var found := db.FindUserById(user_id);
      if found.Err? {
        return Err(Unclassified(found.error));
      }
      if found.value.None? {
        return Err(UserIDNotFound(user_id));
      }
      var u := BuildUser(found.value.value.user);
      r := Ok(u);
    }
  }
}
