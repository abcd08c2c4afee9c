/** server/src/controllers/UserController.ts: registration, log-in, token
    refresh and the two ways of reading one's own details. Each handler
    answers a validation failure first, then proceeds step by step through
    the password service, the user service and the token service, and turns
    each outcome into a status and a body.

    The password and token services (bcrypt and JWT) are not part of this
    model: they are the functions of `AuthServices`, a `None` standing for a
    call that throws. */
module ServerUserController {
  import opened Wrappers
  import opened Common
  import opened PrismaUtil
  import opened Store
  import opened ServiceErrors
  import opened RouteValidators
  import opened RequestAuthUsers
  import opened MiniTocoErrors
  import opened MiniTocoUsers
  import opened TokenDatas
  import opened Responses
  import ServerUserService
  import UserRows
  import Text

  /** The outside services the controller is given. */
  datatype AuthServices = AuthServices(
    /** `createPasswordHash(password)`. */
    hash: string -> Option<string>,
    /** `isPasswordMatch(password, pw_hash)`. */
    matches: (string, string) -> Option<bool>,
    /** `createTokenData(user_id, email)`. */
    mint: (UserId, string) -> Option<TokenData>,
    /** `verifyToken(refresh_token)`: the user id the token carries. */
    verify: string -> Option<UserId>)

  /** Every new user starts with this balance. */
  const InitialBalance := 1000

  function CreateCall(email: string): StoreCall { CreateUserCall(Text.ToLower(email)) }
  function ByEmailCall(email: string): StoreCall { FindUserByEmailCall(Text.ToLower(email)) }

  /** 400 "unsupported grant_type": one body error on `grant_type` that
      carries the grant type as sent. */
  function UnsupportedGrant(grant_type: string): (r: Response)
    ensures r.status == 400 && r.body.Errors? && |r.body.errors| == 1
    ensures r.body.errors[0].param == Some("grant_type") && r.body.errors[0].location == Some("body")
    ensures r.body.errors[0].value == grant_type && r.body.errors[0].msg == "unsupported grant_type"
  {
    Response(400, Errors([BodyErrorOf("grant_type", "unsupported grant_type", grant_type)]))
  }

  /** The one answer to every wrong log-in, whatever went wrong: 401 with a
      body error that carries only the username, so it tells an unknown
      email from a wrong password by nothing. */
  function IncorrectCredentials(username: string): (r: Response)
    ensures r.status == 401 && r.body.Errors? && |r.body.errors| == 1
    ensures r.body.errors[0].value == username && r.body.errors[0].location == Some("body")
    ensures r.body.errors[0].msg == "email or password incorrect" && r.body.errors[0].param == Some("email or password")
  {
    Response(401, Errors([BodyErrorOf("email or password", "email or password incorrect", username)]))
  }

  /** 200 with the token exactly when the token service returned one, and
      500 when it threw. */
  function TokenResponse(token: Option<TokenData>): (r: Response)
    ensures r.status == 200 <==> token.Some?
    ensures token.Some? ==> r.body == Token(token.value)
    ensures token.None? ==> r == InternalServerError()
  {
    if token.Some? then Response(200, Token(token.value)) else InternalServerError()
  }

  // ---- createUser ------------------------------------------------------------

  /** `createUser` on tables `s`; `id` and `now` stand for the id and the
      clock the database supplies. */
  function CreateUserSpec(
    failures: seq<Failure>, s: DbState, faults: map<StoreCall, RawError>, auth: AuthServices,
    user: MiniTocoUserToCreate, id: UserId, now: Timestamp)
    : (o: Outcome)
    ensures o.response.status in {200, 400, 409, 500}
    ensures o.response.status in {400, 409} ==> o.after == s
  {
    if failures != [] then Outcome(ValidationFailed(failures), s, [])
    else
      var pw_hash := auth.hash(user.password);
      if pw_hash.None? then Outcome(InternalServerError(), s, [])
      else
        var run := ServerUserService.CreateUserSpec(s, FaultIn(faults, CreateCall(user.email)), user, pw_hash.value,
                                                    InitialBalance, id, now);
        var calls := [CreateCall(user.email)];
        if run.result.Err? then
          if run.result.error.UserAlreadyExists? then
            Outcome(Response(409, Errors([BodyErrorOf("email", "User already exists", user.email)])), s, calls)
          else Outcome(InternalServerError(), s, calls)
        else
          Outcome(TokenResponse(auth.mint(run.result.value.id, run.result.value.email)), run.after, calls)
  }

  /** Registration against consistent tables, with nothing but the data and
      the outside services against it: a failed hash is 500 before the store
      is touched; an email registered in any casing is 409 naming the email
      as sent; otherwise the user is stored with the hash, the lower-cased
      email and a balance of 1000, and the token is minted for the stored
      email, the user staying registered even when minting throws. */
  lemma {:induction false} CreateUserOutcomes(
    s: DbState, auth: AuthServices, user: MiniTocoUserToCreate, id: UserId, now: Timestamp)
    requires Consistent(s) && id !in s.users
    ensures var o := CreateUserSpec([], s, map[], auth, user, id, now);
      && (auth.hash(user.password).None? ==> o == Outcome(InternalServerError(), s, []))
      && (auth.hash(user.password).Some? && Text.ToLower(user.email) in s.emails ==>
            o == Outcome(Response(409, Errors([BodyErrorOf("email", "User already exists", user.email)])), s,
                         [CreateCall(user.email)]))
      && (auth.hash(user.password).Some? && Text.ToLower(user.email) !in s.emails ==>
            && o.response == TokenResponse(auth.mint(id, Text.ToLower(user.email)))
            && o.after.users == s.users[id := UserRow(id, Text.ToLower(user.email), auth.hash(user.password).value,
                                                      user.first_name, user.last_name, now, now)]
            && o.after.balances == s.balances[id := BalanceRow(InitialBalance, now)]
            && Consistent(o.after))
  {
    var pw_hash := auth.hash(user.password);
    if pw_hash.Some? {
      ServerUserService.CreateUserOutcome(s, user, pw_hash.value, InitialBalance, id, now);
      var run := ServerUserService.CreateUserSpec(s, None, user, pw_hash.value, InitialBalance, id, now);
      if run.result.Ok? {
        assert run.after.balances == s.balances[id := BalanceRow(InitialBalance, now)];
      }
    }
  }

  // ---- logInUser ---------------------------------------------------------------

  /** `logInUser` with the request's `username`, `password` and `grant_type`. */
  function LogInUserSpec(
    failures: seq<Failure>, s: DbState, faults: map<StoreCall, RawError>, auth: AuthServices,
    username: string, password: string, grant_type: string)
    : (o: Outcome)
    ensures o.after == s
    ensures o.response.status in {200, 400, 401, 500}
  {
    if failures != [] then Outcome(ValidationFailed(failures), s, [])
    else if grant_type != "password" then Outcome(UnsupportedGrant(grant_type), s, [])
    else
      var found := ServerUserService.FindUserByEmailSpec(s, FaultIn(faults, ByEmailCall(username)), username);
      var calls := [ByEmailCall(username)];
      if found.Err? then
        if found.error.UserEmailNotFound? then Outcome(IncorrectCredentials(username), s, calls)
        else Outcome(InternalServerError(), s, calls)
      else if auth.matches(password, found.value.user.pw_hash) != Some(true) then
        Outcome(IncorrectCredentials(username), s, calls)
      else Outcome(TokenResponse(auth.mint(found.value.user.id, found.value.user.email)), s, calls)
  }

  /** Log-in against consistent tables: an unknown email, a wrong password
      and a password check that throws all get the same 401 body naming the
      username; a matching password gets the token minted for that user's
      id and stored email. */
  lemma {:induction false} LogInOutcomes(
    s: DbState, auth: AuthServices, username: string, password: string)
    requires Consistent(s)
    ensures var o := LogInUserSpec([], s, map[], auth, username, password, "password");
      (forall id :: id in s.users ==> s.users[id].email != Text.ToLower(username))
        ==> o.response == IncorrectCredentials(username)
    ensures var o := LogInUserSpec([], s, map[], auth, username, password, "password");
      forall id | id in s.users && s.users[id].email == Text.ToLower(username) ::
        && (auth.matches(password, s.users[id].pw_hash) != Some(true) ==> o.response == IncorrectCredentials(username))
        && (auth.matches(password, s.users[id].pw_hash) == Some(true) ==>
              o.response == TokenResponse(auth.mint(id, s.users[id].email)))
  {
    ServerUserService.FindUserByEmailOutcome(s, username);
    var found := ServerUserService.FindUserByEmailSpec(s, None, username);
    if found.Ok? {
      var u :| u in s.users && s.users[u].email == Text.ToLower(username)
               && found.value == ServerUserService.UserDetail(UserRows.ToUser(s.users[u]), UserRows.ToBalance(s.balances[u]));
      forall id | id in s.users && s.users[id].email == Text.ToLower(username)
        ensures id == u
      {
      }
    }
  }

  /** Once the route's log-in rules have passed, the handler's own grant
      type check never fires: the grant type is already "password". */
  lemma UnsupportedGrantUnreachableAfterLogInRules(
    s: DbState, faults: map<StoreCall, RawError>, auth: AuthServices,
    username_ok: bool, username: string, password: string, grant_type: string)
    requires LoginFailures(username, username_ok, password, grant_type) == []
    ensures LogInUserSpec([], s, faults, auth, username, password, grant_type).response != UnsupportedGrant(grant_type)
    ensures LogInUserSpec([], s, faults, auth, username, password, grant_type).calls == [ByEmailCall(username)]
  {
  }

  /** Were the route's rules bypassed, each token handler would answer a
      grant type other than its own with 400 "unsupported grant_type",
      before any statement is issued. */
  lemma UnsupportedGrantAnswered(
    s: DbState, faults: map<StoreCall, RawError>, auth: AuthServices,
    username: string, password: string, refresh_token: string, grant_type: string)
    ensures grant_type != "password" ==>
      LogInUserSpec([], s, faults, auth, username, password, grant_type) == Outcome(UnsupportedGrant(grant_type), s, [])
    ensures grant_type != "refresh_token" ==>
      RefreshTokenSpec([], s, faults, auth, refresh_token, grant_type) == Outcome(UnsupportedGrant(grant_type), s, [])
  {
  }

  // ---- refreshToken ------------------------------------------------------------

  /** `refreshToken` with the request's `refresh_token` and `grant_type`. */
  function RefreshTokenSpec(
    failures: seq<Failure>, s: DbState, faults: map<StoreCall, RawError>, auth: AuthServices,
    refresh_token: string, grant_type: string)
    : (o: Outcome)
    ensures o.after == s
    ensures o.response.status in {200, 400, 401, 500}
  {
    if failures != [] then Outcome(ValidationFailed(failures), s, [])
    else if grant_type != "refresh_token" then Outcome(UnsupportedGrant(grant_type), s, [])
    else
      var user_id := auth.verify(refresh_token);
      if user_id.None? then
        Outcome(Response(401, Errors([BodyErrorOf("refresh_token", "invalid refresh_token", refresh_token)])), s, [])
      else
        var found := ServerUserService.FindUserByIdSpec(s, FaultIn(faults, FindUserByIdCall(user_id.value)), user_id.value);
        var calls := [FindUserByIdCall(user_id.value)];
        if found.Err? then
          if found.error.UserIDNotFound? then
            Outcome(Response(401, Errors([BodyErrorOf("refresh_token", "User not found", user_id.value)])), s, calls)
          else Outcome(InternalServerError(), s, calls)
        else Outcome(TokenResponse(auth.mint(found.value.user.id, found.value.user.email)), s, calls)
  }

  /** Refresh against consistent tables: a token that does not verify is 401
      "invalid refresh_token" and reads nothing; a token for an unknown user
      is 401 "User not found" naming that id; otherwise a fresh token is
      minted for the user the token names, with their stored email. */
  lemma RefreshTokenOutcomes(s: DbState, auth: AuthServices, refresh_token: string)
    requires Consistent(s)
    ensures var o := RefreshTokenSpec([], s, map[], auth, refresh_token, "refresh_token");
      var user_id := auth.verify(refresh_token);
      && (user_id.None? ==>
            o == Outcome(Response(401, Errors([BodyErrorOf("refresh_token", "invalid refresh_token", refresh_token)])), s, []))
      && (user_id.Some? && user_id.value !in s.users ==>
            o.response == Response(401, Errors([BodyErrorOf("refresh_token", "User not found", user_id.value)])))
      && (user_id.Some? && user_id.value in s.users ==>
            o.response == TokenResponse(auth.mint(user_id.value, s.users[user_id.value].email)))
  {
    var user_id := auth.verify(refresh_token);
    if user_id.Some? {
      ServerUserService.FindUserByIdOutcome(s, user_id.value);
    }
  }

  // ---- me and fetchUser --------------------------------------------------------

  /** `me`: the requester's own details. */
  function MeSpec(failures: seq<Failure>, s: DbState, faults: map<StoreCall, RawError>, requester: RequestAuthUser)
    : (o: Outcome)
    ensures o.after == s
    ensures o.response.status in {200, 400, 404, 500}
  {
    if failures != [] then Outcome(ValidationFailed(failures), s, [])
    else
      var found := ServerUserService.FindUserByIdSpec(s, FaultIn(faults, FindUserByIdCall(requester.id)), requester.id);
      var calls := [FindUserByIdCall(requester.id)];
      if found.Ok? then Outcome(Response(200, Detail(found.value)), s, calls)
      else if found.error.UserIDNotFound? then
        Outcome(Response(404, Errors([PathErrorOf("user_id", "User not found", requester.id)])), s, calls)
      else Outcome(InternalServerError(), s, calls)
  }

  /** `fetchUser`: only the requester's own id may be asked for; then as `me`. */
  function FetchUserSpec(
    failures: seq<Failure>, s: DbState, faults: map<StoreCall, RawError>, requester: RequestAuthUser, user_id: UserId)
    : (o: Outcome)
    ensures o.after == s
    ensures o.response.status in {200, 400, 403, 404, 500}
  {
    if failures != [] then Outcome(ValidationFailed(failures), s, [])
    else if requester.id != user_id then
      Outcome(Response(403, Errors([PathErrorOf("user_id", "Only the currently-logged in user can fetch their own user details", user_id)])),
              s, [])
    else MeSpec(failures, s, faults, requester)
  }

  /** `me` against consistent tables: the requester's user and balance, or
      404 "User not found" on the path's `user_id` when the requester is gone. */
  lemma MeOutcomes(s: DbState, requester: RequestAuthUser)
    requires Consistent(s)
    ensures var o := MeSpec([], s, map[], requester);
      && (requester.id in s.users ==>
            o.response == Response(200, Detail(ServerUserService.UserDetail(UserRows.ToUser(s.users[requester.id]),
                                                                          UserRows.ToBalance(s.balances[requester.id])))))
      && (requester.id !in s.users ==>
            o.response == Response(404, Errors([PathErrorOf("user_id", "User not found", requester.id)])))
  {
    ServerUserService.FindUserByIdOutcome(s, requester.id);
  }

  /** `fetchUser` answers 403 before any statement when the ids differ, and
      exactly as `me` when they agree. */
  lemma FetchUserOnlyOwnDetails(
    failures: seq<Failure>, s: DbState, faults: map<StoreCall, RawError>, requester: RequestAuthUser, user_id: UserId)
    ensures failures == [] && requester.id != user_id ==>
      && FetchUserSpec(failures, s, faults, requester, user_id).response.status == 403
      && FetchUserSpec(failures, s, faults, requester, user_id).calls == []
    ensures requester.id == user_id ==> FetchUserSpec(failures, s, faults, requester, user_id) == MeSpec(failures, s, faults, requester)
  {
  }

  /** A store statement that fails for a reason the handler does not
      recognise is answered 500 and changes nothing: the insert of
      `createUser` unless it is a unique-constraint error, and the lookup of
      `logInUser`, `refreshToken` and `me` whatever the error. */
  lemma StoreFaultsAnswered(
    s: DbState, faults: map<StoreCall, RawError>, auth: AuthServices, user: MiniTocoUserToCreate, id: UserId,
    now: Timestamp, username: string, password: string, refresh_token: string, requester: RequestAuthUser)
    ensures auth.hash(user.password).Some? && FaultIn(faults, CreateCall(user.email)).Some?
            && !IsUniqueConstraint(FaultIn(faults, CreateCall(user.email)).value) ==>
      CreateUserSpec([], s, faults, auth, user, id, now) == Outcome(InternalServerError(), s, [CreateCall(user.email)])
    ensures FaultIn(faults, ByEmailCall(username)).Some? ==>
      LogInUserSpec([], s, faults, auth, username, password, "password")
      == Outcome(InternalServerError(), s, [ByEmailCall(username)])
    ensures auth.verify(refresh_token).Some? && FaultIn(faults, FindUserByIdCall(auth.verify(refresh_token).value)).Some? ==>
      RefreshTokenSpec([], s, faults, auth, refresh_token, "refresh_token")
      == Outcome(InternalServerError(), s, [FindUserByIdCall(auth.verify(refresh_token).value)])
    ensures FaultIn(faults, FindUserByIdCall(requester.id)).Some? ==>
      MeSpec([], s, faults, requester) == Outcome(InternalServerError(), s, [FindUserByIdCall(requester.id)])
  {
    var fault := FaultIn(faults, CreateCall(user.email));
    if auth.hash(user.password).Some? && fault.Some? {
      ServerUserService.CreateUserErrors(s, fault.value, user, auth.hash(user.password).value, InitialBalance, id, now);
    }
  }

  /** Every handler answers a validation failure with 400 and the failures,
      before any statement is issued or any outside service called. */
  lemma ValidationFailureAnsweredFirst(
    failures: seq<Failure>, s: DbState, faults: map<StoreCall, RawError>, auth: AuthServices,
    user: MiniTocoUserToCreate, id: UserId, now: Timestamp, username: string, password: string, grant_type: string,
    requester: RequestAuthUser, user_id: UserId)
    requires failures != []
    ensures var answer := Outcome(Response(400, ValidationErrors(failures)), s, []);
      && CreateUserSpec(failures, s, faults, auth, user, id, now) == answer
      && LogInUserSpec(failures, s, faults, auth, username, password, grant_type) == answer
      && RefreshTokenSpec(failures, s, faults, auth, password, grant_type) == answer
      && MeSpec(failures, s, faults, requester) == answer
      && FetchUserSpec(failures, s, faults, requester, user_id) == answer
  {
  }

  // ---- the handlers ------------------------------------------------------------

  class UserController {
    const users: ServerUserService.UserService
    const auth: AuthServices

    constructor(users: ServerUserService.UserService, auth: AuthServices)
      ensures this.users == users && this.auth == auth
    {
      this.users := users;
      this.auth := auth;
    }

    method CreateUser(failures: seq<Failure>, user: MiniTocoUserToCreate, id: UserId, now: Timestamp)
      returns (resp: Response)
      modifies users.db
      ensures var o := CreateUserSpec(failures, old(users.db.State()), old(users.db.faults), auth, user, id, now);
        resp == o.response && users.db.State() == o.after && users.db.calls == old(users.db.calls) + o.calls
      ensures users.db.faults == old(users.db.faults)
      ensures old(users.db.Valid()) ==> users.db.Valid()
    {
      if failures != [] {
        return ValidationFailed(failures);
      }
      var pw_hash := auth.hash(user.password);
      if pw_hash.None? {
        return InternalServerError();
      }
      var created := users.CreateUser(user, pw_hash.value, InitialBalance, id, now);
      if created.Err? {
        if created.error.UserAlreadyExists? {
          var e := BodyError("email", "User already exists", user.email);
          resp := SendError(409, e);
          return;
        }
        return InternalServerError();
      }
      var token := auth.mint(created.value.id, created.value.email);
      if token.None? {
        return InternalServerError();
      }
      resp := Response(200, Token(token.value));
    }

    method LogInUser(failures: seq<Failure>, username: string, password: string, grant_type: string)
      returns (resp: Response)
      modifies users.db
      ensures var o := LogInUserSpec(failures, old(users.db.State()), old(users.db.faults), auth, username, password, grant_type);
        resp == o.response && users.db.State() == o.after && users.db.calls == old(users.db.calls) + o.calls
      ensures users.db.faults == old(users.db.faults)
      ensures old(users.db.Valid()) ==> users.db.Valid()
    {
      if failures != [] {
        return ValidationFailed(failures);
      }
      if grant_type != "password" {
        var e := BodyError("grant_type", "unsupported grant_type", grant_type);
        resp := SendError(400, e);
        return;
      }
      var found := users.FindUserByEmail(username);
      if found.Err? {
        if found.error.UserEmailNotFound? {
          var e := BodyError("email or password", "email or password incorrect", username);
          resp := SendError(401, e);
          return;
        }
        return InternalServerError();
      }
      var is_match := auth.matches(password, found.value.user.pw_hash);
      if is_match != Some(true) {
        var e := BodyError("email or password", "email or password incorrect", username);
        resp := SendError(401, e);
        return;
      }
      var token := auth.mint(found.value.user.id, found.value.user.email);
      if token.None? {
        return InternalServerError();
      }
      resp := Response(200, Token(token.value));
    }

    method RefreshToken(failures: seq<Failure>, refresh_token: string, grant_type: string) returns (resp: Response)
      modifies users.db
      ensures var o := RefreshTokenSpec(failures, old(users.db.State()), old(users.db.faults), auth, refresh_token, grant_type);
        resp == o.response && users.db.State() == o.after && users.db.calls == old(users.db.calls) + o.calls
      ensures users.db.faults == old(users.db.faults)
      ensures old(users.db.Valid()) ==> users.db.Valid()
    {
      if failures != [] {
        return ValidationFailed(failures);
      }
      if grant_type != "refresh_token" {
        var e := BodyError("grant_type", "unsupported grant_type", grant_type);
        resp := SendError(400, e);
        return;
      }
      var user_id := auth.verify(refresh_token);
      if user_id.None? {
        var e := BodyError("refresh_token", "invalid refresh_token", refresh_token);
        resp := SendError(401, e);
        return;
      }
      var found := users.FindUserById(user_id.value);
      if found.Err? {
        if found.error.UserIDNotFound? {
          var e := BodyError("refresh_token", "User not found", user_id.value);
          resp := SendError(401, e);
          return;
        }
        return InternalServerError();
      }
      var token := auth.mint(found.value.user.id, found.value.user.email);
      if token.None? {
        return InternalServerError();
      }
      resp := Response(200, Token(token.value));
    }

    method FetchUser(failures: seq<Failure>, requester: RequestAuthUser, user_id: UserId) returns (resp: Response)
      modifies users.db
      ensures var o := FetchUserSpec(failures, old(users.db.State()), old(users.db.faults), requester, user_id);
        resp == o.response && users.db.State() == o.after && users.db.calls == old(users.db.calls) + o.calls
      ensures users.db.faults == old(users.db.faults)
      ensures old(users.db.Valid()) ==> users.db.Valid()
    {
      if failures != [] {
        return ValidationFailed(failures);
      }
      if requester.id != user_id {
        var e := PathError("user_id", "Only the currently-logged in user can fetch their own user details", user_id);
        resp := SendError(403, e);
        return;
      }
      resp := Me(failures, requester);
    }

    method Me(failures: seq<Failure>, requester: RequestAuthUser) returns (resp: Response)
      modifies users.db
      ensures var o := MeSpec(failures, old(users.db.State()), old(users.db.faults), requester);
        resp == o.response && users.db.State() == o.after && users.db.calls == old(users.db.calls) + o.calls
      ensures users.db.faults == old(users.db.faults)
      ensures old(users.db.Valid()) ==> users.db.Valid()
    {
      if failures != [] {
        return ValidationFailed(failures);
      }
      var found := users.FindUserById(requester.id);
      if found.Ok? {
        return Response(200, Detail(found.value));
      }
      if found.error.UserIDNotFound? {
        var e := PathError("user_id", "User not found", requester.id);
        resp := SendError(404, e);
        return;
      }
      resp := InternalServerError();
    }
  }
}
