/** src/io_models/CreateTokenRequest.ts: the two token requests, whose
    `grant_type` is fixed by their private constructors, and their builders. */
module CreateTokenRequests {
  import opened Wrappers
  import opened TsUtil

  datatype PasswordRequestFields = PasswordRequestFields(grant_type: string, username: string, password: string)
  datatype RefreshRequestFields = RefreshRequestFields(grant_type: string, refresh_token: string)

  /** A `CreateTokenWithPasswordRequest`: only its constructor makes one, and
      it always passes "password" as the grant type. */
  type CreateTokenWithPasswordRequest = r: PasswordRequestFields | r.grant_type == "password"
    witness PasswordRequestFields("password", "", "")

  /** A `CreateTokenWithRefreshTokenRequest`, always of grant type "refresh_token". */
  type CreateTokenWithRefreshTokenRequest = r: RefreshRequestFields | r.grant_type == "refresh_token"
    witness RefreshRequestFields("refresh_token", "")

  /** `CreateTokenWithPasswordRequest.create(username, password)`. */
  function CreatePasswordRequest(username: string, password: string): (r: CreateTokenWithPasswordRequest)
    ensures r.username == username && r.password == password
  {
    PasswordRequestFields("password", username, password)
  }

  /** `CreateTokenWithRefreshTokenRequest.create(refresh_token)`. */
  function CreateRefreshRequest(refreshToken: string): (r: CreateTokenWithRefreshTokenRequest)
    ensures r.refresh_token == refreshToken
  {
    RefreshRequestFields("refresh_token", refreshToken)
  }

  /** The two kinds of request never share a grant type. */
  lemma GrantTypesDiffer(p: CreateTokenWithPasswordRequest, t: CreateTokenWithRefreshTokenRequest)
    ensures p.grant_type != t.grant_type
  {
    assert p.grant_type[0] != t.grant_type[0];
  }

  class CreateTokenWithPasswordRequestBuilder {
    var username: Option<string>
    var password: Option<string>

    constructor Create(from: Option<CreateTokenWithPasswordRequest>)
      ensures from.None? ==> username.None? && password.None?
      ensures from.Some? ==> username == Some(from.value.username) && password == Some(from.value.password)
    {
      username, password := None, None;
      if from.Some? {
        username, password := Some(from.value.username), Some(from.value.password);
      }
    }

    method Username(v: string)
      modifies this
      ensures username == Some(v) && password == old(password)
    {
      username := Some(v);
    }

    method Password(v: string)
      modifies this
      ensures password == Some(v) && username == old(username)
    {
      password := Some(v);
    }

    /** `build()`: throws unless username and password are set, username first. */
    function Build(): (r: Result<CreateTokenWithPasswordRequest, JsError>)
      reads this
      ensures r.Ok? <==> username.Some? && password.Some?
      ensures r.Ok? ==> r.value.username == username.value && r.value.password == password.value
      ensures username.None? ==> r == Err(UndefinedError("username"))
      ensures username.Some? && password.None? ==> r == Err(UndefinedError("password"))
    {
      match Required(username, "username")
      case Err(e) => Err(e)
      case Ok(u) =>
        match Required(password, "password")
        case Err(e) => Err(e)
        case Ok(p) => Ok(CreatePasswordRequest(u, p))
    }
  }

  /** `CreateTokenWithPasswordRequestBuilder.create(r).build()` reproduces `r`. */
  method PasswordRequestRoundTrip(req: CreateTokenWithPasswordRequest) returns (r: Result<CreateTokenWithPasswordRequest, JsError>)
    ensures r == Ok(req)
  {
    var b := new CreateTokenWithPasswordRequestBuilder.Create(Some(req));
    r := b.Build();
  }

  class CreateTokenWithRefreshTokenRequestBuilder {
    var refresh_token: Option<string>

    constructor Create(from: Option<CreateTokenWithRefreshTokenRequest>)
      ensures from.None? ==> refresh_token.None?
      ensures from.Some? ==> refresh_token == Some(from.value.refresh_token)
    {
      refresh_token := None;
      if from.Some? {
        refresh_token := Some(from.value.refresh_token);
      }
    }

    method RefreshToken(v: string)
      modifies this
      ensures refresh_token == Some(v)
    {
      refresh_token := Some(v);
    }

    /** `build()`: throws unless refresh_token is set. */
    function Build(): (r: Result<CreateTokenWithRefreshTokenRequest, JsError>)
      reads this
      ensures r.Ok? <==> refresh_token.Some?
      ensures r.Ok? ==> r.value.refresh_token == refresh_token.value
      ensures refresh_token.None? ==> r == Err(UndefinedError("refresh_token"))
    {
      match Required(refresh_token, "refresh_token")
      case Err(e) => Err(e)
      case Ok(t) => Ok(CreateRefreshRequest(t))
    }
  }

  /** `CreateTokenWithRefreshTokenRequestBuilder.create(r).build()` reproduces `r`. */
  method RefreshRequestRoundTrip(req: CreateTokenWithRefreshTokenRequest) returns (r: Result<CreateTokenWithRefreshTokenRequest, JsError>)
    ensures r == Ok(req)
  {
    var b := new CreateTokenWithRefreshTokenRequestBuilder.Create(Some(req));
    r := b.Build();
  }
}
