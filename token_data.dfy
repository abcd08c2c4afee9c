/** reactclient/src/io_models/TokenData.ts: the token response. Its
    four-argument constructor is private and only ever called with the
    default token type, so every `TokenData` is a bearer token. */
module TokenDatas {
  import opened Wrappers
  import opened TsUtil

  datatype TokenFields = TokenFields(access_token: string, refresh_token: string, expires_in: int, token_type: string)

  /** Every value of this type has token type "bearer". */
  type TokenData = t: TokenFields | t.token_type == "bearer" witness TokenFields("", "", 0, "bearer")

  /** `TokenData.create(access_token, refresh_token, expires_in)`. */
  function CreateTokenData(accessToken: string, refreshToken: string, expiresIn: int): (t: TokenData)
    ensures t.access_token == accessToken && t.refresh_token == refreshToken && t.expires_in == expiresIn
  {
    TokenFields(accessToken, refreshToken, expiresIn, "bearer")
  }

  class TokenDataBuilder {
    var access_token: Option<string>
    var refresh_token: Option<string>
    var expires_in: Option<int>

    /** `TokenDataBuilder.create()`: nothing set. */
    constructor Create()
      ensures access_token.None? && refresh_token.None? && expires_in.None?
    {
      access_token, refresh_token, expires_in := None, None, None;
    }

    method AccessToken(v: string)
      modifies this
      ensures access_token == Some(v) && refresh_token == old(refresh_token) && expires_in == old(expires_in)
    {
      access_token := Some(v);
    }

    method RefreshToken(v: string)
      modifies this
      ensures refresh_token == Some(v) && access_token == old(access_token) && expires_in == old(expires_in)
    {
      refresh_token := Some(v);
    }

    method ExpiresIn(v: int)
      modifies this
      ensures expires_in == Some(v) && access_token == old(access_token) && refresh_token == old(refresh_token)
    {
      expires_in := Some(v);
    }

    /** `build()`: throws for the first unset field among access_token,
        refresh_token, expires_in; otherwise a bearer token carrying the
        values last set. */
    function Build(): (r: Result<TokenData, JsError>)
      reads this
      ensures r.Ok? <==> access_token.Some? && refresh_token.Some? && expires_in.Some?
      ensures r.Ok? ==> r.value.access_token == access_token.value && r.value.refresh_token == refresh_token.value
      ensures r.Ok? ==> r.value.expires_in == expires_in.value && r.value.token_type == "bearer"
      ensures access_token.None? ==> r == Err(UndefinedError("access_token"))
      ensures access_token.Some? && refresh_token.None? ==> r == Err(UndefinedError("refresh_token"))
      ensures access_token.Some? && refresh_token.Some? && expires_in.None? ==> r == Err(UndefinedError("expires_in"))
    {
      match Required(access_token, "access_token")
      case Err(e) => Err(e)
      case Ok(a) =>
        match Required(refresh_token, "refresh_token")
        case Err(e) => Err(e)
        case Ok(t) =>
          match Required(expires_in, "expires_in")
          case Err(e) => Err(e)
          case Ok(x) => Ok(CreateTokenData(a, t, x))
    }
  }

  /** Built fields equal the values last set, whatever was set before. */
  method BuildKeepsLastValues(a0: string, a: string, t: string, x0: int, x: int) returns (r: Result<TokenData, JsError>)
    ensures r.Ok? && r.value == TokenFields(a, t, x, "bearer")
  {
    var b := new TokenDataBuilder.Create();
    b.AccessToken(a0);
    b.ExpiresIn(x0);
    b.RefreshToken(t);
    b.AccessToken(a);
    b.ExpiresIn(x);
    r := b.Build();
  }
}
