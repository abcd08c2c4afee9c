/** server/src/io_models/RequestAuthUser.ts: the authenticated requester
    (id and email) and its builder. */
module RequestAuthUsers {
  import opened Wrappers
  import opened TsUtil
  import opened Common

  datatype RequestAuthUser = RequestAuthUser(id: UserId, email: string)

  class RequestAuthUserBuilder {
    var id: Option<UserId>
    var email: Option<string>

    /** `RequestAuthUserBuilder.create(from?)`. */
    constructor Create(from: Option<RequestAuthUser>)
      ensures from.None? ==> id.None? && email.None?
      ensures from.Some? ==> id == Some(from.value.id) && email == Some(from.value.email)
    {
      id, email := None, None;
      if from.Some? {
        id, email := Some(from.value.id), Some(from.value.email);
      }
    }

    method Id(v: UserId)
      modifies this
      ensures id == Some(v) && email == old(email)
    {
      id := Some(v);
    }

    method Email(v: string)
      modifies this
      ensures email == Some(v) && id == old(id)
    {
      email := Some(v);
    }

    /** `build()`: throws unless id and email are set, id first. */
    function Build(): (r: Result<RequestAuthUser, JsError>)
      reads this
      ensures r.Ok? <==> id.Some? && email.Some?
      ensures r.Ok? ==> r.value == RequestAuthUser(id.value, email.value)
      ensures id.None? ==> r == Err(UndefinedError("id"))
      ensures id.Some? && email.None? ==> r == Err(UndefinedError("email"))
    {
      match Required(id, "id")
      case Err(e) => Err(e)
      case Ok(i) =>
        match Required(email, "email")
        case Err(e) => Err(e)
        case Ok(m) => Ok(RequestAuthUser(i, m))
    }
  }

  /** `u.newBuilder().build()`, that is `RequestAuthUserBuilder.create(u).build()`,
      equals `u`. */
  method NewBuilderRoundTrip(u: RequestAuthUser) returns (r: Result<RequestAuthUser, JsError>)
    ensures r == Ok(u)
  {
    var b := new RequestAuthUserBuilder.Create(Some(u));
    r := b.Build();
  }

  /** Setters overwrite: after `id(a).email(b).id(c).email(d)` the built user is (c, d). */
  method LaterSettersWin(a: UserId, b: string, c: UserId, d: string) returns (r: Result<RequestAuthUser, JsError>)
    ensures r == Ok(RequestAuthUser(c, d))
  {
    var builder := new RequestAuthUserBuilder.Create(None);
    builder.Id(a);
    builder.Email(b);
    builder.Id(c);
    builder.Email(d);
    r := builder.Build();
  }
}
