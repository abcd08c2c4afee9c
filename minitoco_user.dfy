/** src/io_models/MiniTocoUser.ts: the user to create, the stored user and
    their builders; the user's JSON rendering leaves out the password hash. */
module MiniTocoUsers {
  import opened Wrappers
  import opened TsUtil
  import opened Common

  datatype MiniTocoUserToCreate = MiniTocoUserToCreate(email: string, first_name: string, last_name: string, password: string)

  datatype MiniTocoUser = MiniTocoUser(
    id: UserId, pw_hash: string, email: string, first_name: string, last_name: string,
    created_at: Timestamp, updated_at: Timestamp)

  datatype UserJson = UserJson(
    id: UserId, email: string, first_name: string, last_name: string, created_at: Timestamp, updated_at: Timestamp)

  /** `toJSON()`: the six fields other than the password hash, unchanged. */
  function UserToJson(u: MiniTocoUser): (j: UserJson)
    ensures j.id == u.id && j.email == u.email && j.first_name == u.first_name && j.last_name == u.last_name
    ensures j.created_at == u.created_at && j.updated_at == u.updated_at
  {
    UserJson(u.id, u.email, u.first_name, u.last_name, u.created_at, u.updated_at)
  }

  /** The rendering does not depend on the password hash: users that differ
      only in it render alike, and otherwise the rendering tells them apart. */
  lemma UserJsonHidesOnlyPwHash(u: MiniTocoUser, v: MiniTocoUser)
    ensures UserToJson(u) == UserToJson(v) <==> u.(pw_hash := v.pw_hash) == v
  {
  }

  class MiniTocoUserToCreateBuilder {
    var email: Option<string>
    var first_name: Option<string>
    var last_name: Option<string>
    var password: Option<string>

    /** `MiniTocoUserToCreateBuilder.create(from?)`. */
    constructor Create(from: Option<MiniTocoUserToCreate>)
      ensures from.None? ==> email.None? && first_name.None? && last_name.None? && password.None?
      ensures from.Some? ==> email == Some(from.value.email) && first_name == Some(from.value.first_name)
      ensures from.Some? ==> last_name == Some(from.value.last_name) && password == Some(from.value.password)
    {
      email, first_name, last_name, password := None, None, None, None;
      if from.Some? {
        var u := from.value;
        email, first_name, last_name, password := Some(u.email), Some(u.first_name), Some(u.last_name), Some(u.password);
      }
    }

    method Email(v: string)
      modifies this
      ensures email == Some(v) && first_name == old(first_name) && last_name == old(last_name) && password == old(password)
    {
      email := Some(v);
    }

    method FirstName(v: string)
      modifies this
      ensures first_name == Some(v) && email == old(email) && last_name == old(last_name) && password == old(password)
    {
      first_name := Some(v);
    }

    method LastName(v: string)
      modifies this
      ensures last_name == Some(v) && email == old(email) && first_name == old(first_name) && password == old(password)
    {
      last_name := Some(v);
    }

    method Password(v: string)
      modifies this
      ensures password == Some(v) && email == old(email) && first_name == old(first_name) && last_name == old(last_name)
    {
      password := Some(v);
    }

    /** `build()`: throws for the first unset field among email, first_name,
        last_name, password; succeeds exactly when all four are set. */
    function Build(): (r: Result<MiniTocoUserToCreate, JsError>)
      reads this
      ensures r.Ok? <==> email.Some? && first_name.Some? && last_name.Some? && password.Some?
      ensures r.Ok? ==> r.value == MiniTocoUserToCreate(email.value, first_name.value, last_name.value, password.value)
      ensures email.None? ==> r == Err(UndefinedError("email"))
      ensures email.Some? && first_name.None? ==> r == Err(UndefinedError("first_name"))
      ensures email.Some? && first_name.Some? && last_name.None? ==> r == Err(UndefinedError("last_name"))
      ensures email.Some? && first_name.Some? && last_name.Some? && password.None? ==> r == Err(UndefinedError("password"))
    {
      match Required(email, "email")
      case Err(e) => Err(e)
      case Ok(em) =>
        match Required(first_name, "first_name")
        case Err(e) => Err(e)
        case Ok(f) =>
          match Required(last_name, "last_name")
          case Err(e) => Err(e)
          case Ok(l) =>
            match Required(password, "password")
            case Err(e) => Err(e)
            case Ok(p) => Ok(MiniTocoUserToCreate(em, f, l, p))
    }
  }

  /** `MiniTocoUserToCreateBuilder.create(x).build()` equals `x`. */
  method UserToCreateRoundTrip(x: MiniTocoUserToCreate) returns (r: Result<MiniTocoUserToCreate, JsError>)
    ensures r == Ok(x)
  {
    var b := new MiniTocoUserToCreateBuilder.Create(Some(x));
    r := b.Build();
  }

  class MiniTocoUserBuilder {
    var id: Option<UserId>
    var pw_hash: Option<string>
    var email: Option<string>
    var first_name: Option<string>
    var last_name: Option<string>
    var created_at: Option<Timestamp>
    var updated_at: Option<Timestamp>

    /** `MiniTocoUserBuilder.create(from?)`. */
    constructor Create(from: Option<MiniTocoUser>)
      ensures from.None? ==> id.None? && pw_hash.None? && email.None? && first_name.None? && last_name.None?
      ensures from.None? ==> created_at.None? && updated_at.None?
      ensures from.Some? ==> id == Some(from.value.id) && pw_hash == Some(from.value.pw_hash) && email == Some(from.value.email)
      ensures from.Some? ==> first_name == Some(from.value.first_name) && last_name == Some(from.value.last_name)
      ensures from.Some? ==> created_at == Some(from.value.created_at) && updated_at == Some(from.value.updated_at)
    {
      id, pw_hash, email, first_name, last_name, created_at, updated_at := None, None, None, None, None, None, None;
      if from.Some? {
        var u := from.value;
        id, pw_hash, email := Some(u.id), Some(u.pw_hash), Some(u.email);
        first_name, last_name := Some(u.first_name), Some(u.last_name);
        created_at, updated_at := Some(u.created_at), Some(u.updated_at);
      }
    }

    /** The seven setters, one per field; each leaves the other six alone. */
    method Id(v: UserId)
      modifies this
      ensures id == Some(v) && pw_hash == old(pw_hash) && email == old(email) && first_name == old(first_name)
      ensures last_name == old(last_name) && created_at == old(created_at) && updated_at == old(updated_at)
    {
      id := Some(v);
    }

    method PwHash(v: string)
      modifies this
      ensures pw_hash == Some(v) && id == old(id) && email == old(email) && first_name == old(first_name)
      ensures last_name == old(last_name) && created_at == old(created_at) && updated_at == old(updated_at)
    {
      pw_hash := Some(v);
    }

    method Email(v: string)
      modifies this
      ensures email == Some(v) && id == old(id) && pw_hash == old(pw_hash) && first_name == old(first_name)
      ensures last_name == old(last_name) && created_at == old(created_at) && updated_at == old(updated_at)
    {
      email := Some(v);
    }

    method FirstName(v: string)
      modifies this
      ensures first_name == Some(v) && id == old(id) && pw_hash == old(pw_hash) && email == old(email)
      ensures last_name == old(last_name) && created_at == old(created_at) && updated_at == old(updated_at)
    {
      first_name := Some(v);
    }

    method LastName(v: string)
      modifies this
      ensures last_name == Some(v) && id == old(id) && pw_hash == old(pw_hash) && email == old(email)
      ensures first_name == old(first_name) && created_at == old(created_at) && updated_at == old(updated_at)
    {
      last_name := Some(v);
    }

    method CreatedAt(v: Timestamp)
      modifies this
      ensures created_at == Some(v) && id == old(id) && pw_hash == old(pw_hash) && email == old(email)
      ensures first_name == old(first_name) && last_name == old(last_name) && updated_at == old(updated_at)
    {
      created_at := Some(v);
    }

    method UpdatedAt(v: Timestamp)
      modifies this
      ensures updated_at == Some(v) && id == old(id) && pw_hash == old(pw_hash) && email == old(email)
      ensures first_name == old(first_name) && last_name == old(last_name) && created_at == old(created_at)
    {
      updated_at := Some(v);
    }

    predicate Complete()
      reads this
    {
      id.Some? && pw_hash.Some? && email.Some? && first_name.Some? && last_name.Some? && created_at.Some? && updated_at.Some?
    }

    /** `build()`: throws for the first unset field in the order id, pw_hash,
        email, first_name, last_name, created_at, updated_at; succeeds exactly
        when all seven are set. */
    function Build(): (r: Result<MiniTocoUser, JsError>)
      reads this
      ensures r.Ok? <==> Complete()
      ensures r.Ok? ==> r.value == MiniTocoUser(id.value, pw_hash.value, email.value, first_name.value, last_name.value,
                                                created_at.value, updated_at.value)
      ensures id.None? ==> r == Err(UndefinedError("id"))
      ensures id.Some? && pw_hash.None? ==> r == Err(UndefinedError("pw_hash"))
      ensures id.Some? && pw_hash.Some? && email.None? ==> r == Err(UndefinedError("email"))
      ensures id.Some? && pw_hash.Some? && email.Some? && first_name.None? ==> r == Err(UndefinedError("first_name"))
      ensures id.Some? && pw_hash.Some? && email.Some? && first_name.Some? && last_name.None? ==> r == Err(UndefinedError("last_name"))
      ensures (id.Some? && pw_hash.Some? && email.Some? && first_name.Some? && last_name.Some? && created_at.None?)
              ==> r == Err(UndefinedError("created_at"))
      ensures (id.Some? && pw_hash.Some? && email.Some? && first_name.Some? && last_name.Some? && created_at.Some?
               && updated_at.None?) ==> r == Err(UndefinedError("updated_at"))
    {
      match Required(id, "id")
      case Err(e) => Err(e)
      case Ok(i) =>
        match Required(pw_hash, "pw_hash")
        case Err(e) => Err(e)
        case Ok(h) =>
          match Required(email, "email")
          case Err(e) => Err(e)
          case Ok(em) =>
            match Required(first_name, "first_name")
            case Err(e) => Err(e)
            case Ok(f) =>
              match Required(last_name, "last_name")
              case Err(e) => Err(e)
              case Ok(l) =>
                match Required(created_at, "created_at")
                case Err(e) => Err(e)
                case Ok(c) =>
                  match Required(updated_at, "updated_at")
                  case Err(e) => Err(e)
                  case Ok(u) => Ok(MiniTocoUser(i, h, em, f, l, c, u))
    }
  }

  /** `MiniTocoUserBuilder.create(u).build()` equals `u`. */
  method UserRoundTrip(u: MiniTocoUser) returns (r: Result<MiniTocoUser, JsError>)
    ensures r == Ok(u)
  {
    var b := new MiniTocoUserBuilder.Create(Some(u));
    r := b.Build();
  }
}
