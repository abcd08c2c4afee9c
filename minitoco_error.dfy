/** src/io_models/MiniTocoError.ts: the error record sent to clients, its
    canned instances, the `{ errors: [...] }` body and its builder. */
module MiniTocoErrors {
  import opened Wrappers
  import opened TsUtil

  datatype MiniTocoError = MiniTocoError(value: string, msg: string, param: Option<string>, location: Option<string>)

  /** `loginRequired(token?)`: `token || ""` as the value, on the
      Authorization header. */
  function LoginRequired(token: Option<string>): (e: MiniTocoError)
    ensures e.value == (if token.Some? then token.value else "")
    ensures e.msg == "authentication required"
    ensures e.param == Some("Authorization") && e.location == Some("header")
  {
    MiniTocoError(token.GetOr(""), "authentication required", Some("Authorization"), Some("header"))
  }

  /** `internalServer()`: no value, no parameter and no location. */
  function InternalServer(): (e: MiniTocoError)
    ensures e.value == "" && e.msg == "Internal ServerError"
    ensures e.param.None? && e.location.None?
  {
    MiniTocoError("", "Internal ServerError", None, None)
  }

  /** `errorsBody(initial_error, ...errors)`: fills a fresh array of
      `errors.length + 1` slots, the initial error first and then the others
      in order. */
  method ErrorsBody(initial: MiniTocoError, errors: seq<MiniTocoError>) returns (body: seq<MiniTocoError>)
    ensures |body| == |errors| + 1
    ensures body[0] == initial
    ensures body[1..] == errors
  {
    var actual := new MiniTocoError[|errors| + 1](_ => initial);
    actual[0] := initial;
    for index := 0 to |errors|
      invariant actual[0] == initial
      invariant forall k | 0 <= k < index :: actual[k + 1] == errors[k]
    {
      actual[index + 1] := errors[index];
    }
    body := actual[..];
    assert body[1..] == errors by {
      assert forall k | 0 <= k < |errors| :: body[1..][k] == actual[k + 1];
    }
  }

  class MiniTocoErrorBuilder {
    var value: Option<string>
    var msg: Option<string>
    var param: Option<string>
    var location: Option<string>

    /** `MiniTocoErrorBuilder.create(from?)`: empty, or copying all four
        fields of `from` (an absent param or location stays absent). */
    constructor Create(from: Option<MiniTocoError>)
      ensures from.None? ==> value.None? && msg.None? && param.None? && location.None?
      ensures from.Some? ==> value == Some(from.value.value) && msg == Some(from.value.msg)
      ensures from.Some? ==> param == from.value.param && location == from.value.location
    {
      value, msg, param, location := None, None, None, None;
      if from.Some? {
        value := Some(from.value.value);
        msg := Some(from.value.msg);
        param := from.value.param;
        location := from.value.location;
      }
    }

    /** `ofBody`, `ofQuery`, `ofHeader`: a fresh builder whose location is
        the given place and whose param is the given name. */
    static method Of(place: string, name: string) returns (b: MiniTocoErrorBuilder)
      ensures fresh(b)
      ensures b.location == Some(place) && b.param == Some(name)
      ensures b.value.None? && b.msg.None?
    {
      b := new MiniTocoErrorBuilder.Create(None);
      b.Location(Some(place));
      b.Param(Some(name));
    }

    static method OfBody(fieldName: string) returns (b: MiniTocoErrorBuilder)
      ensures fresh(b)
      ensures b.location == Some("body") && b.param == Some(fieldName)
      ensures b.value.None? && b.msg.None?
    {
      b := Of("body", fieldName);
    }

    static method OfQuery(queryParameterName: string) returns (b: MiniTocoErrorBuilder)
      ensures fresh(b)
      ensures b.location == Some("query") && b.param == Some(queryParameterName)
      ensures b.value.None? && b.msg.None?
    {
      b := Of("query", queryParameterName);
    }

    static method OfHeader(headerName: string) returns (b: MiniTocoErrorBuilder)
      ensures fresh(b)
      ensures b.location == Some("header") && b.param == Some(headerName)
      ensures b.value.None? && b.msg.None?
    {
      b := Of("header", headerName);
    }

    method Value(v: string)
      modifies this
      ensures value == Some(v) && msg == old(msg) && param == old(param) && location == old(location)
    {
      value := Some(v);
    }

    method Msg(m: string)
      modifies this
      ensures msg == Some(m) && value == old(value) && param == old(param) && location == old(location)
    {
      msg := Some(m);
    }

    method Param(p: Option<string>)
      modifies this
      ensures param == p && value == old(value) && msg == old(msg) && location == old(location)
    {
      param := p;
    }

    method Location(l: Option<string>)
      modifies this
      ensures location == l && value == old(value) && msg == old(msg) && param == old(param)
    {
      location := l;
    }

    /** `build()`: throws unless value and msg are set, value checked first;
        param and location may be absent. */
    function Build(): (r: Result<MiniTocoError, JsError>)
      reads this
      ensures r.Ok? <==> value.Some? && msg.Some?
      ensures r.Ok? ==> r.value == MiniTocoError(value.value, msg.value, param, location)
      ensures value.None? ==> r == Err(UndefinedError("value"))
      ensures value.Some? && msg.None? ==> r == Err(UndefinedError("msg"))
    {
      match Required(value, "value")
      case Err(e) => Err(e)
      case Ok(v) =>
        match Required(msg, "msg")
        case Err(e) => Err(e)
        case Ok(m) => Ok(MiniTocoError(v, m, param, location))
    }
  }

  /** `MiniTocoErrorBuilder.create(e).build()` reproduces `e`. */
  method CreateBuildRoundTrip(e: MiniTocoError) returns (r: Result<MiniTocoError, JsError>)
    ensures r == Ok(e)
  {
    var b := new MiniTocoErrorBuilder.Create(Some(e));
    r := b.Build();
  }

  /** The chain the controllers use: `ofBody(field).msg(m).value(v).build()`. */
  method BodyError(field: string, m: string, v: string) returns (e: MiniTocoError)
    ensures e == MiniTocoError(v, m, Some(field), Some("body"))
  {
    var b := MiniTocoErrorBuilder.OfBody(field);
    b.Msg(m);
    b.Value(v);
    var r := b.Build();
    e := r.value;
  }
}
