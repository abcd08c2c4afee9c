/** src/io_models/MiniTocoBalance.ts: a balance at a point in time, its
    builder, and its JSON rendering with the value as a decimal string. */
module MiniTocoBalances {
  import opened Wrappers
  import opened TsUtil
  import opened Common
  import Text

  datatype MiniTocoBalance = MiniTocoBalance(value: int, updated_at: Timestamp)

  datatype BalanceJson = BalanceJson(value: string, updated_at: Timestamp)

  /** `toJSON()`: the value as its decimal string, which reads back as the
      same value; the timestamp unchanged. */
  function BalanceToJson(b: MiniTocoBalance): (j: BalanceJson)
    ensures Text.ParseBigInt(j.value) == Some(b.value)
    ensures j.updated_at == b.updated_at
  {
    Text.DecimalRoundTrip(b.value);
    BalanceJson(Text.DecimalString(b.value), b.updated_at)
  }

  class MiniTocoBalanceBuilder {
    var value: Option<int>
    var updated_at: Option<Timestamp>

    /** `MiniTocoBalanceBuilder.create(from?)`. */
    constructor Create(from: Option<MiniTocoBalance>)
      ensures from.None? ==> value.None? && updated_at.None?
      ensures from.Some? ==> value == Some(from.value.value) && updated_at == Some(from.value.updated_at)
    {
      value, updated_at := None, None;
      if from.Some? {
        value, updated_at := Some(from.value.value), Some(from.value.updated_at);
      }
    }

    method Value(v: int)
      modifies this
      ensures value == Some(v) && updated_at == old(updated_at)
    {
      value := Some(v);
    }

    method UpdatedAt(t: Timestamp)
      modifies this
      ensures updated_at == Some(t) && value == old(value)
    {
      updated_at := Some(t);
    }

    /** `build()`: throws unless value and updated_at are set, value first. */
    function Build(): (r: Result<MiniTocoBalance, JsError>)
      reads this
      ensures r.Ok? <==> value.Some? && updated_at.Some?
      ensures r.Ok? ==> r.value == MiniTocoBalance(value.value, updated_at.value)
      ensures value.None? ==> r == Err(UndefinedError("value"))
      ensures value.Some? && updated_at.None? ==> r == Err(UndefinedError("updated_at"))
    {
      match Required(value, "value")
      case Err(e) => Err(e)
      case Ok(v) =>
        match Required(updated_at, "updated_at")
        case Err(e) => Err(e)
        case Ok(t) => Ok(MiniTocoBalance(v, t))
    }
  }

  /** `b.newBuilder().build()`, that is `MiniTocoBalanceBuilder.create(b).build()`,
      equals `b`. */
  method NewBuilderRoundTrip(b: MiniTocoBalance) returns (r: Result<MiniTocoBalance, JsError>)
    ensures r == Ok(b)
  {
    var builder := new MiniTocoBalanceBuilder.Create(Some(b));
    r := builder.Build();
  }
}
