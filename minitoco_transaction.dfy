/** reactclient/src/io_models/MiniTocoTransaction.ts: the transaction record
    and the transfer result, their builders, and their JSON renderings,
    which write amounts as decimal strings. */
module MiniTocoTransactions {
  import opened Wrappers
  import opened TsUtil
  import opened Common
  import Text

  datatype MiniTocoTransaction = MiniTocoTransaction(
    id: string, amount: int, from_user_id: UserId, to_user_id: UserId, date: Timestamp)

  datatype MiniTocoTransactionResult = MiniTocoTransactionResult(transaction: MiniTocoTransaction, final_balance: int)

  datatype TransactionJson = TransactionJson(
    id: string, amount: string, from_user_id: UserId, to_user_id: UserId, date: Timestamp)

  datatype TransactionResultJson = TransactionResultJson(transaction: MiniTocoTransaction, final_balance: string)

  /** `MiniTocoTransaction.toJSON()`: the amount as its decimal string,
      which reads back as the same amount; every other field unchanged. */
  function TransactionToJson(t: MiniTocoTransaction): (j: TransactionJson)
    ensures Text.ParseBigInt(j.amount) == Some(t.amount)
    ensures j.id == t.id && j.from_user_id == t.from_user_id && j.to_user_id == t.to_user_id && j.date == t.date
  {
    Text.DecimalRoundTrip(t.amount);
    TransactionJson(t.id, Text.DecimalString(t.amount), t.from_user_id, t.to_user_id, t.date)
  }

  /** `MiniTocoTransactionResult.toJSON()`: the final balance as its decimal
      string; the transaction is left to its own `toJSON`. */
  function ResultToJson(r: MiniTocoTransactionResult): (j: TransactionResultJson)
    ensures Text.ParseBigInt(j.final_balance) == Some(r.final_balance)
    ensures j.transaction == r.transaction
  {
    Text.DecimalRoundTrip(r.final_balance);
    TransactionResultJson(r.transaction, Text.DecimalString(r.final_balance))
  }

  /** The rendering is injective: two transactions with the same JSON are equal. */
  lemma TransactionJsonInjective(a: MiniTocoTransaction, b: MiniTocoTransaction)
    requires TransactionToJson(a) == TransactionToJson(b)
    ensures a == b
  {
    Text.DecimalStringInjective(a.amount, b.amount);
  }

  class MiniTocoTransactionBuilder {
    var id: Option<string>
    var amount: Option<int>
    var from_user_id: Option<UserId>
    var to_user_id: Option<UserId>
    var date: Option<Timestamp>

    /** `MiniTocoTransactionBuilder.create(from?)`. */
    constructor Create(from: Option<MiniTocoTransaction>)
      ensures from.None? ==> id.None? && amount.None? && from_user_id.None? && to_user_id.None? && date.None?
      ensures from.Some? ==> id == Some(from.value.id) && amount == Some(from.value.amount)
      ensures from.Some? ==> from_user_id == Some(from.value.from_user_id) && to_user_id == Some(from.value.to_user_id)
      ensures from.Some? ==> date == Some(from.value.date)
    {
      id, amount, from_user_id, to_user_id, date := None, None, None, None, None;
      if from.Some? {
        var t := from.value;
        id, amount, from_user_id, to_user_id, date := Some(t.id), Some(t.amount), Some(t.from_user_id), Some(t.to_user_id), Some(t.date);
      }
    }

    method Id(v: string)
      modifies this
      ensures id == Some(v) && amount == old(amount) && from_user_id == old(from_user_id)
      ensures to_user_id == old(to_user_id) && date == old(date)
    {
      id := Some(v);
    }

    method Amount(v: int)
      modifies this
      ensures amount == Some(v) && id == old(id) && from_user_id == old(from_user_id)
      ensures to_user_id == old(to_user_id) && date == old(date)
    {
      amount := Some(v);
    }

    method FromUserId(v: UserId)
      modifies this
      ensures from_user_id == Some(v) && id == old(id) && amount == old(amount)
      ensures to_user_id == old(to_user_id) && date == old(date)
    {
      from_user_id := Some(v);
    }

    method ToUserId(v: UserId)
      modifies this
      ensures to_user_id == Some(v) && id == old(id) && amount == old(amount)
      ensures from_user_id == old(from_user_id) && date == old(date)
    {
      to_user_id := Some(v);
    }

    method Date(v: Timestamp)
      modifies this
      ensures date == Some(v) && id == old(id) && amount == old(amount)
      ensures from_user_id == old(from_user_id) && to_user_id == old(to_user_id)
    {
      date := Some(v);
    }

    /** `build()`: throws for the first unset field, in the order id, amount,
        from_user_id, to_user_id, date; succeeds exactly when all five are set. */
    function Build(): (r: Result<MiniTocoTransaction, JsError>)
      reads this
      ensures r.Ok? <==> id.Some? && amount.Some? && from_user_id.Some? && to_user_id.Some? && date.Some?
      ensures r.Ok? ==> r.value == MiniTocoTransaction(id.value, amount.value, from_user_id.value, to_user_id.value, date.value)
      ensures id.None? ==> r == Err(UndefinedError("id"))
      ensures id.Some? && amount.None? ==> r == Err(UndefinedError("amount"))
      ensures id.Some? && amount.Some? && from_user_id.None? ==> r == Err(UndefinedError("from_user_id"))
      ensures id.Some? && amount.Some? && from_user_id.Some? && to_user_id.None? ==> r == Err(UndefinedError("to_user_id"))
      ensures id.Some? && amount.Some? && from_user_id.Some? && to_user_id.Some? && date.None? ==> r == Err(UndefinedError("date"))
    {
      match Required(id, "id")
      case Err(e) => Err(e)
      case Ok(i) =>
        match Required(amount, "amount")
        case Err(e) => Err(e)
        case Ok(a) =>
          match Required(from_user_id, "from_user_id")
          case Err(e) => Err(e)
          case Ok(f) =>
            match Required(to_user_id, "to_user_id")
            case Err(e) => Err(e)
            case Ok(t) =>
              match Required(date, "date")
              case Err(e) => Err(e)
              case Ok(d) => Ok(MiniTocoTransaction(i, a, f, t, d))
    }
  }

  /** `MiniTocoTransactionBuilder.create(t).build()` equals `t`. */
  method TransactionRoundTrip(t: MiniTocoTransaction) returns (r: Result<MiniTocoTransaction, JsError>)
    ensures r == Ok(t)
  {
    var b := new MiniTocoTransactionBuilder.Create(Some(t));
    r := b.Build();
  }

  /** A setter called twice keeps the later value. */
  method LaterSetterWins(t: MiniTocoTransaction, first: int) returns (r: Result<MiniTocoTransaction, JsError>)
    ensures r == Ok(t)
  {
    var b := new MiniTocoTransactionBuilder.Create(None);
    b.Amount(first);
    b.Id(t.id);
    b.FromUserId(t.from_user_id);
    b.ToUserId(t.to_user_id);
    b.Date(t.date);
    b.Amount(t.amount);
    r := b.Build();
  }

  class MiniTocoTransactionResultBuilder {
    var transaction: Option<MiniTocoTransaction>
    var final_balance: Option<int>

    /** `MiniTocoTransactionResultBuilder.create(from?)`: the transaction is
        copied through its own builder. */
    constructor Create(from: Option<MiniTocoTransactionResult>)
      ensures from.None? ==> transaction.None? && final_balance.None?
      ensures from.Some? ==> transaction == Some(from.value.transaction) && final_balance == Some(from.value.final_balance)
    {
      transaction, final_balance := None, None;
      if from.Some? {
        var copy := TransactionRoundTrip(from.value.transaction);
        transaction := Some(copy.value);
        final_balance := Some(from.value.final_balance);
      }
    }

    method Transaction(t: MiniTocoTransaction)
      modifies this
      ensures transaction == Some(t) && final_balance == old(final_balance)
    {
      transaction := Some(t);
    }

    method FinalBalance(b: int)
      modifies this
      ensures final_balance == Some(b) && transaction == old(transaction)
    {
      final_balance := Some(b);
    }

    /** `build()`: throws unless both the transaction and the final balance are set. */
    function Build(): (r: Result<MiniTocoTransactionResult, JsError>)
      reads this
      ensures r.Ok? <==> transaction.Some? && final_balance.Some?
      ensures r.Ok? ==> r.value == MiniTocoTransactionResult(transaction.value, final_balance.value)
      ensures transaction.None? ==> r == Err(UndefinedError("transaction"))
      ensures transaction.Some? && final_balance.None? ==> r == Err(UndefinedError("final_balance"))
    {
      match Required(transaction, "transaction")
      case Err(e) => Err(e)
      case Ok(t) =>
        match Required(final_balance, "final_balance")
        case Err(e) => Err(e)
        case Ok(b) => Ok(MiniTocoTransactionResult(t, b))
    }
  }

  /** `MiniTocoTransactionResultBuilder.create(r).build()` reproduces `r`. */
  method ResultRoundTrip(res: MiniTocoTransactionResult) returns (r: Result<MiniTocoTransactionResult, JsError>)
    ensures r == Ok(res)
  {
    var b := new MiniTocoTransactionResultBuilder.Create(Some(res));
    r := b.Build();
  }
}
