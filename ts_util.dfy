/** reactclient/src/utils/ts_util.ts: the `getOrThrow` guard that every
    builder's `build()` uses on its optional fields. */
module TsUtil {
  import opened Wrappers

  /** A TypeScript `T | null | undefined`. */
  datatype Nullable<T> = Null | Undefined | Present(value: T)

  /** The `Error` that `getOrThrow` throws; only its message is observable. */
  datatype JsError = JsError(message: string)

  /** The messages `getOrThrow` throws with. */
  function NullError(refName: string): JsError { JsError(refName + " may not be null") }
  function UndefinedError(refName: string): JsError { JsError(refName + " may not be undefined") }

  /** An unset optional builder field is `undefined`, a set one is present. */
  function OfOption<T>(o: Option<T>): (n: Nullable<T>)
    ensures n.Present? <==> o.Some?
    ensures o.Some? ==> n.value == o.value
  {
    match o
    case Some(v) => Present(v)
    case None => Undefined
  }

  /** `getOrThrow(ref, ref_name)`: rejects `null` first, then `undefined`,
      otherwise hands back its argument. */
  function GetOrThrow<T>(ref: Nullable<T>, refName: string): (r: Result<T, JsError>)
    ensures ref.Null? ==> r == Err(NullError(refName))
    ensures ref.Undefined? ==> r == Err(UndefinedError(refName))
    ensures ref.Present? ==> r == Ok(ref.value)
  {
    match ref
    case Null => Err(JsError(refName + " may not be null"))
    case Undefined => Err(JsError(refName + " may not be undefined"))
    case Present(v) => Ok(v)
  }

  /** `getOrThrow` never returns `null` or `undefined`: whenever it returns,
      the value was present, and it returns exactly when it was. */
  lemma GetOrThrowNeverNullish<T>(ref: Nullable<T>, refName: string)
    ensures GetOrThrow(ref, refName).Ok? <==> ref.Present?
    ensures GetOrThrow(ref, refName).Ok? ==> ref == Present(GetOrThrow(ref, refName).value)
  {
  }

  /** Applied to an optional builder field, `getOrThrow` succeeds exactly
      when the field was set, and with the value that was set. */
  function Required<T>(field: Option<T>, refName: string): (r: Result<T, JsError>)
    ensures r.Ok? <==> field.Some?
    ensures field.Some? ==> r.value == field.value
    ensures field.None? ==> r == Err(UndefinedError(refName))
  {
    GetOrThrow(OfOption(field), refName)
  }
}
