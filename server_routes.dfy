/** server/src/routes/user_routes.ts and server/src/routes/transaction_routes.ts:
    the rules the current server attaches to its endpoints, beyond those it
    shares with the earlier revision. */
module ServerRoutes {
  import opened RouteValidators
  import Text

  /** `POST /users/tokenrefresh`: a non-empty `refresh_token` and a
      `grant_type` of exactly "refresh_token". */
  function RefreshFailures(refresh_token: string, grant_type: string): (r: seq<Failure>)
    ensures r == [] <==> refresh_token != "" && grant_type == "refresh_token"
  {
    BodyCheck(refresh_token != "", "refresh_token", refresh_token, InvalidValue)
    + BodyCheck(grant_type == "refresh_token", "grant_type", grant_type, InvalidValue)
  }

  /** `GET /users/:user_id`: the path parameter must be a UUID; a failure
      is reported against the path, not the body. */
  function FetchUserFailures(user_id: string, user_id_ok: bool): (r: seq<Failure>)
    ensures r == [] <==> user_id_ok
    ensures !user_id_ok ==> r == [Failure(user_id, InvalidValue, "user_id", "params")]
  {
    Check(user_id_ok, "params", "user_id", user_id, InvalidValue)
  }

  const EmailMessage := "to_user_email must be a valid email address"
  const SelfMessage := "cannot send to self"

  /** `POST /transactions` as written: `to_user_email` must be an email
      address and differ, as a string, from the requester's email; `amount`
      must be a positive integer. */
  function CreateTransactionFailuresAsWritten(
    email_ok: bool, requester_email: string, to_user_email: string, amount: string)
    : (r: seq<Failure>)
    ensures r == [] <==> email_ok && requester_email != to_user_email && AmountValid(amount)
  {
    BodyCheck(email_ok, "to_user_email", to_user_email, EmailMessage)
    + BodyCheck(requester_email != to_user_email, "to_user_email", to_user_email, SelfMessage)
    + AmountFailures(amount)
  }

  /** The self-send check as written lets through a receiver address that
      differs from the requester's only in the case of its letters, although
      the user service treats the two as the same address. */
  lemma SelfSendCheckIgnoresCase()
    ensures Text.ToLower("Al@x.io") == "al@x.io"
    ensures CreateTransactionFailuresAsWritten(true, "al@x.io", "Al@x.io", "1") == []
  {
    var upper, lower := "Al@x.io", "al@x.io";
    var l := Text.ToLower(upper);
    assert |l| == |lower|;
    forall i | 0 <= i < |l| ensures l[i] == lower[i] {
      assert l[i] == Text.LowerChar(upper[i]);
    }
    assert Text.DigitsValue("1", 10) == 1 by { assert "1"[..0] == ""; }
    assert lower[0] != upper[0];
  }

  /** `POST /transactions` with the self-send check comparing addresses the
      way the user service stores and finds them, lower-cased. */
  function CreateTransactionFailures(email_ok: bool, requester_email: string, to_user_email: string, amount: string)
    : (r: seq<Failure>)
    ensures r == [] <==> email_ok && Text.ToLower(requester_email) != Text.ToLower(to_user_email) && AmountValid(amount)
  {
    BodyCheck(email_ok, "to_user_email", to_user_email, EmailMessage)
    + BodyCheck(Text.ToLower(requester_email) != Text.ToLower(to_user_email), "to_user_email", to_user_email, SelfMessage)
    + AmountFailures(amount)
  }

  /** The corrected check rejects everything the check as written rejects. */
  lemma CorrectedCheckIsStricter(email_ok: bool, requester_email: string, to_user_email: string, amount: string)
    ensures CreateTransactionFailures(email_ok, requester_email, to_user_email, amount) == [] ==>
            CreateTransactionFailuresAsWritten(email_ok, requester_email, to_user_email, amount) == []
  {
  }
}
