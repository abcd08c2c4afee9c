/** src/routes/user_routes.ts and src/routes/transaction_routes.ts: the rules
    the earlier revision attaches to its endpoints, beyond those it shares
    with the current server. */
module EarlyRoutes {
  import opened RouteValidators
  import CreateTokenRequests
  import ServerRoutes

  /** `POST /users/tokenrefresh` in the earlier revision: `refresh_token`
      must pass the email check and `grant_type` must be "password". */
  function RefreshFailures(refresh_token: string, refresh_token_ok: bool, grant_type: string): (r: seq<Failure>)
    ensures r == [] <==> refresh_token_ok && grant_type == "password"
  {
    BodyCheck(refresh_token_ok, "refresh_token", refresh_token, InvalidValue)
    + BodyCheck(grant_type == "password", "grant_type", grant_type, InvalidValue)
  }

  /** A refresh request as its own io_model builds it (grant type
      "refresh_token") never passes the earlier rules, and passes the
      current ones exactly when its token is not empty. */
  lemma RefreshRequestsAgainstBothRevisions(req: CreateTokenRequests.CreateTokenWithRefreshTokenRequest, token_ok: bool)
    ensures RefreshFailures(req.refresh_token, token_ok, req.grant_type) != []
    ensures ServerRoutes.RefreshFailures(req.refresh_token, req.grant_type) == [] <==> req.refresh_token != ""
  {
    assert req.grant_type[0] != "password"[0];
  }

  /** `POST /transactions` in the earlier revision: an email address and a
      positive amount, and no self-send check. */
  function CreateTransactionFailures(to_user_email: string, email_ok: bool, amount: string): (r: seq<Failure>)
    ensures r == [] <==> email_ok && AmountValid(amount)
  {
    BodyCheck(email_ok, "to_user_email", to_user_email, ServerRoutes.EmailMessage) + AmountFailures(amount)
  }

  /** The earlier rules do not depend on who asks: the same body passes or
      fails for every requester, a request to oneself included, and every
      body the current server accepts the earlier one accepts too. */
  lemma EarlyRulesIgnoreRequester(email_ok: bool, requester_email: string, to_user_email: string, amount: string)
    ensures ServerRoutes.CreateTransactionFailuresAsWritten(email_ok, requester_email, to_user_email, amount) == [] ==>
            CreateTransactionFailures(to_user_email, email_ok, amount) == []
    ensures CreateTransactionFailures(to_user_email, email_ok, amount) == [] ==>
            ServerRoutes.CreateTransactionFailuresAsWritten(email_ok, to_user_email, to_user_email, amount) != []
  {
  }
}
