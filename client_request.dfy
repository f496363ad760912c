/**
  The `Authorization` header the client screens attach to their requests:
  `Bearer ${token}`, where the token read from secure storage may be null.
*/
module ClientRequest {
  import opened Common
  import opened AuthMiddleware

  /** `Bearer ${token}`; a template literal renders a missing token as the text `null`. */
  function BearerHeader(token: Option<string>): string {
    "Bearer " + token.GetOr("null")
  }

  /** A stored token the server signed reaches the middleware intact and authenticates as its claims. */
  lemma StoredTokenAuthenticates(token: string, claims: Claims, verify: Verifier)
    requires token != "" && ' ' !in token
    requires verify(token) == Some(claims)
    ensures Authenticate(Some(BearerHeader(Some(token))), verify) == Authenticated(claims)
  {
    BearerTokenAuthenticates(token, claims, verify);
  }

  /** Without a stored token the middleware receives the token `null` and answers as `verify` judges it. */
  lemma MissingTokenSendsNull(verify: Verifier)
    ensures ExtractToken(Some(BearerHeader(None))) == Some("null")
    ensures verify("null").None? ==> Authenticate(Some(BearerHeader(None)), verify) == InvalidToken
  {
    TokenOfWordAndToken("Bearer", "null");
    assert BearerHeader(None) == "Bearer" + " " + "null";
  }
}
