/**
  The server handlers used together, as a client session uses them:
  register, log in, and send the token back as `Bearer <token>`.
*/
module Session {
  import opened Common
  import opened AuthMiddleware
  import opened ClientRequest
  import opened AuthRoutes
  import opened DietRoutes

  /**
    On empty tables: registering, logging in with the same credentials and
    posting a diet log with the returned token stores the log under the new
    user's id. `sign` and `verify` are the two halves of one JWT secret, and
    signed tokens contain no spaces.
  */
  method RegisterLoginAndLogDiet(
    email: string, password: string,
    hash: string -> string, compare: (string, string) -> bool,
    sign: Claims -> string, verify: Verifier, body: DietBody)
    returns (userId: int, status: Status, log: Option<DietLog>)
    requires email != "" && password != ""
    requires compare(password, hash(password))
    requires forall c :: verify(sign(c)) == Some(c)
    requires forall c :: sign(c) != "" && ' ' !in sign(c)
    requires body.date.Some?
    ensures status == 201 && log.Some?
    ensures log.value == DietLog(userId, body.date.value, body.meals, body.snacks, body.waterIntake)
  {
    var users := new UserStore();
    var registered, id := users.Register(Credentials(Some(email), Some(password)), hash);
    userId := id.value;
    var loggedIn, token := users.Login(Credentials(Some(email), Some(password)), compare, sign);
    assert token == Some(sign(Claims(userId)));
    StoredTokenAuthenticates(token.value, Claims(userId), verify);
    var diet := new DietStore();
    var created;
    status, created := diet.Create(Some(BearerHeader(token)), verify, body);
    log := Some(created.value.1);
  }
}
