/**
  The account handlers (server/routes/authRoutes.js) over the `Users`
  table: register, login and the users listing. Password hashing, the
  hash check and token signing are parameters.
*/
module AuthRoutes {
  import opened Common
  import opened AuthMiddleware

  /** A row of `Users`; `password` holds the bcrypt hash, never the password itself. */
  datatype User = User(email: string, password: string)

  /** The `{ email, password }` body of register and login. */
  datatype Credentials = Credentials(email: Option<string>, password: Option<string>)

  /** A listed account: the two attributes the listing selects. */
  datatype Account = Account(id: int, email: string)

  /** `!value` in JavaScript for an optional string: absent or empty. */
  predicate Blank(value: Option<string>) {
    value.None? || value.value == ""
  }

  /** Some row of `users` has this email. */
  predicate EmailTaken(users: map<int, User>, email: string) {
    exists id :: id in users && users[id].email == email
  }

  /** No two rows share an email, and no stored email is empty. */
  ghost predicate EmailsUnique(users: map<int, User>) {
    && (forall a, b :: a in users && b in users && users[a].email == users[b].email ==> a == b)
    && (forall id :: id in users ==> users[id].email != "")
  }

  class UserStore {
    var users: map<int, User>
    var nextUserId: int

    ghost predicate Valid()
      reads this
    {
      && 1 <= nextUserId
      && (forall id :: id in users ==> 1 <= id < nextUserId)
      && EmailsUnique(users)
    }

    constructor ()
      ensures Valid() && users == map[]
    {
      users := map[];
      nextUserId := 1;
    }

    /**
      POST /auth/register: 400 when email or password is missing or empty,
      409 when the email is in use, otherwise one new user holding the hash
      of the password, answered with 201 and the new id.
    */
    method Register(body: Credentials, hash: string -> string)
      returns (status: Status, userId: Option<int>)
      requires Valid()
      modifies this
      ensures Valid()
      ensures Blank(body.email) || Blank(body.password) ==>
                status == 400 && userId.None? && users == old(users) && nextUserId == old(nextUserId)
      ensures !Blank(body.email) && !Blank(body.password) && old(EmailTaken(users, body.email.value)) ==>
                status == 409 && userId.None? && users == old(users) && nextUserId == old(nextUserId)
      ensures !Blank(body.email) && !Blank(body.password) && !old(EmailTaken(users, body.email.value)) ==>
                && status == 201 && userId.Some? && userId.value !in old(users)
                && users == old(users)[userId.value := User(body.email.value, hash(body.password.value))]
    {
      if Blank(body.email) || Blank(body.password) {
        return 400, None;
      }
      var email, password := body.email.value, body.password.value;
      if EmailTaken(users, email) {
        return 409, None;
      }
      var id := nextUserId;
      RegisterKeepsEmailsUnique(users, id, User(email, hash(password)));
      users := users[id := User(email, hash(password))];
      nextUserId := nextUserId + 1;
      status, userId := 201, Some(id);
    }

    /**
      POST /auth/login: 400 for an unknown email, 401 when `compare` rejects
      the password, otherwise 200 with a token signed over the user's id. A
      missing email or password makes the lookup or the compare throw: 500.
    */
    method Login(body: Credentials, compare: (string, string) -> bool, sign: Claims -> string)
      returns (status: Status, token: Option<string>)
      requires Valid()
      ensures body.email.None? ==> status == 500 && token.None?
      ensures body.email.Some? && !EmailTaken(users, body.email.value) ==> status == 400 && token.None?
      ensures body.email.Some? && EmailTaken(users, body.email.value) ==>
                exists id :: id in users && users[id].email == body.email.value &&
                  if body.password.None? then status == 500 && token.None?
                  else if !compare(body.password.value, users[id].password) then status == 401 && token.None?
                  else status == 200 && token == Some(sign(Claims(id)))
    {
      if body.email.None? {
        return 500, None;
      }
      var email := body.email.value;
      if !EmailTaken(users, email) {
        return 400, None;
      }
      var id :| id in users && users[id].email == email;
      if body.password.None? {
        return 500, None;
      }
      if !compare(body.password.value, users[id].password) {
        return 401, None;
      }
      status, token := 200, Some(sign(Claims(id)));
    }

    /** GET /auth/users: one entry per user with its id and email, and no password hash. */
    method ListUsers() returns (status: Status, accounts: map<int, Account>)
      ensures status == 200
      ensures accounts.Keys == users.Keys
      ensures forall id :: id in accounts ==> accounts[id] == Account(id, users[id].email)
    {
      accounts := map id | id in users :: Account(id, users[id].email);
      status := 200;
    }
  }

  /** Registering a fresh email keeps emails unique and non-empty. */
  lemma {:induction false} RegisterKeepsEmailsUnique(users: map<int, User>, id: int, user: User)
    requires EmailsUnique(users)
    requires id !in users && user.email != ""
    requires !EmailTaken(users, user.email)
    ensures EmailsUnique(users[id := user])
  {
    assert forall other :: other in users ==> users[other].email != user.email;
  }
}
