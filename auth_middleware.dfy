/**
  The `authenticateToken` middleware (server/middleware/authMiddleware.js):
  take the second space-separated field of the Authorization header as the
  token, answer 401 when there is none, 403 when the verifier rejects it,
  and otherwise set `req.user` to the decoded claims and call `next`.
*/
module AuthMiddleware {
  import opened Common

  /** The decoded payload of a token, as `jwt.sign({ userId })` writes it. */
  datatype Claims = Claims(userId: int)

  /**
    `jwt.verify(token, JWT_SECRET)`: the claims of a token signed with the
    server's secret, or None when it throws (bad signature, malformed token).
  */
  type Verifier = string -> Option<Claims>

  /** The outcome of the middleware. */
  datatype AuthResult = NoToken | InvalidToken | Authenticated(user: Claims) {

    /** The status the middleware answers with when it does not call `next`. */
    function Status(): (s: Status)
      requires !Authenticated?
      ensures s == 401 <==> NoToken?
      ensures s == 403 <==> InvalidToken?
    {
      if NoToken? then 401 else 403
    }
  }

  /** `s.split(' ')`: the fields of `s` between single spaces; an empty string has one empty field. */
  function Fields(s: string): (r: seq<string>)
    ensures |r| >= 1
    ensures |r| == 1 <==> ' ' !in s
  {
    if s == [] then [""]
    else if s[0] == ' ' then [""] + Fields(s[1..])
    else
      var rest := Fields(s[1..]);
      [[s[0]] + rest[0]] + rest[1..]
  }

  /** No field of a split holds the separator. */
  lemma {:induction false} FieldsHaveNoSpaces(s: string)
    ensures forall i :: 0 <= i < |Fields(s)| ==> ' ' !in Fields(s)[i]
  {
    if s != [] {
      FieldsHaveNoSpaces(s[1..]);
      var rest := Fields(s[1..]);
      if s[0] != ' ' {
        assert ' ' !in [s[0]] + rest[0];
      }
    }
  }

  /** `fields.join(' ')`. */
  function Join(fields: seq<string>): string
    requires |fields| >= 1
  {
    if |fields| == 1 then fields[0] else fields[0] + " " + Join(fields[1..])
  }

  /** Joining a field in front of at least one more puts a single space between them. */
  lemma JoinCons(field: string, fields: seq<string>)
    requires |fields| >= 1
    ensures Join([field] + fields) == field + " " + Join(fields)
  {
    assert ([field] + fields)[1..] == fields;
  }

  /** A leading space adds an empty first field, which joining turns back into the space. */
  lemma JoinFieldsAfterSpace(s: string)
    requires s != [] && s[0] == ' '
    requires Join(Fields(s[1..])) == s[1..]
    ensures Join(Fields(s)) == s
  {
    JoinCons("", Fields(s[1..]));
    assert s == "" + " " + s[1..];
  }

  /** Prepending a character commutes with appending a space and more text. */
  lemma Regroup(c: char, field: string, tail: string)
    ensures ([c] + field) + " " + tail == [c] + (field + " " + tail)
  {
  }

  /** A leading non-space character is prepended to the first field, and joining keeps it in front. */
  lemma JoinFieldsAfterChar(s: string)
    requires s != [] && s[0] != ' '
    requires Join(Fields(s[1..])) == s[1..]
    ensures Join(Fields(s)) == s
  {
    var rest := Fields(s[1..]);
    var first := [s[0]] + rest[0];
    assert Fields(s) == [first] + rest[1..];
    if |rest| == 1 {
      calc {
        Join(Fields(s));
        { assert Fields(s) == [first]; }
        first;
        [s[0]] + Join(rest);
        [s[0]] + s[1..];
        s;
      }
    } else {
      var tail := Join(rest[1..]);
      calc {
        Join(Fields(s));
        { JoinCons(first, rest[1..]); }
        first + " " + tail;
        { Regroup(s[0], rest[0], tail); }
        [s[0]] + (rest[0] + " " + tail);
        { assert rest == [rest[0]] + rest[1..]; JoinCons(rest[0], rest[1..]); }
        [s[0]] + Join(rest);
        [s[0]] + s[1..];
        s;
      }
    }
  }

  /** Splitting on spaces loses nothing: joining the fields gives the header back. */
  lemma {:induction false} JoinFields(s: string)
    ensures Join(Fields(s)) == s
  {
    if s != [] {
      JoinFields(s[1..]);
      if s[0] == ' ' {
        JoinFieldsAfterSpace(s);
      } else {
        JoinFieldsAfterChar(s);
      }
    }
  }

  /** A word without spaces followed by `rest`: the word's characters are prepended to the first field of `rest`. */
  lemma {:induction false} FieldsOfWord(w: string, rest: string)
    requires ' ' !in w
    ensures Fields(w + rest) == [w + Fields(rest)[0]] + Fields(rest)[1..]
  {
    if w != [] {
      var f := Fields(rest);
      FieldsOfWord(w[1..], rest);
      assert (w + rest)[0] == w[0] && (w + rest)[1..] == w[1..] + rest;
      var tail := Fields(w[1..] + rest);
      assert tail == [w[1..] + f[0]] + f[1..];
      assert Fields(w + rest) == [[w[0]] + tail[0]] + tail[1..];
      assert [w[0]] + (w[1..] + f[0]) == w + f[0];
    } else {
      var f := Fields(rest);
      assert w + rest == rest;
      assert w + f[0] == f[0];
      assert f == [f[0]] + f[1..];
    }
  }

  /** The token the header carries: field 1 of the split header, absent when the header is. */
  function ExtractToken(authorization: Option<string>): (token: Option<string>)
    ensures authorization.None? ==> token.None?
    ensures authorization.Some? ==> (token.None? <==> ' ' !in authorization.value)
    ensures token.Some? ==> ' ' !in token.value
  {
    match authorization
    case None => None
    case Some(header) =>
      var fields := Fields(header);
      FieldsHaveNoSpaces(header);
      if |fields| > 1 then Some(fields[1]) else None
  }

  /** The token is the text after the first space, up to the next space; the first word is not checked. */
  lemma TokenAfterFirstWord(w: string, rest: string)
    requires ' ' !in w
    ensures ExtractToken(Some(w + " " + rest)) == Some(Fields(rest)[0])
  {
    FieldsOfWord(w, " " + rest);
    assert w + " " + rest == w + (" " + rest);
    assert (" " + rest)[1..] == rest;
  }

  /** Any `<word> <t>` with no further spaces yields `t`, whatever the word is. */
  lemma TokenOfWordAndToken(w: string, t: string)
    requires ' ' !in w && ' ' !in t
    ensures ExtractToken(Some(w + " " + t)) == Some(t)
  {
    TokenAfterFirstWord(w, t);
    JoinFields(t);
  }

  /** `jwt` middleware decision: 401 without a non-empty token, 403 when verification fails, the claims otherwise. */
  function Authenticate(authorization: Option<string>, verify: Verifier): (r: AuthResult)
    ensures r.NoToken? <==> ExtractToken(authorization) in {None, Some("")}
    ensures r.InvalidToken? <==>
              ExtractToken(authorization).Some? && ExtractToken(authorization) != Some("")
              && verify(ExtractToken(authorization).value).None?
    ensures r.Authenticated? ==>
              ExtractToken(authorization).Some? && Some(r.user) == verify(ExtractToken(authorization).value)
  {
    var token := ExtractToken(authorization);
    if token.None? || token.value == "" then NoToken
    else
      match verify(token.value)
      case None => InvalidToken
      case Some(claims) => Authenticated(claims)
  }

  /** A missing header, or one without a space, is answered with 401. */
  lemma NoSpaceIsUnauthorized(authorization: Option<string>, verify: Verifier)
    requires authorization.Some? ==> ' ' !in authorization.value
    ensures Authenticate(authorization, verify) == NoToken
  {
  }

  /** A header whose second field is empty (`"Bearer "`, or two spaces after the word) is answered with 401. */
  lemma EmptySecondFieldIsUnauthorized(w: string, rest: string, verify: Verifier)
    requires ' ' !in w
    requires rest == "" || rest[0] == ' '
    ensures Authenticate(Some(w + " " + rest), verify) == NoToken
  {
    TokenAfterFirstWord(w, rest);
    if rest != "" {
      assert rest == " " + rest[1..];
    }
  }

  /** A signed token sent as `Bearer <token>` authenticates as the claims it was signed with. */
  lemma BearerTokenAuthenticates(token: string, claims: Claims, verify: Verifier)
    requires token != "" && ' ' !in token
    requires verify(token) == Some(claims)
    ensures Authenticate(Some("Bearer " + token), verify) == Authenticated(claims)
  {
    TokenOfWordAndToken("Bearer", token);
    assert "Bearer " + token == "Bearer" + " " + token;
  }

  /**
    The request and response objects the middleware touches: `req.user`, the
    number of times `next` ran, and the status written on the response.
  */
  class Request {
    const authorization: Option<string>
    var user: Option<Claims>
    var nextCalls: nat
    var responseStatus: Option<Status>

    constructor (authorization: Option<string>)
      ensures this.authorization == authorization
      ensures user.None? && nextCalls == 0 && responseStatus.None?
    {
      this.authorization := authorization;
      user := None;
      nextCalls := 0;
      responseStatus := None;
    }

    /** `authenticateToken(req, res, next)`. */
    method AuthenticateToken(verify: Verifier)
      modifies this
      ensures var a := Authenticate(authorization, verify);
        if a.Authenticated? then
          user == Some(a.user) && nextCalls == old(nextCalls) + 1 && responseStatus == old(responseStatus)
        else
          user == old(user) && nextCalls == old(nextCalls) && responseStatus == Some(a.Status())
    {
      var token := ExtractToken(authorization);
      if token.None? || token.value == "" {
        responseStatus := Some(401);
        return;
      }
      var decoded := verify(token.value);
      if decoded.None? {
        responseStatus := Some(403);
        return;
      }
      user := decoded;
      nextCalls := nextCalls + 1;
    }
  }
}
