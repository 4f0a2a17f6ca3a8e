/**
 * The parts of Express's request and response objects the handlers use:
 * the `Authorization` header, the parsed cookies and `req.id` on the request;
 * the status, the JSON body, `Set-Cookie` writes and the `Authorization`
 * header on the response.
 */
module Http {
  import opened Wrappers
  import opened Identity
  import opened Text
  import Store

  datatype CookieOptions = CookieOptions(httpOnly: bool, secure: bool, sameSite: string, maxAge: Option<nat>)

  /** 30 days and 10 minutes, in milliseconds (`maxAge`). */
  const RefreshTokenMaxAge: nat := 30 * 24 * 60 * 60 * 1000
  const ResetTokenMaxAge: nat := 10 * 60 * 1000

  /** The options every `refreshToken` cookie is written with. */
  const RefreshCookieOptions: CookieOptions := CookieOptions(true, true, "Strict", Some(RefreshTokenMaxAge))
  /** The options the `resetToken` cookie is written with. */
  const ResetCookieOptions: CookieOptions := CookieOptions(true, true, "Strict", Some(ResetTokenMaxAge))
  /** The options `logout` clears the `refreshToken` cookie with. */
  const StrictCookieOptions: CookieOptions := CookieOptions(true, true, "Strict", None)

  datatype CookieWrite =
    | CookieSet(name: string, value: string, options: CookieOptions)
    | CookieCleared(name: string, clearOptions: Option<CookieOptions>)

  /**
   * The `user` field of a JSON body: absent, one user record, or the array
   * of rows a store insert handed back.
   */
  datatype UserField = Absent | Record(record: Store.User) | Rows(rows: seq<Store.User>)

  /** The JSON body: its `message` and its `user` field. */
  datatype Body = Body(message: string, user: UserField)

  /** How a middleware ends: `next()`, a response sent, or an uncaught `TypeError`. */
  datatype Outcome = Next | Ended | Threw

  /** `Bearer <token>`. */
  function Bearer(token: string): string
  {
    "Bearer " + token
  }

  /** `req.cookies[name]` when it is truthy (present and not empty). */
  function CookieValue(cookies: map<string, string>, name: string): (r: Option<string>)
    ensures r.Some? <==> name in cookies && cookies[name] != ""
    ensures r.Some? ==> r.value == cookies[name]
  {
    if name in cookies && cookies[name] != "" then Some(cookies[name]) else None
  }

  /**
   * `authHeader && authHeader.split(" ")[1]`, kept only when truthy: the second
   * space-separated word of the header, whatever the first word is.
   */
  function AccessCandidate(authorization: Option<string>): (r: Option<string>)
    ensures r.Some? ==> r.value != "" && ' ' !in r.value
    ensures r.Some? <==>
      authorization.Some? && |Split(authorization.value, ' ')| >= 2 && Split(authorization.value, ' ')[1] != ""
    ensures r.Some? ==> r.value == Split(authorization.value, ' ')[1]
  {
    if authorization.None? || authorization.value == "" then None
    else
      var words := Split(authorization.value, ' ');
      if |words| >= 2 && words[1] != "" then Some(words[1]) else None
  }

  /** The scheme word is never checked: any first word, `Bearer` or not, is skipped. */
  lemma AnySchemeAccepted(scheme: string, token: string)
    requires ' ' !in scheme && ' ' !in token && token != ""
    ensures AccessCandidate(Some(scheme + " " + token)) == Some(token)
  {
    SplitJoin([scheme, token], ' ');
    assert Join([scheme, token], ' ') == scheme + " " + token by {
      assert [scheme, token][1..] == [token];
    }
  }

  /** Whatever follows the token after a space, more words or more spaces, is ignored. */
  lemma TrailingWordsIgnored(scheme: string, token: string, rest: string)
    requires ' ' !in scheme && ' ' !in token && token != ""
    ensures AccessCandidate(Some(scheme + " " + token + " " + rest)) == Some(token)
  {
    var tail := " " + rest;
    var inner := " " + (token + tail);
    assert Split(tail, ' ') == [[]] + Split(rest, ' ') by {
      assert tail[0] == ' ' && tail[1..] == rest;
    }
    SplitAfterWord(token, tail, ' ');
    assert Split(token + tail, ' ') == [token] + Split(rest, ' ') by {
      assert token + [] == token;
    }
    assert Split(inner, ' ') == [[]] + Split(token + tail, ' ') by {
      assert inner[0] == ' ' && inner[1..] == token + tail;
    }
    SplitAfterWord(scheme, inner, ' ');
    assert scheme + " " + token + " " + rest == scheme + inner;
    assert Split(scheme + inner, ' ')[1] == token;
  }

  /** An incoming request. Only `id` is written, by the authentication middleware. */
  class Request {
    const authorization: Option<string>
    const cookies: map<string, string>
    var id: Option<UserId>

    constructor (authorization: Option<string>, cookies: map<string, string>, id: Option<UserId>)
      ensures this.authorization == authorization && this.cookies == cookies && this.id == id
    {
      this.authorization := authorization;
      this.cookies := cookies;
      this.id := id;
    }
  }

  /** The response under construction. Express's default status is 200 and no body is sent yet. */
  class Response {
    var statusCode: nat
    var body: Option<Body>
    var cookies: seq<CookieWrite>
    var authorization: Option<string>

    constructor ()
      ensures statusCode == 200 && body == None && cookies == [] && authorization == None
    {
      statusCode := 200;
      body := None;
      cookies := [];
      authorization := None;
    }

    /** `res.status(code).json(body)`. */
    method Send(code: nat, message: string, user: UserField)
      modifies this`statusCode, this`body
      ensures statusCode == code && body == Some(Body(message, user))
    {
      statusCode := code;
      body := Some(Body(message, user));
    }

    /** `res.cookie(name, value, options)`. */
    method Cookie(name: string, value: string, options: CookieOptions)
      modifies this`cookies
      ensures cookies == old(cookies) + [CookieSet(name, value, options)]
    {
      cookies := cookies + [CookieSet(name, value, options)];
    }

    /** `res.clearCookie(name[, options])`. */
    method ClearCookie(name: string, options: Option<CookieOptions>)
      modifies this`cookies
      ensures cookies == old(cookies) + [CookieCleared(name, options)]
    {
      cookies := cookies + [CookieCleared(name, options)];
    }

    /** `res.header("Authorization", value)` / `res.setHeader("Authorization", value)`. */
    method SetAuthorization(value: string)
      modifies this`authorization
      ensures authorization == Some(value)
    {
      authorization := Some(value);
    }
  }
}
