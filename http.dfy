/** Requests and responses of the API routes, and the bearer-token gate they share. */
module Http {
  import opened Wrappers
  import opened Strings
  import opened Records
  import opened Jwt

  /** The parts of an incoming request the handlers read: `req.method` (as `httpMethod`),
      `req.headers.authorization` and the string fields of `req.body`. */
  datatype Request = Request(httpMethod: string, authorization: Option<string>, body: map<string, string>)

  /** `req.body[name]`; an absent or null field is `None`. */
  function Field(req: Request, name: string): (f: Option<string>)
    ensures f.Some? <==> name in req.body
  {
    if name in req.body then Some(req.body[name]) else None
  }

  /** JavaScript truthiness of a string field: absent and empty are falsy. */
  predicate Truthy(f: Option<string>) {
    f.Some? && f.value != ""
  }

  /** The JSON body a handler sends. */
  datatype Body =
    | Message(text: string)                         // { message }
    | MessageWithError(text: string, error: string) // { message, error: error.message }
    | PlainText(text: string)                       // res.end(text)
    | TokenIssued(token: string)                    // { token }
    | CreatedUser(user: UserView)
    | UserListing(users: seq<UserView>)
    | CreatedTask(created: AssignedTask)
    | TaskListing(assignedTasks: seq<AssignedTask>)
    | OwnTasks(tasks: seq<Task>)

  /** A response: status code, the `Allow` header (empty when not set) and the body. */
  datatype Response = Response(status: int, allow: seq<string>, body: Body)

  /** `res.status(status).json(body)`. */
  function Json(status: int, body: Body): Response {
    Response(status, [], body)
  }

  const BEARER := "Bearer "

  /** The token of an `Authorization: Bearer <token>` header (section 2.1 of RFC 6750), read
      as the source does: the header must start with "Bearer ", and the token is the second
      space-separated field, `authHeader.split(' ')[1]`. `None` means the handler answers 401. */
  function BearerToken(authorization: Option<string>): (r: Option<string>)
    ensures r.Some? <==> authorization.Some? && StartsWith(authorization.value, BEARER)
    ensures r.Some? ==> ' ' !in r.value && StartsWith(authorization.value, BEARER + r.value)
    ensures r.Some? ==>
              (|authorization.value| == |BEARER + r.value| || authorization.value[|BEARER + r.value|] == ' ')
  {
    if authorization.Some? && StartsWith(authorization.value, BEARER) then
      var h := authorization.value;
      assert h == "Bearer" + [' '] + h[7..];
      SplitAfterField("Bearer", ' ', h[7..]);
      Some(Split(h, ' ')[1])
    else None
  }

  /** The token a client sends as `Bearer ${token}` is the token the server reads back,
      whenever the token has no space in it (a compact JWT never has one). */
  lemma BearerTokenOfHeader(token: string)
    requires ' ' !in token
    ensures BearerToken(Some(BEARER + token)) == Some(token)
  {
    assert BEARER + token == "Bearer" + [' '] + token;
    SplitAfterField("Bearer", ' ', token);
    SplitNoSeparator(token, ' ');
  }

  /** A token with a space in it does not survive the round trip: only its first word is read. */
  lemma BearerTokenStopsAtSpace(a: string, b: string)
    requires ' ' !in a
    ensures BearerToken(Some(BEARER + a + " " + b)) == Some(a)
  {
    var h := BEARER + a + " " + b;
    assert h == BEARER + (a + " " + b);
    StartsWithConcat(BEARER, a + " " + b);
    assert h == "Bearer" + [' '] + (a + [' '] + b);
    SecondField("Bearer", a, b, ' ');
  }

  /** The role a verified token carries, when it is a string. */
  predicate HasRole(p: Payload, role: string) {
    p.role == Some(role)
  }

  /** The gate `users/index.js` and `tasks/index.js` share: bearer header, then
      `jwt.verify` (its outcome is `verify(token)`), then `decoded.role === 'MANAGER'`.
      `None` lets the request through; otherwise the response to send. */
  function ManagerGate(authorization: Option<string>, verify: string -> Fetch<Payload>,
                       forbidden: string): (r: Option<Response>)
    ensures r.None? <==> BearerToken(authorization).Some?
                         && verify(BearerToken(authorization).value).Fetched?
                         && HasRole(verify(BearerToken(authorization).value).value, MANAGER)
    ensures BearerToken(authorization).None? ==> r == Some(Json(401, Message("Not authenticated")))
    ensures r.Some? && r.value.status == 403 ==> r.value.body == Message(forbidden)
    ensures r.Some? ==> r.value.status == 401 || r.value.status == 403
    ensures r.Some? && r.value.status == 403 <==>
              BearerToken(authorization).Some?
              && verify(BearerToken(authorization).value).Fetched?
              && !HasRole(verify(BearerToken(authorization).value).value, MANAGER)
  {
    match BearerToken(authorization)
    case None => Some(Json(401, Message("Not authenticated")))
    case Some(token) =>
      match verify(token)
      case Thrown(_) => Some(Json(401, Message("Invalid or expired token")))
      case Fetched(decoded) =>
        if !HasRole(decoded, MANAGER) then Some(Json(403, Message(forbidden))) else None
  }
}
