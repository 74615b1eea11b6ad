/** `pages/api/auth/login.js`: the token issuer. A POST with an email and a password is
    checked against the user table and answered with a signed token or an error. */
module LoginApi {
  import opened Wrappers
  import opened Records
  import opened Jwt
  import opened Http

  /** `expiresIn: '1h'`, in seconds. */
  const LIFETIME := 3600

  const MSG_METHOD := "Méthode non autorisée"
  const MSG_REQUIRED := "Email et mot de passe sont requis"
  const MSG_NO_USER := "Aucun utilisateur trouvé"
  const MSG_BAD_PASSWORD := "Mot de passe incorrect"
  const MSG_DISABLED := "Votre compte a été désactivé. Veuillez contacter un administrateur."
  const MSG_FAILURE := "Something went wrong"

  /** The claims set `jwt.sign({ userId, role, name }, secret, { expiresIn: '1h' })` signs
      at instant `nowMs`: the three claims given, `iat` (the current second) and `exp`. */
  function Claims(u: User, nowMs: int): (p: Payload)
    ensures p.userId == Some(u.id) && p.role == Some(u.role) && p.name == Some(u.name)
    ensures p.iat.Some? && p.iat.value * 1000 <= nowMs < p.iat.value * 1000 + 1000
    ensures p.exp == Some(p.iat.value + LIFETIME)
    ensures p.iss.None? && p.nbf.None? && p.data.None?
  {
    var iat := nowMs / 1000;
    Payload(Some(u.id), Some(u.role), Some(u.name), None, Some(iat), None, Some(iat + LIFETIME), None)
  }

  /** Both `email` and `password` are present and non-empty. */
  predicate HasCredentials(req: Request) {
    Truthy(Field(req, "email")) && Truthy(Field(req, "password"))
  }

  /** The account the request names, when the credentials are present and the table was read. */
  function Account(req: Request, db: Fetch<Tables>): (r: Option<User>)
    ensures r.Some? ==> HasCredentials(req) && db.Fetched? && r.value in db.value.users
    ensures r.Some? ==> r.value.email == Field(req, "email").value
    ensures r.None? <==> !HasCredentials(req) || db.Thrown?
                         || (forall u :: u in db.value.users ==> u.email != Field(req, "email").value)
  {
    if HasCredentials(req) && db.Fetched? then UserByEmail(db.value.users, Field(req, "email").value)
    else None
  }

  /** The answer to an exception thrown inside the `try` block. */
  function Failure(e: Exception): Response {
    Json(500, MessageWithError(MSG_FAILURE, e.message))
  }

  /** The handler. `db` is the result of reading the user table, `compare` is
      `bcrypt.compare`, `sign` is `jwt.sign` and `nowMs` is the clock. */
  function Handle(req: Request, db: Fetch<Tables>, compare: (string, string) -> Fetch<bool>,
                  sign: Payload -> Fetch<string>, nowMs: int): (r: Response)
    ensures r.status in {200, 400, 401, 403, 405, 500}
    ensures r.status == 405 <==> req.httpMethod != "POST"
    ensures r.status == 400 <==> req.httpMethod == "POST" && !HasCredentials(req)
    ensures r == Json(401, Message(MSG_NO_USER)) <==>
              req.httpMethod == "POST" && HasCredentials(req) && db.Fetched? && Account(req, db).None?
    ensures r == Json(401, Message(MSG_BAD_PASSWORD)) <==>
              req.httpMethod == "POST" && Account(req, db).Some?
              && compare(Field(req, "password").value, Account(req, db).value.password) == Fetched(false)
    ensures r.status == 403 <==>
              req.httpMethod == "POST" && Account(req, db).Some?
              && compare(Field(req, "password").value, Account(req, db).value.password) == Fetched(true)
              && !Account(req, db).value.isActive
    ensures r.status == 200 <==>
              req.httpMethod == "POST" && Account(req, db).Some?
              && compare(Field(req, "password").value, Account(req, db).value.password) == Fetched(true)
              && Account(req, db).value.isActive
              && sign(Claims(Account(req, db).value, nowMs)).Fetched?
    ensures r.status == 200 ==> r.body == TokenIssued(sign(Claims(Account(req, db).value, nowMs)).value)
    ensures r.body.TokenIssued? <==> r.status == 200
    ensures req.httpMethod == "POST" && HasCredentials(req) && db.Thrown? ==> r == Failure(db.error)
    ensures req.httpMethod == "POST" && Account(req, db).Some?
            && compare(Field(req, "password").value, Account(req, db).value.password).Thrown?
            ==> r == Failure(compare(Field(req, "password").value, Account(req, db).value.password).error)
    ensures req.httpMethod == "POST" && Account(req, db).Some?
            && compare(Field(req, "password").value, Account(req, db).value.password) == Fetched(true)
            && Account(req, db).value.isActive && sign(Claims(Account(req, db).value, nowMs)).Thrown?
            ==> r == Failure(sign(Claims(Account(req, db).value, nowMs)).error)
  {
    if req.httpMethod != "POST" then Json(405, Message(MSG_METHOD))
    else if !HasCredentials(req) then Json(400, Message(MSG_REQUIRED))
    else
      match db
      case Thrown(e) => Failure(e)
      case Fetched(tables) =>
        match UserByEmail(tables.users, Field(req, "email").value)
        case None => Json(401, Message(MSG_NO_USER))
        case Some(user) =>
          match compare(Field(req, "password").value, user.password)
          case Thrown(e) => Failure(e)
          case Fetched(valid) =>
            if !valid then Json(401, Message(MSG_BAD_PASSWORD))
            else if !user.isActive then Json(403, Message(MSG_DISABLED))
            else
              match sign(Claims(user, nowMs))
              case Thrown(e) => Failure(e)
              case Fetched(token) => Json(200, TokenIssued(token))
  }

  /** A wrong method or missing credentials are answered without reading the table,
      comparing a password or signing: the answer does not depend on them. */
  lemma RejectedBeforeStore(req: Request, db1: Fetch<Tables>, db2: Fetch<Tables>,
                            compare1: (string, string) -> Fetch<bool>,
                            compare2: (string, string) -> Fetch<bool>,
                            sign1: Payload -> Fetch<string>, sign2: Payload -> Fetch<string>,
                            now1: int, now2: int)
    requires req.httpMethod != "POST" || !HasCredentials(req)
    ensures Handle(req, db1, compare1, sign1, now1) == Handle(req, db2, compare2, sign2, now2)
  {
  }

  /** An inactive account never obtains a token: with a wrong password it is told so (401),
      with the right one it is told it is disabled (403). */
  lemma InactiveAccountGetsNoToken(req: Request, db: Fetch<Tables>,
                                   compare: (string, string) -> Fetch<bool>,
                                   sign: Payload -> Fetch<string>, nowMs: int)
    requires req.httpMethod == "POST" && Account(req, db).Some? && !Account(req, db).value.isActive
    requires compare(Field(req, "password").value, Account(req, db).value.password).Fetched?
    ensures var r := Handle(req, db, compare, sign, nowMs);
            !r.body.TokenIssued?
            && (r.status == 403 <==> compare(Field(req, "password").value, Account(req, db).value.password).value)
            && (r.status == 401 <==> !compare(Field(req, "password").value, Account(req, db).value.password).value)
  {
  }
}
