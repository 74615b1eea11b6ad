/** `pages/api/users/index.js`: a manager creates an employee account. */
module UsersCreateApi {
  import opened Wrappers
  import opened Records
  import opened Jwt
  import opened Http
  import opened Store

  const MSG_FORBIDDEN := "Forbidden: You are not authorized to create users."
  const MSG_REQUIRED := "Name, email, and password are required."
  const MSG_DUPLICATE := "An account with this email already exists."
  const MSG_FAILURE := "Failed to create user."

  /** `name`, `email` and `password` are all present and non-empty. */
  predicate HasFields(req: Request) {
    Truthy(Field(req, "name")) && Truthy(Field(req, "email")) && Truthy(Field(req, "password"))
  }

  /** Everything the handler decides before it touches bcrypt or the database: the method,
      the manager gate and the required fields. `None` means the request goes on to creation. */
  function Precheck(req: Request, verify: string -> Fetch<Payload>): (r: Option<Response>)
    ensures r.None? <==> req.httpMethod == "POST" && ManagerGate(req.authorization, verify, MSG_FORBIDDEN).None?
                         && HasFields(req)
    ensures r.Some? ==> r.value.status in {400, 401, 403, 405}
    ensures r.Some? && r.value.status == 405 <==> req.httpMethod != "POST"
    ensures r.Some? && r.value.status == 400 <==>
              req.httpMethod == "POST" && ManagerGate(req.authorization, verify, MSG_FORBIDDEN).None?
              && !HasFields(req)
    ensures r.Some? && r.value.status == 403 ==> r.value.body == Message(MSG_FORBIDDEN)
  {
    if req.httpMethod != "POST" then Some(Json(405, Message("Method not allowed")))
    else
      var gate := ManagerGate(req.authorization, verify, MSG_FORBIDDEN);
      if gate.Some? then gate
      else if !HasFields(req) then Some(Json(400, Message(MSG_REQUIRED)))
      else None
  }

  /** The catch block: a unique-constraint violation is a 409, every other error a 500. */
  function CatchResponse(e: Exception): (r: Response)
    ensures r.status == 409 <==> e.code == P2002
    ensures r.status == 409 ==> r.body == Message(MSG_DUPLICATE)
    ensures r.status != 409 ==> r == Json(500, Message(MSG_FAILURE))
  {
    if e.code == P2002 then Json(409, Message(MSG_DUPLICATE)) else Json(500, Message(MSG_FAILURE))
  }

  /** The row the handler asks the database to insert: the body's name and email, the hash
      of the body's password, and always the role EMPLOYEE. */
  function Requested(req: Request, passwordHash: string, id: Id, nowMs: int): (u: User)
    requires HasFields(req)
    ensures u.role == EMPLOYEE && u.password == passwordHash
    ensures u.name == Field(req, "name").value && u.email == Field(req, "email").value
  {
    NewUser(id, Field(req, "name").value, Field(req, "email").value, passwordHash, EMPLOYEE, nowMs)
  }

  /** The handler: `verify` is `jwt.verify`, `hash` is `bcrypt.hash(·, 10)`, `freshId` the
      id the database generates for the new row and `nowMs` the clock. */
  method Handle(req: Request, verify: string -> Fetch<Payload>, hash: string -> Fetch<string>,
                db: Database, freshId: Id, nowMs: int) returns (r: Response)
    requires db.Valid()
    modifies db
    ensures db.Valid() && db.tasks == old(db.tasks)
    ensures Precheck(req, verify).Some? ==> r == Precheck(req, verify).value && db.users == old(db.users)
    ensures Precheck(req, verify).None? ==>
              match hash(Field(req, "password").value)
              case Thrown(e) => r == CatchResponse(e) && db.users == old(db.users)
              case Fetched(h) =>
                var u := Requested(req, h, freshId, nowMs);
                if UserClash(old(db.users), u) then r == Json(409, Message(MSG_DUPLICATE)) && db.users == old(db.users)
                else r == Json(201, CreatedUser(Project(u))) && db.users == old(db.users) + [u]
  {
    var rejected := Precheck(req, verify);
    if rejected.Some? {
      return rejected.value;
    }
    var hashed := hash(Field(req, "password").value);
    if hashed.Thrown? {
      return CatchResponse(hashed.error);
    }
    var u := Requested(req, hashed.value, freshId, nowMs);
    var created := db.CreateUser(u.id, u.name, u.email, u.password, u.role, u.createdAt);
    match created
    case Thrown(e) => r := CatchResponse(e);
    case Fetched(row) => r := Json(201, CreatedUser(Project(row)));
  }
}
