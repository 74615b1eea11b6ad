/** `pages/api/tasks/index.js`: a manager creates a task for a user. */
module TasksCreateApi {
  import opened Wrappers
  import opened Records
  import opened Jwt
  import opened Http
  import opened Store

  const MSG_FORBIDDEN := "Forbidden: Access denied"
  const MSG_REQUIRED := "Missing required fields"
  const MSG_FAILURE := "Failed to create task"

  /** `title`, `deadline` and `assignedToId` are all present and non-empty. */
  predicate HasFields(req: Request) {
    Truthy(Field(req, "title")) && Truthy(Field(req, "deadline")) && Truthy(Field(req, "assignedToId"))
  }

  /** The method, the manager gate and the required fields. */
  function Precheck(req: Request, verify: string -> Fetch<Payload>): (r: Option<Response>)
    ensures r.None? <==> req.httpMethod == "POST" && ManagerGate(req.authorization, verify, MSG_FORBIDDEN).None?
                         && HasFields(req)
    ensures r.Some? ==> r.value.status in {400, 401, 403, 405}
    ensures r.Some? && r.value.status == 405 <==> req.httpMethod != "POST"
    ensures r.Some? && r.value.status == 400 <==>
              req.httpMethod == "POST" && ManagerGate(req.authorization, verify, MSG_FORBIDDEN).None?
              && !HasFields(req)
  {
    if req.httpMethod != "POST" then Some(Json(405, Message("Method not allowed")))
    else
      var gate := ManagerGate(req.authorization, verify, MSG_FORBIDDEN);
      if gate.Some? then gate
      else if !HasFields(req) then Some(Json(400, Message(MSG_REQUIRED)))
      else None
  }

  /** `description || null`: a missing or empty description is stored as null. */
  function StoredDescription(req: Request): (d: Option<string>)
    ensures d.Some? <==> Truthy(Field(req, "description"))
    ensures d.Some? ==> d == Field(req, "description")
  {
    if Truthy(Field(req, "description")) then Field(req, "description") else None
  }

  /** The handler: `toDate` is `new Date(deadline)` (`None` for an invalid date). */
  method Handle(req: Request, verify: string -> Fetch<Payload>, toDate: string -> Option<int>,
                db: Database, freshId: Id, nowMs: int) returns (r: Response)
    requires db.Valid()
    modifies db
    ensures db.Valid() && db.users == old(db.users)
    ensures Precheck(req, verify).Some? ==> r == Precheck(req, verify).value && db.tasks == old(db.tasks)
    ensures Precheck(req, verify).None? ==>
              var deadline := toDate(Field(req, "deadline").value);
              var t := NewTask(freshId, Field(req, "title").value, StoredDescription(req),
                               if deadline.Some? then deadline.value else 0,
                               Field(req, "assignedToId").value, nowMs);
              if deadline.Some? && !TaskClash(old(db.tasks), t) && UserById(db.users, t.assignedToId).Some? then
                r == Json(201, CreatedTask(WithAssignee(t, db.users))) && db.tasks == old(db.tasks) + [t]
              else r.status == 500 && r.body.MessageWithError? && r.body.text == MSG_FAILURE
                   && db.tasks == old(db.tasks)
  {
    var rejected := Precheck(req, verify);
    if rejected.Some? {
      return rejected.value;
    }
    var created := db.CreateTask(freshId, Field(req, "title").value, StoredDescription(req),
                                 toDate(Field(req, "deadline").value), Field(req, "assignedToId").value, nowMs);
    match created
    case Thrown(e) => r := Json(500, MessageWithError(MSG_FAILURE, e.message));
    case Fetched(row) => r := Json(201, CreatedTask(row));
  }
}
