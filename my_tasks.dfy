/** `pages/api/tasks/my-tasks.js`: the tasks assigned to the caller, for any role. */
module MyTasksApi {
  import opened Wrappers
  import opened Sequences
  import opened Records
  import opened Jwt
  import opened Http

  const MSG_NO_TOKEN := "Authorization token not found"
  const MSG_INVALID := "Invalid or expired token"

  /** Sort key of `orderBy: { deadline: 'asc' }`. */
  function Deadline(t: Task): int {
    t.deadline
  }

  /** `where: { assignedToId: userId }`. Prisma drops a filter whose value is `undefined`,
      so a token without `userId` selects every task. */
  function Owned(tasks: seq<Task>, userId: Option<Id>): (r: seq<Task>)
    ensures userId.None? ==> r == tasks
    ensures userId.Some? ==> forall t :: t in r <==> t in tasks && t.assignedToId == userId.value
    ensures multiset(r) <= multiset(tasks)
  {
    if userId.None? then tasks else Filter(tasks, (t: Task) => t.assignedToId == userId.value)
  }

  /** The result of the `findMany`: the selected tasks, earliest deadline first. */
  function MyTasks(tasks: seq<Task>, userId: Option<Id>): (r: seq<Task>)
    ensures multiset(r) == multiset(Owned(tasks, userId))
    ensures forall i, j :: 0 <= i < j < |r| ==> r[i].deadline <= r[j].deadline
    ensures userId.Some? ==> forall t :: t in r <==> t in tasks && t.assignedToId == userId.value
  {
    var r := SortBy(Owned(tasks, userId), Deadline);
    assert forall t :: t in r <==> t in multiset(Owned(tasks, userId));
    r
  }

  /** The handler: there is no role check, any verified token is served. */
  function Handle(req: Request, verify: string -> Fetch<Payload>, db: Fetch<Tables>): (r: Response)
    ensures r.status in {200, 401, 405}
    ensures r.status == 405 <==> req.httpMethod != "GET"
    ensures r == Json(401, Message(MSG_NO_TOKEN)) <==>
              req.httpMethod == "GET" && BearerToken(req.authorization).None?
    ensures r.status == 200 <==>
              req.httpMethod == "GET" && BearerToken(req.authorization).Some?
              && verify(BearerToken(req.authorization).value).Fetched? && db.Fetched?
    ensures r.status == 200 ==>
              r.body == OwnTasks(MyTasks(db.value.tasks, verify(BearerToken(req.authorization).value).value.userId))
  {
    if req.httpMethod != "GET" then Json(405, Message("Method not allowed"))
    else
      match BearerToken(req.authorization)
      case None => Json(401, Message(MSG_NO_TOKEN))
      case Some(token) =>
        match verify(token)
        case Thrown(_) => Json(401, Message(MSG_INVALID))
        case Fetched(decoded) =>
          match db
          case Thrown(_) => Json(401, Message(MSG_INVALID))
          case Fetched(tables) => Json(200, OwnTasks(MyTasks(tables.tasks, decoded.userId)))
  }

  /** Managers and employees are served alike: the role claim plays no part. */
  lemma RoleIrrelevant(req: Request, verify1: string -> Fetch<Payload>, verify2: string -> Fetch<Payload>,
                       db: Fetch<Tables>)
    requires forall t :: verify1(t).Fetched? == verify2(t).Fetched?
    requires forall t :: verify1(t).Fetched? ==> verify1(t).value.userId == verify2(t).value.userId
    ensures Handle(req, verify1, db) == Handle(req, verify2, db)
  {
  }
}
