/** `pages/api/tasks/all.js`: the manager's listing of every task. */
module TasksListApi {
  import opened Wrappers
  import opened Sequences
  import opened Records
  import opened Jwt
  import opened Http

  const MSG_INVALID := "Invalid or expired token"

  /** Sort key of `orderBy: { createdAt: 'desc' }`. */
  function Newest(t: Task): int {
    -t.createdAt
  }

  /** Each task with its assignee's name, in order. */
  function JoinAll(tasks: seq<Task>, users: seq<User>): (r: seq<AssignedTask>)
    ensures |r| == |tasks| && forall i :: 0 <= i < |tasks| ==> r[i] == WithAssignee(tasks[i], users)
  {
    seq(|tasks|, i requires 0 <= i < |tasks| => WithAssignee(tasks[i], users))
  }

  /** The result of the `findMany`. */
  function Listing(t: Tables): seq<AssignedTask> {
    JoinAll(SortBy(t.tasks, Newest), t.users)
  }

  /** The tasks of a listing, without the joined names. */
  function TasksOf(l: seq<AssignedTask>): (r: seq<Task>)
    ensures |r| == |l| && forall i :: 0 <= i < |l| ==> r[i] == l[i].task
  {
    seq(|l|, i requires 0 <= i < |l| => l[i].task)
  }

  /** The listing holds every task once, newest first, each with its assignee's name. */
  lemma ListingIsSortedJoin(t: Tables)
    ensures |Listing(t)| == |t.tasks|
    ensures multiset(TasksOf(Listing(t))) == multiset(t.tasks)
    ensures forall i, j :: 0 <= i < j < |Listing(t)| ==> Listing(t)[i].task.createdAt >= Listing(t)[j].task.createdAt
    ensures forall a :: a in Listing(t) ==> a == WithAssignee(a.task, t.users)
  {
    var rows := SortBy(t.tasks, Newest);
    var l := Listing(t);
    assert TasksOf(l) == rows;
    forall i, j | 0 <= i < j < |l| ensures l[i].task.createdAt >= l[j].task.createdAt {
      assert Newest(rows[i]) <= Newest(rows[j]);
    }
  }

  /** The handler: `verify` is `jwt.verify` and `db` the outcome of the `findMany`. */
  function Handle(req: Request, verify: string -> Fetch<Payload>, db: Fetch<Tables>): (r: Response)
    ensures r.status in {200, 401, 403, 405}
    ensures r.status == 405 <==> req.httpMethod != "GET"
    ensures r == Json(401, Message("Not authenticated")) <==>
              req.httpMethod == "GET" && BearerToken(req.authorization).None?
    ensures r.status == 403 <==>
              req.httpMethod == "GET" && BearerToken(req.authorization).Some?
              && verify(BearerToken(req.authorization).value).Fetched?
              && !HasRole(verify(BearerToken(req.authorization).value).value, MANAGER)
    ensures r.status == 200 <==>
              req.httpMethod == "GET" && BearerToken(req.authorization).Some?
              && verify(BearerToken(req.authorization).value).Fetched?
              && HasRole(verify(BearerToken(req.authorization).value).value, MANAGER)
              && db.Fetched?
    ensures r.status == 200 ==> r.body == TaskListing(Listing(db.value))
    ensures (req.httpMethod == "GET" && BearerToken(req.authorization).Some? && db.Thrown? && r.status != 403)
            ==> r == Json(401, Message(MSG_INVALID))
  {
    if req.httpMethod != "GET" then Json(405, Message("Method not allowed"))
    else
      match BearerToken(req.authorization)
      case None => Json(401, Message("Not authenticated"))
      case Some(token) =>
        match verify(token)
        case Thrown(_) => Json(401, Message(MSG_INVALID))
        case Fetched(decoded) =>
          if !HasRole(decoded, MANAGER) then Json(403, Message("Forbidden: Access denied"))
          else
            match db
            case Thrown(_) => Json(401, Message(MSG_INVALID))
            case Fetched(tables) => Json(200, TaskListing(Listing(tables)))
  }
}
