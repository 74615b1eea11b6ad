/** `pages/api/users/all.js`: the manager's listing of every user. */
module UsersListApi {
  import opened Wrappers
  import opened Sequences
  import opened Records
  import opened Jwt
  import opened Http

  const MSG_NO_TOKEN := "Not authenticated: No token provided"
  const MSG_FORBIDDEN := "Forbidden: Access denied"
  const MSG_INVALID := "Invalid or expired token"
  const MSG_FAILURE := "Internal Server Error"

  /** The error names of `jwt.verify` that the catch block turns into a 401. */
  predicate TokenError(e: Exception) {
    e.name == "JsonWebTokenError" || e.name == "TokenExpiredError"
  }

  /** The catch block: token errors are 401, anything else 500. */
  function CatchResponse(e: Exception): (r: Response)
    ensures r.status == 401 <==> TokenError(e)
    ensures r.status != 401 ==> r == Json(500, Message(MSG_FAILURE))
  {
    if TokenError(e) then Json(401, Message(MSG_INVALID)) else Json(500, Message(MSG_FAILURE))
  }

  /** The projection the manager dashboard needs: `select: { id, name, email, role, isActive }`. */
  function ProjectWithStatus(u: User): (v: UserView)
    ensures v.id == u.id && v.name == u.name && v.email == u.email && v.role == u.role
    ensures v.isActive == Some(u.isActive)
  {
    UserView(u.id, u.name, u.email, u.role, Some(u.isActive))
  }

  /** Sort key of `orderBy: { createdAt: 'desc' }`. */
  function Newest(u: User): int {
    -u.createdAt
  }

  /** `users` is ordered newest first. */
  predicate NewestFirst(users: seq<User>) {
    forall i, j :: 0 <= i < j < |users| ==> users[i].createdAt >= users[j].createdAt
  }

  /** The projection of each row, in order. */
  function ProjectAll(users: seq<User>): (r: seq<UserView>)
    ensures |r| == |users| && forall i :: 0 <= i < |users| ==> r[i] == Project(users[i])
  {
    seq(|users|, i requires 0 <= i < |users| => Project(users[i]))
  }

  /** The result of the `findMany`. */
  function Listing(users: seq<User>): seq<UserView> {
    ProjectAll(SortBy(users, Newest))
  }

  /** The listing is the projection of an arrangement of all the rows, newest first. */
  lemma ListingIsSortedProjection(users: seq<User>)
    ensures exists rows :: multiset(rows) == multiset(users) && NewestFirst(rows)
                           && Listing(users) == ProjectAll(rows)
  {
    var rows := SortBy(users, Newest);
    assert NewestFirst(rows) by {
      forall i, j | 0 <= i < j < |rows| ensures rows[i].createdAt >= rows[j].createdAt {
        assert Newest(rows[i]) <= Newest(rows[j]);
      }
    }
  }

  /** Every entry of the listing is a stored user without its status, and every stored user
      is listed. */
  lemma ListingCoversTable(users: seq<User>)
    ensures |Listing(users)| == |users|
    ensures forall v :: v in Listing(users) ==> v.isActive.None? && exists u :: u in users && v == Project(u)
    ensures forall u :: u in users ==> Project(u) in Listing(users)
  {
    var rows := SortBy(users, Newest);
    forall v | v in Listing(users) ensures exists u :: u in users && v == Project(u) {
      var i :| 0 <= i < |rows| && Listing(users)[i] == v;
      assert rows[i] in multiset(users);
    }
    forall u | u in users ensures Project(u) in Listing(users) {
      assert u in multiset(rows);
      var i :| 0 <= i < |rows| && rows[i] == u;
      assert Listing(users)[i] == Project(u);
    }
  }

  /** The handler: `verify` is `jwt.verify` and `db` the outcome of the `findMany`. */
  function Handle(req: Request, verify: string -> Fetch<Payload>, db: Fetch<Tables>): (r: Response)
    ensures r.status in {200, 401, 403, 405, 500}
    ensures r.status == 405 <==> req.httpMethod != "GET"
    ensures r.status == 405 ==> r.allow == ["GET"] && r.body == PlainText("Method " + req.httpMethod + " Not Allowed")
    ensures r == Json(401, Message(MSG_NO_TOKEN)) <==>
              req.httpMethod == "GET" && BearerToken(req.authorization).None?
    ensures r.status == 403 <==>
              req.httpMethod == "GET" && BearerToken(req.authorization).Some?
              && verify(BearerToken(req.authorization).value).Fetched?
              && !HasRole(verify(BearerToken(req.authorization).value).value, MANAGER)
    ensures r.status == 200 <==>
              req.httpMethod == "GET" && BearerToken(req.authorization).Some?
              && verify(BearerToken(req.authorization).value).Fetched?
              && HasRole(verify(BearerToken(req.authorization).value).value, MANAGER)
              && db.Fetched?
    ensures r.status == 200 ==> r.body == UserListing(Listing(db.value.users))
    ensures r.status == 403 ==> r.body == Message(MSG_FORBIDDEN)
    ensures r.status == 500 ==> r == Json(500, Message(MSG_FAILURE))
    ensures req.httpMethod == "GET" && BearerToken(req.authorization).Some?
            && verify(BearerToken(req.authorization).value).Thrown?
            ==> r == CatchResponse(verify(BearerToken(req.authorization).value).error)
    ensures req.httpMethod == "GET" && BearerToken(req.authorization).Some?
            && verify(BearerToken(req.authorization).value).Fetched?
            && HasRole(verify(BearerToken(req.authorization).value).value, MANAGER)
            && db.Thrown?
            ==> r == CatchResponse(db.error)
  {
    if req.httpMethod != "GET" then
      Response(405, ["GET"], PlainText("Method " + req.httpMethod + " Not Allowed"))
    else
      match BearerToken(req.authorization)
      case None => Json(401, Message(MSG_NO_TOKEN))
      case Some(token) =>
        match verify(token)
        case Thrown(e) => CatchResponse(e)
        case Fetched(decoded) =>
          if !HasRole(decoded, MANAGER) then Json(403, Message(MSG_FORBIDDEN))
          else
            match db
            case Thrown(e) => CatchResponse(e)
            case Fetched(tables) => Json(200, UserListing(Listing(tables.users)))
  }

  /** A refused token or a non-manager is answered without querying: the table does not matter. */
  lemma RefusedWithoutQuery(req: Request, verify: string -> Fetch<Payload>, db1: Fetch<Tables>,
                            db2: Fetch<Tables>)
    requires req.httpMethod != "GET" || BearerToken(req.authorization).None?
             || verify(BearerToken(req.authorization).value).Thrown?
             || !HasRole(verify(BearerToken(req.authorization).value).value, MANAGER)
    ensures Handle(req, verify, db1) == Handle(req, verify, db2)
  {
  }
}
