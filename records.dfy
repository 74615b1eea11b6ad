/** The rows of the two database tables and the shapes in which the API hands them out. */
module Records {
  import opened Wrappers

  /** Record identifiers are strings (the API passes URL segments straight into queries). */
  type Id = string

  const MANAGER := "MANAGER"
  const EMPLOYEE := "EMPLOYEE"
  const TODO := "TODO"
  const DONE := "DONE"

  /** A row of the user table; `password` holds the bcrypt hash, `createdAt` is in milliseconds. */
  datatype User = User(id: Id, name: string, email: string, password: string,
                       role: string, isActive: bool, createdAt: int)

  /** A row of the task table; timestamps are milliseconds. */
  datatype Task = Task(id: Id, title: string, description: Option<string>, status: string,
                       deadline: int, assignedToId: Id, createdAt: int)

  /** A user as the API returns it: never the password; `isActive` only where it is selected. */
  datatype UserView = UserView(id: Id, name: string, email: string, role: string,
                               isActive: Option<bool>)

  /** A task with its assignee's name joined in (`include: { assignedTo: { select: { name } } }`). */
  datatype AssignedTask = AssignedTask(task: Task, assigneeName: Option<string>)

  /** The contents of the database at one instant. */
  datatype Tables = Tables(users: seq<User>, tasks: seq<Task>)

  /** The user with the given id, if any (ids are unique in the table). */
  function UserById(users: seq<User>, id: Id): (r: Option<User>)
    ensures r.Some? ==> r.value in users && r.value.id == id
    ensures r.None? ==> forall u :: u in users ==> u.id != id
  {
    if users == [] then None
    else if users[0].id == id then Some(users[0])
    else UserById(users[1..], id)
  }

  /** The user with the given email, if any (`findUnique({ where: { email } })`). */
  function UserByEmail(users: seq<User>, email: string): (r: Option<User>)
    ensures r.Some? ==> r.value in users && r.value.email == email
    ensures r.None? ==> forall u :: u in users ==> u.email != email
  {
    if users == [] then None
    else if users[0].email == email then Some(users[0])
    else UserByEmail(users[1..], email)
  }

  /** The `select: { id, name, email, role }` both user handlers answer with: the row
      without its password hash, its creation time or its `isActive` flag. */
  function Project(u: User): (v: UserView)
    ensures v.id == u.id && v.name == u.name && v.email == u.email && v.role == u.role
    ensures v.isActive.None?
  {
    UserView(u.id, u.name, u.email, u.role, None)
  }

  /** A task joined with its assignee's name. */
  function WithAssignee(t: Task, users: seq<User>): (r: AssignedTask)
    ensures r.task == t
    ensures r.assigneeName.Some? <==> exists u :: u in users && u.id == t.assignedToId
  {
    var owner := UserById(users, t.assignedToId);
    AssignedTask(t, if owner.Some? then Some(owner.value.name) else None)
  }
}
