/** The database as the two creating handlers change it: `prisma.user.create` and
    `prisma.task.create` append a row or throw, and the table constraints (unique ids,
    unique emails, every task assigned to an existing user) always hold. */
module Store {
  import opened Wrappers
  import opened Records

  /** Prisma's error code for a unique-constraint violation. */
  const P2002 := "P2002"
  /** Prisma's error code for a foreign-key violation. */
  const P2003 := "P2003"

  const UNIQUE_VIOLATION := Exception("PrismaClientKnownRequestError", P2002, "Unique constraint failed")
  const FOREIGN_KEY_VIOLATION := Exception("PrismaClientKnownRequestError", P2003, "Foreign key constraint failed")
  /** What `prisma.task.create` throws when handed `new Date(x)` for an unparsable `x`. */
  const INVALID_DATE := Exception("PrismaClientValidationError", "", "Invalid Date")

  /** No two users share an id or an email. */
  predicate UniqueUsers(users: seq<User>) {
    forall i, j :: 0 <= i < j < |users| ==> users[i].id != users[j].id && users[i].email != users[j].email
  }

  /** No two tasks share an id. */
  predicate UniqueTasks(tasks: seq<Task>) {
    forall i, j :: 0 <= i < j < |tasks| ==> tasks[i].id != tasks[j].id
  }

  /** Every task is assigned to a user of the table. */
  predicate Assigned(t: Tables) {
    forall i :: 0 <= i < |t.tasks| ==> UserById(t.users, t.tasks[i].assignedToId).Some?
  }

  /** The table constraints. */
  predicate Consistent(t: Tables) {
    UniqueUsers(t.users) && UniqueTasks(t.tasks) && Assigned(t)
  }

  /** `u` collides with a stored user on the id or on the email. */
  predicate UserClash(users: seq<User>, u: User) {
    exists i :: 0 <= i < |users| && (users[i].id == u.id || users[i].email == u.email)
  }

  /** `t` collides with a stored task on the id. */
  predicate TaskClash(tasks: seq<Task>, t: Task) {
    exists i :: 0 <= i < |tasks| && tasks[i].id == t.id
  }

  /** The row `prisma.user.create` inserts; `isActive` and `createdAt` take the schema's
      defaults (active, the insertion instant). */
  function NewUser(id: Id, name: string, email: string, passwordHash: string, role: string,
                   nowMs: int): (u: User)
    ensures u.id == id && u.name == name && u.email == email && u.role == role
    ensures u.password == passwordHash && u.isActive && u.createdAt == nowMs
  {
    User(id, name, email, passwordHash, role, true, nowMs)
  }

  /** The row `prisma.task.create` inserts; `status` takes the schema's default `TODO`. */
  function NewTask(id: Id, title: string, description: Option<string>, deadline: int,
                   assignedToId: Id, nowMs: int): (t: Task)
    ensures t.id == id && t.title == title && t.description == description
    ensures t.deadline == deadline && t.assignedToId == assignedToId
    ensures t.status == TODO && t.createdAt == nowMs
  {
    Task(id, title, description, TODO, deadline, assignedToId, nowMs)
  }

  /** Appending a user that does not clash keeps the constraints. */
  lemma AddUserConsistent(t: Tables, u: User)
    requires Consistent(t) && !UserClash(t.users, u)
    ensures Consistent(Tables(t.users + [u], t.tasks))
  {
    var users' := t.users + [u];
    forall i | 0 <= i < |t.tasks|
      ensures UserById(users', t.tasks[i].assignedToId).Some?
    {
      var owner := UserById(t.users, t.tasks[i].assignedToId).value;
      assert owner in users';
    }
  }

  /** Appending a task with a fresh id and an existing assignee keeps the constraints. */
  lemma AddTaskConsistent(t: Tables, task: Task)
    requires Consistent(t) && !TaskClash(t.tasks, task) && UserById(t.users, task.assignedToId).Some?
    ensures Consistent(Tables(t.users, t.tasks + [task]))
  {
  }

  class Database {
    var users: seq<User>
    var tasks: seq<Task>

    /** The contents the read-only handlers query. */
    function Snapshot(): Tables
      reads this
    {
      Tables(users, tasks)
    }

    predicate Valid()
      reads this
    {
      Consistent(Snapshot())
    }

    constructor (initial: Tables)
      requires Consistent(initial)
      ensures Valid() && Snapshot() == initial
    {
      users := initial.users;
      tasks := initial.tasks;
    }

    /** `prisma.user.create`: fails with P2002 when the id or the email is taken. */
    method CreateUser(id: Id, name: string, email: string, passwordHash: string, role: string,
                      nowMs: int) returns (r: Fetch<User>)
      requires Valid()
      modifies this
      ensures Valid() && tasks == old(tasks)
      ensures var u := NewUser(id, name, email, passwordHash, role, nowMs);
              if UserClash(old(users), u) then r == Thrown(UNIQUE_VIOLATION) && users == old(users)
              else r == Fetched(u) && users == old(users) + [u]
      ensures r.Fetched? ==> r.value.isActive && r.value.createdAt == nowMs && r.value.role == role
    {
      var u := NewUser(id, name, email, passwordHash, role, nowMs);
      if UserClash(users, u) {
        return Thrown(UNIQUE_VIOLATION);
      }
      AddUserConsistent(Snapshot(), u);
      users := users + [u];
      r := Fetched(u);
    }

    /** `prisma.task.create` with `include: { assignedTo: { select: { name } } }`: fails when
        the deadline is not a date, when the id is taken (P2002) or when the assignee does not
        exist (P2003). */
    method CreateTask(id: Id, title: string, description: Option<string>, deadline: Option<int>,
                      assignedToId: Id, nowMs: int) returns (r: Fetch<AssignedTask>)
      requires Valid()
      modifies this
      ensures Valid() && users == old(users)
      ensures deadline.None? ==> r == Thrown(INVALID_DATE) && tasks == old(tasks)
      ensures deadline.Some? ==>
                var t := NewTask(id, title, description, deadline.value, assignedToId, nowMs);
                if TaskClash(old(tasks), t) then r == Thrown(UNIQUE_VIOLATION) && tasks == old(tasks)
                else if UserById(users, assignedToId).None? then
                  r == Thrown(FOREIGN_KEY_VIOLATION) && tasks == old(tasks)
                else r == Fetched(WithAssignee(t, users)) && tasks == old(tasks) + [t]
      ensures r.Fetched? ==> r.value.task.status == TODO && r.value.task.createdAt == nowMs
    {
      if deadline.None? {
        return Thrown(INVALID_DATE);
      }
      var t := NewTask(id, title, description, deadline.value, assignedToId, nowMs);
      if TaskClash(tasks, t) {
        return Thrown(UNIQUE_VIOLATION);
      }
      if UserById(users, assignedToId).None? {
        return Thrown(FOREIGN_KEY_VIOLATION);
      }
      AddTaskConsistent(Snapshot(), t);
      tasks := tasks + [t];
      r := Fetched(WithAssignee(t, users));
    }
  }
}
