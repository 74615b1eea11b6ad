/** `pages/manager/dashboard.js`: the manager's page. It holds the task and user lists the
    API returned and updates them locally after each create, edit, delete or status change. */
module ManagerDashboard {
  import opened Wrappers
  import opened Records
  import opened Sequences
  import opened Http
  import Session
  import UsersListApi

  const ALL := "all"

  /** `[newTask, ...tasks]`: the new task first, the others in their order. */
  function Prepend<T>(x: T, s: seq<T>): (r: seq<T>)
    ensures |r| == |s| + 1 && r[0] == x && r[1..] == s
  {
    [x] + s
  }

  /** `tasks.map(t => t.id === updated.id ? updated : t)`. */
  function ReplaceTask(tasks: seq<AssignedTask>, updated: AssignedTask): (r: seq<AssignedTask>)
    ensures |r| == |tasks|
    ensures forall i :: 0 <= i < |tasks| ==> r[i] == (if tasks[i].task.id == updated.task.id then updated else tasks[i])
  {
    ReplaceWhere(tasks, (t: AssignedTask) => t.task.id == updated.task.id, updated)
  }

  /** `users.map(u => u.id === updated.id ? updated : u)`. */
  function ReplaceUser(users: seq<UserView>, updated: UserView): (r: seq<UserView>)
    ensures |r| == |users|
    ensures forall i :: 0 <= i < |users| ==> r[i] == (if users[i].id == updated.id then updated else users[i])
  {
    ReplaceWhere(users, (u: UserView) => u.id == updated.id, updated)
  }

  /** `tasks.filter(task => task.id !== id)`. */
  function RemoveTask(tasks: seq<AssignedTask>, id: Id): seq<AssignedTask> {
    Filter(tasks, (t: AssignedTask) => t.task.id != id)
  }

  /** The tasks shown under the status filter. */
  function FilteredTasks(tasks: seq<AssignedTask>, filter: string): seq<AssignedTask> {
    if filter == ALL then tasks else Filter(tasks, (t: AssignedTask) => t.task.status == filter)
  }

  /** The number of `DONE` tasks. */
  function CompletedTasks(tasks: seq<AssignedTask>): nat {
    |Filter(tasks, (t: AssignedTask) => t.task.status == DONE)|
  }

  /** The number of users with role `EMPLOYEE`: every user not counted has another role. */
  function TotalEmployees(users: seq<UserView>): (n: nat)
    ensures n <= |users|
    ensures n + |Filter(users, (u: UserView) => u.role != EMPLOYEE)| == |users|
  {
    FilterComplementCount(users, (u: UserView) => u.role == EMPLOYEE, (u: UserView) => u.role != EMPLOYEE);
    |Filter(users, (u: UserView) => u.role == EMPLOYEE)|
  }

  /** The `isActive` value the status toggle sends: `!user.isActive`, where an absent field
      reads as `undefined` and its negation is `true`. */
  function NewStatus(u: UserView): (b: bool)
    ensures u.isActive.Some? ==> b == !u.isActive.value
    ensures u.isActive.None? ==> b
  {
    !(u.isActive == Some(true))
  }

  /** The data a successful fetch installs: the bodies of the two listings. */
  function ListingsOf(tasksBody: Body, usersBody: Body): (seq<AssignedTask>, seq<UserView>) {
    (if tasksBody.TaskListing? then tasksBody.assignedTasks else [],
     if usersBody.UserListing? then usersBody.users else [])
  }

  /** How `Promise.all` of the two requests settles: with both bodies when both succeed,
      otherwise with the failure that settled first (`tasksFirst` says which). */
  function Combined(tasksReply: Option<Response>, usersReply: Option<Response>, tasksFirst: bool)
    : (r: Session.Reply<(seq<AssignedTask>, seq<UserView>)>)
    ensures r.Ok? <==> Session.Settle(tasksReply).Ok? && Session.Settle(usersReply).Ok?
    ensures r.Ok? ==> r.data == ListingsOf(Session.Settle(tasksReply).data, Session.Settle(usersReply).data)
    ensures r.Failed? ==>
              (Session.Settle(tasksReply).Failed? && r.status == Session.Settle(tasksReply).status)
              || (Session.Settle(usersReply).Failed? && r.status == Session.Settle(usersReply).status)
  {
    var t, u := Session.Settle(tasksReply), Session.Settle(usersReply);
    if t.Ok? && u.Ok? then Session.Ok(ListingsOf(t.data, u.data))
    else if t.Failed? && (u.Ok? || tasksFirst) then Session.Failed(t.status)
    else Session.Failed(u.status)
  }

  /** The page's state. */
  datatype State = State(tasks: seq<AssignedTask>, users: seq<UserView>, isLoading: bool,
                         isConfirmModalOpen: bool, taskToDelete: Option<Id>,
                         isEditModalOpen: bool, taskToEdit: Option<AssignedTask>, statusFilter: string,
                         isEditUserModalOpen: bool, userToEdit: Option<UserView>,
                         isDeactivateConfirmOpen: bool, userToToggleStatus: Option<UserView>)

  class Dashboard {
    var tasks: seq<AssignedTask>
    var users: seq<UserView>
    var isLoading: bool
    var isConfirmModalOpen: bool
    var taskToDelete: Option<Id>
    var isEditModalOpen: bool
    var taskToEdit: Option<AssignedTask>
    var statusFilter: string
    var isEditUserModalOpen: bool
    var userToEdit: Option<UserView>
    var isDeactivateConfirmOpen: bool
    var userToToggleStatus: Option<UserView>
    const session: Session.AuthProvider

    /** All the fields at once. */
    function Snapshot(): State
      reads this
    {
      State(tasks, users, isLoading, isConfirmModalOpen, taskToDelete, isEditModalOpen, taskToEdit,
            statusFilter, isEditUserModalOpen, userToEdit, isDeactivateConfirmOpen, userToToggleStatus)
    }

    /** The initial state of the page. */
    constructor(s: Session.AuthProvider)
      ensures session == s
      ensures Snapshot() == State([], [], true, false, None, false, None, ALL, false, None, false, None)
    {
      session := s;
      tasks, users, isLoading := [], [], true;
      isConfirmModalOpen, taskToDelete := false, None;
      isEditModalOpen, taskToEdit, statusFilter := false, None, ALL;
      isEditUserModalOpen, userToEdit := false, None;
      isDeactivateConfirmOpen, userToToggleStatus := false, None;
    }

    /** `fetchData`: without a stored token, log out and stop (loading stays on); otherwise
        install both listings, or log out when the failure is a 401 or a 403, and stop loading. */
    method FetchData(reply: Session.Reply<(seq<AssignedTask>, seq<UserView>)>)
      modifies this, session, session.router
      ensures !Truthy(old(session.storedToken)) ==>
                Snapshot() == old(Snapshot())
                && session.storedToken.None? && session.user.None?
                && session.router.history == old(session.router.history) + [Session.LOGIN_PAGE]
      ensures Truthy(old(session.storedToken)) && reply.Ok? ==>
                Snapshot() == old(Snapshot()).(tasks := reply.data.0, users := reply.data.1, isLoading := false)
                && session.storedToken == old(session.storedToken) && session.user == old(session.user)
                && session.router.history == old(session.router.history)
      ensures Truthy(old(session.storedToken)) && reply.Failed? ==>
                Snapshot() == old(Snapshot()).(isLoading := false)
                && (reply.status == Some(401) || reply.status == Some(403) <==> session.storedToken.None?)
                && (reply.status == Some(401) || reply.status == Some(403) ==>
                      session.user.None?
                      && session.router.history == old(session.router.history) + [Session.LOGIN_PAGE])
                && (reply.status != Some(401) && reply.status != Some(403) ==>
                      session.storedToken == old(session.storedToken) && session.user == old(session.user)
                      && session.router.history == old(session.router.history))
      ensures session.loading == old(session.loading)
    {
      if !Truthy(session.storedToken) {
        session.Logout();
        return;
      }
      if reply.Ok? {
        tasks := reply.data.0;
        users := reply.data.1;
      } else if reply.status == Some(401) || reply.status == Some(403) {
        session.Logout();
      }
      isLoading := false;
    }

    /** `handleTaskCreated`. */
    method TaskCreated(t: AssignedTask)
      modifies this
      ensures Snapshot() == old(Snapshot()).(tasks := Prepend(t, old(tasks)))
    {
      tasks := [t] + tasks;
    }

    /** `handleEditClick`. */
    method EditClick(t: AssignedTask)
      modifies this
      ensures Snapshot() == old(Snapshot()).(taskToEdit := Some(t), isEditModalOpen := true)
    {
      taskToEdit := Some(t);
      isEditModalOpen := true;
    }

    /** `handleTaskUpdated`: replace by id and close the edit modal. */
    method TaskUpdated(t: AssignedTask)
      modifies this
      ensures Snapshot() == old(Snapshot()).(tasks := ReplaceTask(old(tasks), t), isEditModalOpen := false)
    {
      tasks := ReplaceTask(tasks, t);
      isEditModalOpen := false;
    }

    /** `handleDeleteClick`. */
    method DeleteClick(id: Id)
      modifies this
      ensures Snapshot() == old(Snapshot()).(taskToDelete := Some(id), isConfirmModalOpen := true)
    {
      taskToDelete := Some(id);
      isConfirmModalOpen := true;
    }

    /** `confirmDeletion`: nothing without a task to delete; otherwise the task leaves the
        list when the DELETE request succeeded, and the modal closes either way. */
    method ConfirmDeletion(deleted: bool)
      modifies this
      ensures !Truthy(old(taskToDelete)) ==> Snapshot() == old(Snapshot())
      ensures Truthy(old(taskToDelete)) ==>
                Snapshot() == old(Snapshot()).(tasks := if deleted then RemoveTask(old(tasks), old(taskToDelete).value)
                                                        else old(tasks),
                                              isConfirmModalOpen := false, taskToDelete := None)
    {
      if !Truthy(taskToDelete) {
        return;
      }
      if deleted {
        tasks := RemoveTask(tasks, taskToDelete.value);
      }
      isConfirmModalOpen := false;
      taskToDelete := None;
    }

    /** `handleUserAdded`. */
    method UserAdded(u: UserView)
      modifies this
      ensures Snapshot() == old(Snapshot()).(users := Prepend(u, old(users)))
    {
      users := [u] + users;
    }

    /** `handleEditUserClick`. */
    method EditUserClick(u: UserView)
      modifies this
      ensures Snapshot() == old(Snapshot()).(userToEdit := Some(u), isEditUserModalOpen := true)
    {
      userToEdit := Some(u);
      isEditUserModalOpen := true;
    }

    /** `handleUserUpdated`: replace by id and close both user modals. */
    method UserUpdated(u: UserView)
      modifies this
      ensures Snapshot() == old(Snapshot()).(users := ReplaceUser(old(users), u), isEditUserModalOpen := false,
                                            isDeactivateConfirmOpen := false)
    {
      users := ReplaceUser(users, u);
      isEditUserModalOpen := false;
      isDeactivateConfirmOpen := false;
    }

    /** `handleToggleStatusClick`. */
    method ToggleStatusClick(u: UserView)
      modifies this
      ensures Snapshot() == old(Snapshot()).(userToToggleStatus := Some(u), isDeactivateConfirmOpen := true)
    {
      userToToggleStatus := Some(u);
      isDeactivateConfirmOpen := true;
    }

    /** `confirmToggleStatus`: the PATCH sent (`None` when there is no user to toggle) carries
        the user's id and `NewStatus`; the reply's user (`None` when the request failed)
        replaces the listed one; the dialog closes either way. */
    method ConfirmToggleStatus(reply: Option<UserView>) returns (sent: Option<(Id, bool)>)
      modifies this
      ensures old(userToToggleStatus).None? ==> sent.None? && Snapshot() == old(Snapshot())
      ensures old(userToToggleStatus).Some? ==>
                sent == Some((old(userToToggleStatus).value.id, NewStatus(old(userToToggleStatus).value)))
                && Snapshot() == old(Snapshot()).(users := if reply.Some? then ReplaceUser(old(users), reply.value)
                                                            else old(users),
                                                  isEditUserModalOpen := reply.None? && old(isEditUserModalOpen),
                                                  isDeactivateConfirmOpen := false, userToToggleStatus := None)
    {
      if userToToggleStatus.None? {
        return None;
      }
      var u := userToToggleStatus.value;
      sent := Some((u.id, NewStatus(u)));
      if reply.Some? {
        UserUpdated(reply.value);
      }
      isDeactivateConfirmOpen := false;
      userToToggleStatus := None;
    }
  }

  /** An edit changes only the tasks with the edited id: the others are the same tasks in the
      same order, and every task with that id is now the edited one. */
  lemma ReplaceTaskKeepsOthers(tasks: seq<AssignedTask>, t: AssignedTask)
    ensures Filter(ReplaceTask(tasks, t), (x: AssignedTask) => x.task.id != t.task.id)
            == Filter(tasks, (x: AssignedTask) => x.task.id != t.task.id)
    ensures forall x :: x in ReplaceTask(tasks, t) && x.task.id == t.task.id ==> x == t
  {
    ReplaceKeepsOthers(tasks, (x: AssignedTask) => x.task.id == t.task.id,
                       (x: AssignedTask) => x.task.id != t.task.id, t);
  }

  /** A deletion removes exactly the tasks with that id. */
  lemma RemoveTaskExact(tasks: seq<AssignedTask>, id: Id)
    ensures forall x :: x in RemoveTask(tasks, id) <==> x in tasks && x.task.id != id
    ensures |RemoveTask(tasks, id)| <= |tasks|
  {
  }

  /** Deleting a task just created, whose id no listed task has, gives back the list. */
  lemma DeleteUndoesCreate(tasks: seq<AssignedTask>, t: AssignedTask)
    requires forall i :: 0 <= i < |tasks| ==> tasks[i].task.id != t.task.id
    ensures RemoveTask(Prepend(t, tasks), t.task.id) == tasks
  {
    FilterAll(tasks, (x: AssignedTask) => x.task.id != t.task.id);
  }

  /** The filter shows every task under `all`, and otherwise exactly the tasks with that status. */
  lemma FilterShowsStatus(tasks: seq<AssignedTask>, filter: string)
    ensures filter == ALL ==> FilteredTasks(tasks, filter) == tasks
    ensures filter != ALL ==>
              forall x :: x in FilteredTasks(tasks, filter) <==> x in tasks && x.task.status == filter
  {
  }

  /** The statistics: completed tasks are the `DONE` filter and never exceed the total, and
      the `TODO` and `DONE` filters together never exceed it either. */
  lemma StatsBounded(tasks: seq<AssignedTask>)
    ensures CompletedTasks(tasks) == |FilteredTasks(tasks, DONE)| <= |tasks|
    ensures |FilteredTasks(tasks, TODO)| + |FilteredTasks(tasks, DONE)| <= |tasks|
  {
    FilterDisjointCount(tasks, (t: AssignedTask) => t.task.status == TODO, (t: AssignedTask) => t.task.status == DONE);
  }

  /** As written, the users listing carries no `isActive`, so the toggle offered on a listed
      user always sends `isActive: true`: the first toggle from the listing keeps the account active. */
  lemma ListedUserCannotBeDeactivated(u: User)
    requires u.isActive
    ensures NewStatus(Records.Project(u)) == true
    ensures NewStatus(Records.Project(u)) != !u.isActive
  {
  }

  /** With `isActive` selected, the toggle sends the negation of the stored status. */
  lemma ToggleNegatesStoredStatus(u: User)
    ensures NewStatus(UsersListApi.ProjectWithStatus(u)) == !u.isActive
  {
  }
}
