/** `pages/dashboard.js`: the employee's page. It lists the employee's tasks, splits them into
    to-do, done and overdue, and toggles a task's status optimistically. */
module EmployeeDashboard {
  import opened Wrappers
  import opened Records
  import opened Sequences
  import opened Http
  import Session

  /** The checkbox: `DONE` goes back to `TODO`, any other status becomes `DONE`. */
  function NextStatus(status: string): (next: string)
    ensures next == TODO <==> status == DONE
    ensures next == DONE <==> status != DONE
  {
    if status == DONE then TODO else DONE
  }

  /** On the two statuses the page creates, the toggle is its own inverse. */
  lemma ToggleTwice(status: string)
    requires status == TODO || status == DONE
    ensures NextStatus(NextStatus(status)) == status
  {
  }

  /** `TaskItem`'s red border: the deadline has passed and the task is not done. */
  predicate IsOverdue(t: Task, nowMs: int) {
    t.deadline < nowMs && t.status != DONE
  }

  /** `tasks.filter(t => t.status === 'TODO')`. */
  function TasksTodo(tasks: seq<Task>): seq<Task> {
    Filter(tasks, (t: Task) => t.status == TODO)
  }

  /** `tasks.filter(t => t.status === 'DONE')`. */
  function TasksDone(tasks: seq<Task>): seq<Task> {
    Filter(tasks, (t: Task) => t.status == DONE)
  }

  /** `tasksTodo.filter(t => new Date(t.deadline) < new Date())`. */
  function OverdueTasks(tasks: seq<Task>, nowMs: int): seq<Task> {
    Filter(TasksTodo(tasks), (t: Task) => t.deadline < nowMs)
  }

  /** `tasks.map(t => t.id === id ? { ...t, status } : t)`. */
  function WithStatus(tasks: seq<Task>, id: Id, status: string): (r: seq<Task>)
    ensures |r| == |tasks|
    ensures forall i :: 0 <= i < |tasks| ==> r[i] == (if tasks[i].id == id then tasks[i].(status := status) else tasks[i])
  {
    seq(|tasks|, i requires 0 <= i < |tasks| => if tasks[i].id == id then tasks[i].(status := status) else tasks[i])
  }

  /** The optimistic update changes the status of the tasks with that id and nothing else:
      every task keeps its id, title, description, deadline, assignee and creation time. */
  lemma WithStatusChangesOnlyStatus(tasks: seq<Task>, id: Id, status: string)
    ensures forall i :: 0 <= i < |tasks| ==>
              WithStatus(tasks, id, status)[i].(status := tasks[i].status) == tasks[i]
    ensures forall i :: 0 <= i < |tasks| ==>
              WithStatus(tasks, id, status)[i].status == (if tasks[i].id == id then status else tasks[i].status)
  {
  }

  /** The to-do and done lists are sub-lists of the tasks with no task in both, so together
      they are never longer than the list. */
  lemma PartitionsDisjoint(tasks: seq<Task>)
    ensures multiset(TasksTodo(tasks)) <= multiset(tasks) && multiset(TasksDone(tasks)) <= multiset(tasks)
    ensures forall t :: t in TasksTodo(tasks) ==> t !in TasksDone(tasks)
    ensures |TasksTodo(tasks)| + |TasksDone(tasks)| <= |tasks|
  {
    FilterDisjointCount(tasks, (t: Task) => t.status == TODO, (t: Task) => t.status == DONE);
  }

  /** The overdue list is part of the to-do list, and holds exactly the to-do tasks the red
      border marks as overdue. */
  lemma OverdueAreTodo(tasks: seq<Task>, nowMs: int)
    ensures forall t :: t in OverdueTasks(tasks, nowMs) ==> t in TasksTodo(tasks)
    ensures forall t :: t in OverdueTasks(tasks, nowMs) <==> t in tasks && t.status == TODO && IsOverdue(t, nowMs)
  {
  }

  /** The page's state. */
  class Dashboard {
    var tasks: seq<Task>
    var isLoading: bool
    const session: Session.AuthProvider

    /** The initial state of the page. */
    constructor(s: Session.AuthProvider)
      ensures session == s && tasks == [] && isLoading
    {
      session := s;
      tasks := [];
      isLoading := true;
    }

    /** `fetchTasks`: loading starts; without a stored token the page logs out and stops
        (loading stays on); otherwise it installs the tasks, or logs out on a 401, and
        stops loading. */
    method FetchTasks(reply: Session.Reply<seq<Task>>)
      modifies this, session, session.router
      ensures !Truthy(old(session.storedToken)) ==>
                tasks == old(tasks) && isLoading
                && session.storedToken.None? && session.user.None?
                && session.router.history == old(session.router.history) + [Session.LOGIN_PAGE]
      ensures Truthy(old(session.storedToken)) ==>
                !isLoading && tasks == (if reply.Ok? then reply.data else old(tasks))
                && (reply == Session.Failed(Some(401)) <==> session.storedToken.None?)
                && (reply == Session.Failed(Some(401)) ==>
                      session.user.None?
                      && session.router.history == old(session.router.history) + [Session.LOGIN_PAGE])
                && (reply != Session.Failed(Some(401)) ==>
                      session.storedToken == old(session.storedToken) && session.user == old(session.user)
                      && session.router.history == old(session.router.history))
      ensures session.loading == old(session.loading)
    {
      isLoading := true;
      if !Truthy(session.storedToken) {
        session.Logout();
        return;
      }
      if reply.Ok? {
        tasks := reply.data;
      } else if reply.status == Some(401) {
        session.Logout();
      }
      isLoading := false;
    }

    /** `handleUpdateTaskStatus`: the list is updated at once, and restored exactly to what
        it was when the PATCH request fails. */
    method UpdateTaskStatus(id: Id, status: string, patched: bool)
      modifies this
      ensures tasks == (if patched then WithStatus(old(tasks), id, status) else old(tasks))
      ensures isLoading == old(isLoading)
    {
      var originalTasks := tasks;
      tasks := WithStatus(tasks, id, status);
      if !patched {
        tasks := originalTasks;
      }
    }

    /** The checkbox of a listed task: the new status is the toggle of the task's status. */
    method CheckboxChange(t: Task, patched: bool)
      modifies this
      ensures tasks == (if patched then WithStatus(old(tasks), t.id, NextStatus(t.status)) else old(tasks))
      ensures isLoading == old(isLoading)
    {
      UpdateTaskStatus(t.id, NextStatus(t.status), patched);
    }
  }

  /** Checking a to-do task moves it from the to-do list to the done list (ids are unique). */
  lemma CheckingMovesToDone(tasks: seq<Task>, i: nat)
    requires i < |tasks| && tasks[i].status == TODO
    requires forall j :: 0 <= j < |tasks| && j != i ==> tasks[j].id != tasks[i].id
    ensures tasks[i].(status := DONE) in TasksDone(WithStatus(tasks, tasks[i].id, NextStatus(tasks[i].status)))
    ensures tasks[i] !in TasksTodo(WithStatus(tasks, tasks[i].id, NextStatus(tasks[i].status)))
  {
    var r := WithStatus(tasks, tasks[i].id, NextStatus(tasks[i].status));
    assert r[i] == tasks[i].(status := DONE);
    assert r[i] in r;
  }
}
