/** The task store of src/stores/tasks.ts: the same task list as
    src/stores/taskStore.ts, with the overdue getter, and actions that
    report failure through `error` and a boolean instead of throwing. */
module Tasks {
  import opened Wrappers
  import opened Session
  import opened TaskStore
  import Lists

  /** The filter of `overdueTasks`: a due date strictly before now, and not completed. */
  function IsOverdue(now: int): Task -> bool
  {
    (t: Task) => t.dueDate.Some? && t.dueDate.value < now && t.completedAt.None?
  }

  function OverdueTasks(tasks: seq<Task>, now: int): seq<Task>
  {
    Lists.Filter(tasks, IsOverdue(now))
  }

  /** An overdue task is one past its due date that does not show as
      completed, so it is pending or in progress; and a task overdue now
      stays overdue later. */
  lemma OverdueSpec(tasks: seq<Task>, now: int)
    ensures forall t :: t in OverdueTasks(tasks, now) <==>
      t in tasks && t.dueDate.Some? && t.dueDate.value < now && GetTaskStatus(t) != Completed
    ensures forall t :: t in OverdueTasks(tasks, now) ==> t in PendingTasks(tasks) || t in InProgressTasks(tasks)
    ensures forall later, t :: now <= later && t in OverdueTasks(tasks, now) ==> t in OverdueTasks(tasks, later)
  {
    StatusPartition(tasks);
    Lists.FilterMembers(tasks, IsOverdue(now));
    forall later | now <= later
      ensures forall t :: t in OverdueTasks(tasks, now) ==> t in OverdueTasks(tasks, later)
    {
      Lists.FilterMembers(tasks, IsOverdue(later));
    }
  }

  class TasksStore {
    var tasks: seq<Task>
    var isLoading: bool
    var error: Option<string>

    constructor ()
      ensures tasks == [] && !isLoading && error == None
    {
      tasks := [];
      isLoading := false;
      error := None;
    }

    /** Without a user every action only records the error and answers false. */
    twostate predicate Refused(user: Option<string>, ok: bool)
      reads this
    {
      && !SignedIn(user)
      && !ok
      && tasks == old(tasks)
      && isLoading == old(isLoading)
      && error == Some(NotAuthenticated)
    }

    /** After a successful action the store is idle and has no error. */
    predicate Settled()
      reads this
    {
      !isLoading && error == None
    }

    /** `fetchUserTasks`: the list becomes the server's list for the user. */
    method FetchUserTasks(user: Option<string>, fetched: seq<Task>) returns (ok: bool)
      modifies this
      ensures !SignedIn(user) ==> Refused(user, ok)
      ensures SignedIn(user) ==> ok && Settled() && tasks == fetched
    {
      if !SignedIn(user) {
        error := Some(NotAuthenticated);
        return false;
      }
      isLoading := true;
      error := None;
      tasks := fetched;
      isLoading := false;
      ok := true;
    }

    /** `createTask`: the task the server created is appended. */
    method CreateTask(user: Option<string>, created: Task) returns (ok: bool)
      modifies this
      ensures !SignedIn(user) ==> Refused(user, ok)
      ensures SignedIn(user) ==> ok && Settled() && tasks == old(tasks) + [created]
    {
      if !SignedIn(user) {
        error := Some(NotAuthenticated);
        return false;
      }
      isLoading := true;
      error := None;
      tasks := tasks + [created];
      isLoading := false;
      ok := true;
    }

    /** `updateTask`: the server's version replaces the first task with
        that id; an absent id leaves the list as it was. */
    method UpdateTask(user: Option<string>, taskId: string, updated: Task) returns (ok: bool)
      modifies this
      ensures !SignedIn(user) ==> Refused(user, ok)
      ensures SignedIn(user) ==> ok && Settled() && |tasks| == |old(tasks)|
      ensures SignedIn(user) ==> forall j :: 0 <= j < |tasks| ==>
        tasks[j] == if j == IndexOfTask(old(tasks), taskId) then updated else old(tasks)[j]
    {
      if !SignedIn(user) {
        error := Some(NotAuthenticated);
        return false;
      }
      isLoading := true;
      error := None;
      var index := IndexOfTask(tasks, taskId);
      if index != -1 {
        tasks := tasks[index := updated];
      }
      isLoading := false;
      ok := true;
    }

    /** `markTaskStarted`: the first task with that id gets `startedAt := now`. */
    method MarkTaskStarted(user: Option<string>, taskId: string, now: int) returns (ok: bool)
      modifies this
      ensures !SignedIn(user) ==> Refused(user, ok)
      ensures SignedIn(user) ==> ok && Settled() && |tasks| == |old(tasks)|
      ensures SignedIn(user) ==> forall j :: 0 <= j < |tasks| ==>
        tasks[j] == if j == IndexOfTask(old(tasks), taskId)
                    then old(tasks)[j].(startedAt := Some(now)) else old(tasks)[j]
      ensures SignedIn(user) && IndexOfTask(old(tasks), taskId) >= 0 ==>
        var i := IndexOfTask(old(tasks), taskId);
        GetTaskStatus(tasks[i]) == if old(tasks)[i].completedAt.Some? then Completed else InProgress
    {
      if !SignedIn(user) {
        error := Some(NotAuthenticated);
        return false;
      }
      isLoading := true;
      error := None;
      var index := IndexOfTask(tasks, taskId);
      if index != -1 {
        tasks := tasks[index := tasks[index].(startedAt := Some(now))];
      }
      isLoading := false;
      ok := true;
    }

    /** `markTaskComplete`: the first task with that id gets `completedAt := now`,
        so it shows as completed and is no longer overdue. */
    method MarkTaskComplete(user: Option<string>, taskId: string, now: int) returns (ok: bool)
      modifies this
      ensures !SignedIn(user) ==> Refused(user, ok)
      ensures SignedIn(user) ==> ok && Settled() && |tasks| == |old(tasks)|
      ensures SignedIn(user) ==> forall j :: 0 <= j < |tasks| ==>
        tasks[j] == if j == IndexOfTask(old(tasks), taskId)
                    then old(tasks)[j].(completedAt := Some(now)) else old(tasks)[j]
      ensures SignedIn(user) && IndexOfTask(old(tasks), taskId) >= 0 ==>
        var i := IndexOfTask(old(tasks), taskId);
        GetTaskStatus(tasks[i]) == Completed && !IsOverdue(now)(tasks[i])
    {
      if !SignedIn(user) {
        error := Some(NotAuthenticated);
        return false;
      }
      isLoading := true;
      error := None;
      var index := IndexOfTask(tasks, taskId);
      if index != -1 {
        tasks := tasks[index := tasks[index].(completedAt := Some(now))];
      }
      isLoading := false;
      ok := true;
    }

    /** `deleteTask`: every task with that id leaves the list. */
    method DeleteTask(user: Option<string>, taskId: string) returns (ok: bool)
      modifies this
      ensures !SignedIn(user) ==> Refused(user, ok)
      ensures SignedIn(user) ==> ok && Settled() && tasks == WithoutTask(old(tasks), taskId)
    {
      if !SignedIn(user) {
        error := Some(NotAuthenticated);
        return false;
      }
      isLoading := true;
      error := None;
      tasks := WithoutTask(tasks, taskId);
      isLoading := false;
      ok := true;
    }

    /** `deleteAllUserTasks`: the list is emptied. */
    method DeleteAllUserTasks(user: Option<string>) returns (ok: bool)
      modifies this
      ensures !SignedIn(user) ==> Refused(user, ok)
      ensures SignedIn(user) ==> ok && Settled() && tasks == []
    {
      if !SignedIn(user) {
        error := Some(NotAuthenticated);
        return false;
      }
      isLoading := true;
      error := None;
      tasks := [];
      isLoading := false;
      ok := true;
    }

    /** `clearTasks`: empties the list and nothing else. */
    method ClearTasks()
      modifies this
      ensures tasks == [] && isLoading == old(isLoading) && error == old(error)
    {
      tasks := [];
    }
  }
}
