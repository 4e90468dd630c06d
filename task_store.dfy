/** The task store of src/stores/taskStore.ts: the local list of tasks,
    its status getters and lookups, and the local part of each action
    (the server call is taken to have succeeded). */
module TaskStore {
  import opened Wrappers
  import opened Session
  import Lists

  /** A task; `startedAt`, `completedAt` and `dueDate` are optional timestamps. */
  datatype Task = Task(
    id: string,
    user: string,
    title: string,
    description: string,
    createdAt: int,
    startedAt: Option<int>,
    completedAt: Option<int>,
    dueDate: Option<int>)

  datatype Status = Pending | InProgress | Completed

  /** The status shown for a task: completion wins over start. */
  function GetTaskStatus(task: Task): Status
  {
    if task.completedAt.Some? then Completed
    else if task.startedAt.Some? then InProgress
    else Pending
  }

  /** The filter of `pendingTasks`: neither started nor completed. */
  predicate IsPending(task: Task)
  {
    task.startedAt.None? && task.completedAt.None?
  }

  /** The filter of `inProgressTasks`: started and not completed. */
  predicate IsInProgress(task: Task)
  {
    task.startedAt.Some? && task.completedAt.None?
  }

  /** The filter of `completedTasks`: completed. */
  predicate IsCompleted(task: Task)
  {
    task.completedAt.Some?
  }

  function PendingTasks(tasks: seq<Task>): seq<Task>
  {
    Lists.Filter(tasks, IsPending)
  }

  function InProgressTasks(tasks: seq<Task>): seq<Task>
  {
    Lists.Filter(tasks, IsInProgress)
  }

  function CompletedTasks(tasks: seq<Task>): seq<Task>
  {
    Lists.Filter(tasks, IsCompleted)
  }

  /** The three status getters agree with `GetTaskStatus` and together
      hold every task exactly once. */
  lemma StatusPartition(tasks: seq<Task>)
    ensures forall t :: t in PendingTasks(tasks) <==> t in tasks && GetTaskStatus(t) == Pending
    ensures forall t :: t in InProgressTasks(tasks) <==> t in tasks && GetTaskStatus(t) == InProgress
    ensures forall t :: t in CompletedTasks(tasks) <==> t in tasks && GetTaskStatus(t) == Completed
    ensures multiset(PendingTasks(tasks)) + multiset(InProgressTasks(tasks)) + multiset(CompletedTasks(tasks))
         == multiset(tasks)
  {
    Lists.FilterSplit3(tasks, IsPending, IsInProgress, IsCompleted);
    Lists.FilterMembers(tasks, IsPending);
    Lists.FilterMembers(tasks, IsInProgress);
    Lists.FilterMembers(tasks, IsCompleted);
  }

  /** The counts shown by `taskCount`. */
  datatype TaskCount = TaskCount(total: nat, pending: nat, inProgress: nat, completed: nat)

  function CountTasks(tasks: seq<Task>): (c: TaskCount)
    ensures c.total == c.pending + c.inProgress + c.completed
  {
    Lists.FilterSplit3(tasks, IsPending, IsInProgress, IsCompleted);
    TaskCount(|tasks|, |PendingTasks(tasks)|, |InProgressTasks(tasks)|, |CompletedTasks(tasks)|)
  }

  /** Starting a pending task moves it from the pending count to the
      in-progress count. */
  lemma StartCounts(tasks: seq<Task>, i: int, now: int)
    requires 0 <= i < |tasks| && IsPending(tasks[i])
    ensures var c, d := CountTasks(tasks), CountTasks(tasks[i := tasks[i].(startedAt := Some(now))]);
      && d.total == c.total && d.completed == c.completed
      && d.pending == c.pending - 1 && d.inProgress == c.inProgress + 1
  {
    var started := tasks[i].(startedAt := Some(now));
    Lists.FilterCountUpdate(tasks, i, started, IsPending);
    Lists.FilterCountUpdate(tasks, i, started, IsInProgress);
    Lists.FilterCountUpdate(tasks, i, started, IsCompleted);
  }

  /** Completing a task that is not yet completed moves it to the
      completed count from whichever count it was in. */
  lemma CompleteCounts(tasks: seq<Task>, i: int, now: int)
    requires 0 <= i < |tasks| && !IsCompleted(tasks[i])
    ensures var c, d := CountTasks(tasks), CountTasks(tasks[i := tasks[i].(completedAt := Some(now))]);
      && d.total == c.total && d.completed == c.completed + 1
      && d.pending + d.inProgress == c.pending + c.inProgress - 1
  {
    var completed := tasks[i].(completedAt := Some(now));
    Lists.FilterCountUpdate(tasks, i, completed, IsPending);
    Lists.FilterCountUpdate(tasks, i, completed, IsInProgress);
    Lists.FilterCountUpdate(tasks, i, completed, IsCompleted);
  }

  /** The `_id` test every lookup by id uses. */
  function IdIs(id: string): Task -> bool
  {
    (t: Task) => t.id == id
  }

  /** The `_id !== id` test of the delete actions. */
  function IdIsNot(id: string): Task -> bool
  {
    (t: Task) => t.id != id
  }

  /** `findIndex(t => t._id === id)`. */
  function IndexOfTask(tasks: seq<Task>, id: string): (i: int)
    ensures -1 <= i < |tasks|
    ensures i == -1 <==> forall j :: 0 <= j < |tasks| ==> tasks[j].id != id
    ensures 0 <= i ==> tasks[i].id == id && forall j :: 0 <= j < i ==> tasks[j].id != id
  {
    Lists.FindIndex(tasks, IdIs(id))
  }

  /** `getTaskById`: the first task whose id matches. */
  function GetTaskById(tasks: seq<Task>, id: string): (r: Option<Task>)
    ensures r.None? <==> forall j :: 0 <= j < |tasks| ==> tasks[j].id != id
    ensures r.Some? ==> r.value.id == id
    ensures r.Some? ==> exists i :: 0 <= i < |tasks| && tasks[i] == r.value && forall j :: 0 <= j < i ==> tasks[j].id != id
  {
    var i := IndexOfTask(tasks, id);
    if i == -1 then None else Some(tasks[i])
  }

  /** The list left by a delete: every task with another id, in order. */
  function WithoutTask(tasks: seq<Task>, id: string): seq<Task>
  {
    Lists.Filter(tasks, IdIsNot(id))
  }

  /** Deleting removes every task with that id, keeps every other task,
      and keeps the survivors in their order. */
  lemma WithoutTaskSpec(tasks: seq<Task>, id: string)
    ensures forall t :: t in WithoutTask(tasks, id) <==> t in tasks && t.id != id
    ensures Lists.IsSubsequence(WithoutTask(tasks, id), tasks)
    ensures |WithoutTask(tasks, id)| + |Lists.Filter(tasks, IdIs(id))| == |tasks|
  {
    Lists.FilterKeepsOrder(tasks, IdIsNot(id));
    Lists.FilterSplit(tasks, IdIsNot(id), IdIs(id));
    Lists.FilterMembers(tasks, IdIsNot(id));
  }

  class TaskStore {
    var tasks: seq<Task>
    var isLoading: bool
    var error: Option<string>

    constructor ()
      ensures tasks == [] && !isLoading && error == None
    {
      tasks := [];
      isLoading := false;
      error := None;
    }

    /** `fetchTasks`: without a user it throws before touching the state;
        otherwise the list becomes the server's list for the user. */
    method FetchTasks(userId: Option<string>, fetched: seq<Task>) returns (r: Outcome<string>)
      modifies this
      ensures !SignedIn(userId) ==> r == Fail(NotAuthenticated) && unchanged(this)
      ensures SignedIn(userId) ==> r == Pass && tasks == fetched && !isLoading && error == None
    {
      if !SignedIn(userId) {
        return Fail(NotAuthenticated);
      }
      isLoading := true;
      error := None;
      tasks := fetched;
      isLoading := false;
      r := Pass;
    }

    /** `addTask`: the server creates the task and answers with its id,
        then the list is reloaded from the server (`refreshed`). */
    method AddTask(userId: Option<string>, createdId: string, refreshed: seq<Task>) returns (r: Result<string, string>)
      modifies this
      ensures !SignedIn(userId) ==> r == Failure(NotAuthenticated) && unchanged(this)
      ensures SignedIn(userId) ==> r == Success(createdId) && tasks == refreshed && !isLoading && error == None
    {
      if !SignedIn(userId) {
        return Failure(NotAuthenticated);
      }
      isLoading := true;
      error := None;
      var _ := FetchTasks(userId, refreshed);
      isLoading := false;
      r := Success(createdId);
    }

    /** `updateTask`: the server applies the change, then the list is
        reloaded from the server (`refreshed`). */
    method UpdateTask(userId: Option<string>, refreshed: seq<Task>) returns (r: Outcome<string>)
      modifies this
      ensures !SignedIn(userId) ==> r == Fail(NotAuthenticated) && unchanged(this)
      ensures SignedIn(userId) ==> r == Pass && tasks == refreshed && !isLoading && error == None
    {
      if !SignedIn(userId) {
        return Fail(NotAuthenticated);
      }
      isLoading := true;
      error := None;
      var _ := FetchTasks(userId, refreshed);
      isLoading := false;
      r := Pass;
    }

    /** `deleteTask`: without a user it throws before touching the state;
        otherwise every task with that id leaves the list. */
    method DeleteTask(userId: Option<string>, taskId: string) returns (r: Outcome<string>)
      modifies this
      ensures !SignedIn(userId) ==> r == Fail(NotAuthenticated) && unchanged(this)
      ensures SignedIn(userId) ==> r == Pass && !isLoading && error == None
      ensures SignedIn(userId) ==> tasks == WithoutTask(old(tasks), taskId)
    {
      if !SignedIn(userId) {
        return Fail(NotAuthenticated);
      }
      isLoading := true;
      error := None;
      tasks := WithoutTask(tasks, taskId);
      isLoading := false;
      r := Pass;
    }

    /** `markStarted`: the first task with that id gets `startedAt := now`
        (and so shows as in progress unless it is completed); every other
        entry is untouched, and an absent id changes no task. */
    method MarkStarted(userId: Option<string>, taskId: string, now: int) returns (r: Outcome<string>)
      modifies this
      ensures !SignedIn(userId) ==> r == Fail(NotAuthenticated) && unchanged(this)
      ensures SignedIn(userId) ==> r == Pass && !isLoading && error == None
      ensures SignedIn(userId) ==> |tasks| == |old(tasks)|
      ensures SignedIn(userId) ==> forall j :: 0 <= j < |tasks| ==>
        tasks[j] == if j == IndexOfTask(old(tasks), taskId)
                    then old(tasks)[j].(startedAt := Some(now)) else old(tasks)[j]
      ensures SignedIn(userId) && IndexOfTask(old(tasks), taskId) >= 0 ==>
        var i := IndexOfTask(old(tasks), taskId);
        GetTaskStatus(tasks[i]) == if old(tasks)[i].completedAt.Some? then Completed else InProgress
    {
      if !SignedIn(userId) {
        return Fail(NotAuthenticated);
      }
      isLoading := true;
      error := None;
      var taskIndex := IndexOfTask(tasks, taskId);
      if taskIndex != -1 {
        tasks := tasks[taskIndex := tasks[taskIndex].(startedAt := Some(now))];
      }
      isLoading := false;
      r := Pass;
    }

    /** `markCompleted`: the first task with that id gets
        `completedAt := now` and so shows as completed; every other entry
        is untouched, and an absent id changes no task. */
    method MarkCompleted(userId: Option<string>, taskId: string, now: int) returns (r: Outcome<string>)
      modifies this
      ensures !SignedIn(userId) ==> r == Fail(NotAuthenticated) && unchanged(this)
      ensures SignedIn(userId) ==> r == Pass && !isLoading && error == None
      ensures SignedIn(userId) ==> |tasks| == |old(tasks)|
      ensures SignedIn(userId) ==> forall j :: 0 <= j < |tasks| ==>
        tasks[j] == if j == IndexOfTask(old(tasks), taskId)
                    then old(tasks)[j].(completedAt := Some(now)) else old(tasks)[j]
      ensures SignedIn(userId) && IndexOfTask(old(tasks), taskId) >= 0 ==>
        GetTaskStatus(tasks[IndexOfTask(old(tasks), taskId)]) == Completed
    {
      if !SignedIn(userId) {
        return Fail(NotAuthenticated);
      }
      isLoading := true;
      error := None;
      var taskIndex := IndexOfTask(tasks, taskId);
      if taskIndex != -1 {
        tasks := tasks[taskIndex := tasks[taskIndex].(completedAt := Some(now))];
      }
      isLoading := false;
      r := Pass;
    }

    /** `clearTasks` (used on logout). */
    method ClearTasks()
      modifies this
      ensures tasks == [] && error == None && !isLoading
    {
      tasks := [];
      error := None;
      isLoading := false;
    }
  }
}
