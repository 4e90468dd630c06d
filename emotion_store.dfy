/** The emotion log store of src/stores/emotionStore.ts: the user's
    before/after emotion logs, split by phase and grouped by task, and the
    local part of its actions. */
module EmotionStore {
  import opened Wrappers
  import opened Session
  import Lists

  datatype Phase = Before | After

  /** One logged emotion; `createdAt` is a timestamp. */
  datatype EmotionLog = EmotionLog(id: string, user: string, task: string, phase: Phase, emotion: string, createdAt: int)

  datatype Trend = Improving | Declining | Stable | InsufficientData

  /** The server's statistics, kept as they arrive. */
  datatype EmotionStats = EmotionStats(totalLogs: int, mostCommonEmotion: Option<string>, leastCommonEmotion: Option<string>, recentTrend: Trend)

  /** The server's answer to `getEmotionsForTask`: the emotion recorded
      before and after the task, each optional. */
  datatype TaskEmotions = TaskEmotions(task: string, before: Option<string>, after: Option<string>)

  /** One entry of `logsByTask`: the log kept for each phase, if any. */
  datatype TaskLogs = TaskLogs(before: Option<EmotionLog>, after: Option<EmotionLog>)

  predicate IsBefore(log: EmotionLog)
  {
    log.phase == Before
  }

  predicate IsAfter(log: EmotionLog)
  {
    log.phase == After
  }

  function BeforeLogs(logs: seq<EmotionLog>): seq<EmotionLog>
  {
    Lists.Filter(logs, IsBefore)
  }

  function AfterLogs(logs: seq<EmotionLog>): seq<EmotionLog>
  {
    Lists.Filter(logs, IsAfter)
  }

  predicate HasLogs(logs: seq<EmotionLog>)
  {
    |logs| > 0
  }

  /** The before and after logs split the list: together they hold every
      log exactly as often, and a log is in one exactly when it has that
      phase. */
  lemma PhasePartition(logs: seq<EmotionLog>)
    ensures multiset(BeforeLogs(logs)) + multiset(AfterLogs(logs)) == multiset(logs)
    ensures |BeforeLogs(logs)| + |AfterLogs(logs)| == |logs|
    ensures forall log :: log in BeforeLogs(logs) <==> log in logs && log.phase == Before
    ensures forall log :: log in AfterLogs(logs) <==> log in logs && log.phase == After
  {
    Lists.FilterSplit(logs, IsBefore, IsAfter);
    Lists.FilterMembers(logs, IsBefore);
    Lists.FilterMembers(logs, IsAfter);
  }

  /** `hasLogs` holds exactly when some log has either phase. */
  lemma HasLogsSpec(logs: seq<EmotionLog>)
    ensures HasLogs(logs) <==> BeforeLogs(logs) != [] || AfterLogs(logs) != []
  {
    PhasePartition(logs);
  }

  predicate Matches(task: string, phase: Phase, log: EmotionLog)
  {
    log.task == task && log.phase == phase
  }

  /** The last log, in list order, for the task and phase. */
  function LastLog(logs: seq<EmotionLog>, task: string, phase: Phase): (r: Option<EmotionLog>)
    ensures r.None? <==> forall i :: 0 <= i < |logs| ==> !Matches(task, phase, logs[i])
    ensures r.Some? ==>
      exists i :: 0 <= i < |logs| && logs[i] == r.value && Matches(task, phase, logs[i])
        && forall j :: i < j < |logs| ==> !Matches(task, phase, logs[j])
    decreases |logs|
  {
    if logs == [] then None
    else
      var init, last := logs[..|logs| - 1], logs[|logs| - 1];
      assert logs == init + [last];
      if Matches(task, phase, last) then Some(last) else LastLog(init, task, phase)
  }

  /** `logsByTask`: a map from each task that has logs to the last log of
      each phase for it, filled in one pass over the list. */
  method LogsByTask(logs: seq<EmotionLog>) returns (grouped: map<string, TaskLogs>)
    ensures forall t :: t in grouped <==> exists i :: 0 <= i < |logs| && logs[i].task == t
    ensures forall t :: t in grouped ==>
      grouped[t] == TaskLogs(LastLog(logs, t, Before), LastLog(logs, t, After))
  {
    grouped := map[];
    for i := 0 to |logs|
      invariant Grouped(grouped, logs[..i])
    {
      var log := logs[i];
      ghost var before := grouped;
      if log.task !in grouped {
        grouped := grouped[log.task := TaskLogs(None, None)];
      }
      var entry := grouped[log.task];
      if log.phase == Before {
        grouped := grouped[log.task := entry.(before := Some(log))];
      } else {
        grouped := grouped[log.task := entry.(after := Some(log))];
      }
      GroupStep(before, grouped, logs[..i], log, logs[..i + 1]);
    }
    assert logs[..|logs|] == logs;
  }

  /** The map holds exactly the tasks of `seen`, each with the last log of
      each phase. */
  ghost predicate Grouped(grouped: map<string, TaskLogs>, seen: seq<EmotionLog>)
  {
    && (forall t :: t in grouped <==> exists j :: 0 <= j < |seen| && seen[j].task == t)
    && (forall t :: t in grouped ==>
          grouped[t] == TaskLogs(LastLog(seen, t, Before), LastLog(seen, t, After)))
  }

  /** The entry `log` leaves behind in its task's slot. */
  function Placed(entry: TaskLogs, log: EmotionLog): TaskLogs
  {
    if log.phase == Before then entry.(before := Some(log)) else entry.(after := Some(log))
  }

  /** One step of the grouping loop keeps the map grouped. */
  lemma GroupStep(before: map<string, TaskLogs>, after: map<string, TaskLogs>, seen: seq<EmotionLog>, x: EmotionLog, next: seq<EmotionLog>)
    requires next == seen + [x]
    requires Grouped(before, seen)
    requires after == before[x.task := Placed(if x.task in before then before[x.task] else TaskLogs(None, None), x)]
    ensures Grouped(after, next)
  {
    assert after.Keys == before.Keys + {x.task};
    GroupKeys(before, after, seen, x, next);
    forall t | t in after
      ensures after[t] == TaskLogs(LastLog(next, t, Before), LastLog(next, t, After))
    {
      GroupEntry(before, after, seen, x, t);
    }
  }

  /** One step of the grouping loop adds exactly the new log's task to the
      keys. */
  lemma GroupKeys(before: map<string, TaskLogs>, after: map<string, TaskLogs>, seen: seq<EmotionLog>, x: EmotionLog, next: seq<EmotionLog>)
    requires next == seen + [x]
    requires forall t :: t in before <==> exists j :: 0 <= j < |seen| && seen[j].task == t
    requires after.Keys == before.Keys + {x.task}
    ensures forall t :: t in after <==> exists j :: 0 <= j < |next| && next[j].task == t
  {
    forall t
      ensures t in after <==> exists j :: 0 <= j < |next| && next[j].task == t
    {
      if t in after {
        if t == x.task {
          assert next[|seen|].task == t;
        } else {
          var j :| 0 <= j < |seen| && seen[j].task == t;
          assert next[j].task == t;
        }
      }
      if exists j :: 0 <= j < |next| && next[j].task == t {
        var j :| 0 <= j < |next| && next[j].task == t;
        if j < |seen| {
          assert seen[j].task == t;
        }
      }
    }
  }

  /** The last log of a phase over one more log. */
  lemma LastLogSnoc(seen: seq<EmotionLog>, x: EmotionLog, t: string, phase: Phase)
    ensures LastLog(seen + [x], t, phase) == if Matches(t, phase, x) then Some(x) else LastLog(seen, t, phase)
  {
    assert (seen + [x])[..|seen|] == seen;
  }

  /** One step of the grouping loop leaves every entry holding the last
      log of each phase. */
  lemma GroupEntry(before: map<string, TaskLogs>, after: map<string, TaskLogs>, seen: seq<EmotionLog>, x: EmotionLog, t: string)
    requires after == before[x.task := Placed(if x.task in before then before[x.task] else TaskLogs(None, None), x)]
    requires t in after
    requires t in before ==> before[t] == TaskLogs(LastLog(seen, t, Before), LastLog(seen, t, After))
    requires t !in before ==> forall j :: 0 <= j < |seen| ==> seen[j].task != t
    ensures after[t] == TaskLogs(LastLog(seen + [x], t, Before), LastLog(seen + [x], t, After))
  {
    LastLogSnoc(seen, x, t, Before);
    LastLogSnoc(seen, x, t, After);
    if t == x.task && t !in before {
      assert forall j :: 0 <= j < |seen| ==> !Matches(t, Before, seen[j]);
      assert forall j :: 0 <= j < |seen| ==> !Matches(t, After, seen[j]);
    }
  }

  /** The `task !== taskId` test of `deleteTaskLogs`. */
  function TaskIsNot(taskId: string): EmotionLog -> bool
  {
    (log: EmotionLog) => log.task != taskId
  }

  function WithoutTaskLogs(logs: seq<EmotionLog>, taskId: string): seq<EmotionLog>
  {
    Lists.Filter(logs, TaskIsNot(taskId))
  }

  /** Removing a task's logs keeps exactly the other logs, in order. */
  lemma WithoutTaskLogsSpec(logs: seq<EmotionLog>, taskId: string)
    ensures forall log :: log in WithoutTaskLogs(logs, taskId) <==> log in logs && log.task != taskId
    ensures Lists.IsSubsequence(WithoutTaskLogs(logs, taskId), logs)
  {
    Lists.FilterKeepsOrder(logs, TaskIsNot(taskId));
    Lists.FilterMembers(logs, TaskIsNot(taskId));
  }

  class EmotionStore {
    var emotionLogs: seq<EmotionLog>
    var stats: Option<EmotionStats>
    var analysis: Option<string>
    var isLoading: bool
    var error: Option<string>

    constructor ()
      ensures emotionLogs == [] && stats == None && analysis == None && Settled()
    {
      emotionLogs := [];
      stats := None;
      analysis := None;
      isLoading := false;
      error := None;
    }

    predicate Settled()
      reads this
    {
      !isLoading && error == None
    }

    /** `logBefore`: the server records the log and the list is reloaded;
        the new log's id is answered. */
    method LogBefore(userId: Option<string>, createdId: string, refreshed: seq<EmotionLog>) returns (r: Result<string, string>)
      modifies this
      ensures !SignedIn(userId) ==> r == Failure(NotAuthenticated) && unchanged(this)
      ensures SignedIn(userId) ==> r == Success(createdId) && Settled() && emotionLogs == refreshed
      ensures stats == old(stats) && analysis == old(analysis)
    {
      if !SignedIn(userId) {
        return Failure(NotAuthenticated);
      }
      isLoading := true;
      error := None;
      emotionLogs := refreshed;
      isLoading := false;
      r := Success(createdId);
    }

    /** `logAfter`: as `logBefore`, for the after phase. */
    method LogAfter(userId: Option<string>, createdId: string, refreshed: seq<EmotionLog>) returns (r: Result<string, string>)
      modifies this
      ensures !SignedIn(userId) ==> r == Failure(NotAuthenticated) && unchanged(this)
      ensures SignedIn(userId) ==> r == Success(createdId) && Settled() && emotionLogs == refreshed
      ensures stats == old(stats) && analysis == old(analysis)
    {
      if !SignedIn(userId) {
        return Failure(NotAuthenticated);
      }
      isLoading := true;
      error := None;
      emotionLogs := refreshed;
      isLoading := false;
      r := Success(createdId);
    }

    /** `deleteTaskLogs`: the task's logs leave the local list. */
    method DeleteTaskLogs(userId: Option<string>, taskId: string) returns (r: Outcome<string>)
      modifies this
      ensures !SignedIn(userId) ==> r == Fail(NotAuthenticated) && unchanged(this)
      ensures SignedIn(userId) ==> r == Pass && Settled() && emotionLogs == WithoutTaskLogs(old(emotionLogs), taskId)
      ensures stats == old(stats) && analysis == old(analysis)
    {
      if !SignedIn(userId) {
        return Fail(NotAuthenticated);
      }
      isLoading := true;
      error := None;
      emotionLogs := WithoutTaskLogs(emotionLogs, taskId);
      isLoading := false;
      r := Pass;
    }

    /** `deleteUserLogs`: no logs, no statistics, no analysis. */
    method DeleteUserLogs(userId: Option<string>) returns (r: Outcome<string>)
      modifies this
      ensures !SignedIn(userId) ==> r == Fail(NotAuthenticated) && unchanged(this)
      ensures SignedIn(userId) ==> r == Pass && Settled() && emotionLogs == [] && stats == None && analysis == None
    {
      if !SignedIn(userId) {
        return Fail(NotAuthenticated);
      }
      isLoading := true;
      error := None;
      emotionLogs := [];
      stats := None;
      analysis := None;
      isLoading := false;
      r := Pass;
    }

    /** `fetchEmotionStats`: keeps the server's statistics. */
    method FetchEmotionStats(userId: Option<string>, fetched: EmotionStats) returns (r: Outcome<string>)
      modifies this
      ensures !SignedIn(userId) ==> r == Fail(NotAuthenticated) && unchanged(this)
      ensures SignedIn(userId) ==> r == Pass && Settled() && stats == Some(fetched)
      ensures emotionLogs == old(emotionLogs) && analysis == old(analysis)
    {
      if !SignedIn(userId) {
        return Fail(NotAuthenticated);
      }
      isLoading := true;
      error := None;
      stats := Some(fetched);
      isLoading := false;
      r := Pass;
    }

    /** `analyzeRecentEmotions`: keeps the server's analysis text. */
    method AnalyzeRecentEmotions(userId: Option<string>, text: string) returns (r: Outcome<string>)
      modifies this
      ensures !SignedIn(userId) ==> r == Fail(NotAuthenticated) && unchanged(this)
      ensures SignedIn(userId) ==> r == Pass && Settled() && analysis == Some(text)
      ensures emotionLogs == old(emotionLogs) && stats == old(stats)
    {
      if !SignedIn(userId) {
        return Fail(NotAuthenticated);
      }
      isLoading := true;
      error := None;
      analysis := Some(text);
      isLoading := false;
      r := Pass;
    }

    /** `getEmotionsForTask`: answers the server's grouping and keeps no data. */
    method GetEmotionsForTask(userId: Option<string>, answer: TaskEmotions) returns (r: Result<TaskEmotions, string>)
      modifies this
      ensures !SignedIn(userId) ==> r == Failure(NotAuthenticated) && unchanged(this)
      ensures SignedIn(userId) ==> r == Success(answer) && Settled()
      ensures emotionLogs == old(emotionLogs) && stats == old(stats) && analysis == old(analysis)
    {
      if !SignedIn(userId) {
        return Failure(NotAuthenticated);
      }
      isLoading := true;
      error := None;
      isLoading := false;
      r := Success(answer);
    }

    /** `fetchEmotionLogs`: the list becomes the server's page of logs. */
    method FetchEmotionLogs(userId: Option<string>, fetched: seq<EmotionLog>) returns (r: Outcome<string>)
      modifies this
      ensures !SignedIn(userId) ==> r == Fail(NotAuthenticated) && unchanged(this)
      ensures SignedIn(userId) ==> r == Pass && Settled() && emotionLogs == fetched
      ensures stats == old(stats) && analysis == old(analysis)
    {
      if !SignedIn(userId) {
        return Fail(NotAuthenticated);
      }
      isLoading := true;
      error := None;
      emotionLogs := fetched;
      isLoading := false;
      r := Pass;
    }

    /** `clearEmotions`: every field back to its initial value. */
    method ClearEmotions()
      modifies this
      ensures emotionLogs == [] && stats == None && analysis == None && Settled()
    {
      emotionLogs := [];
      stats := None;
      analysis := None;
      error := None;
      isLoading := false;
    }
  }
}
