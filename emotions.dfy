/** The emotion store of src/stores/emotions.ts: the same logs as
    src/stores/emotionStore.ts, with a per-task view, per-emotion counts,
    the ten most recent logs, and actions that update the list locally. */
module Emotions {
  import opened Wrappers
  import opened Session
  import Lists
  import EmotionStore

  type EmotionLog = EmotionStore.EmotionLog

  /** The server's trend summary, kept as it arrives. */
  datatype EmotionTrends = EmotionTrends(total: int, counts: map<string, int>)

  /** How many logs `recentEmotions` keeps. */
  const RecentLimit: nat := 10

  /** The `task === taskId` test of `getEmotionsByTask`. */
  function TaskIs(taskId: string): EmotionLog -> bool
  {
    (log: EmotionLog) => log.task == taskId
  }

  function EmotionsByTask(logs: seq<EmotionLog>, taskId: string): seq<EmotionLog>
  {
    Lists.Filter(logs, TaskIs(taskId))
  }

  /** A task's logs are exactly the logs with that task, in list order,
      and they are what `deleteTaskLogs` takes away. */
  lemma EmotionsByTaskSpec(logs: seq<EmotionLog>, taskId: string)
    ensures forall log :: log in EmotionsByTask(logs, taskId) <==> log in logs && log.task == taskId
    ensures Lists.IsSubsequence(EmotionsByTask(logs, taskId), logs)
    ensures multiset(EmotionsByTask(logs, taskId)) + multiset(EmotionStore.WithoutTaskLogs(logs, taskId)) == multiset(logs)
  {
    Lists.FilterKeepsOrder(logs, TaskIs(taskId));
    Lists.FilterSplit(logs, TaskIs(taskId), EmotionStore.TaskIsNot(taskId));
    Lists.FilterMembers(logs, TaskIs(taskId));
  }

  /** The comparator `b.createdAt - a.createdAt` as an ascending key. */
  function NewestFirst(log: EmotionLog): int
  {
    -log.createdAt
  }

  /** `recentEmotions`: the first ten logs after sorting newest first. */
  function Recent(logs: seq<EmotionLog>): seq<EmotionLog>
  {
    var sorted := Lists.SortBy(logs, NewestFirst);
    sorted[..if |sorted| < RecentLimit then |sorted| else RecentLimit]
  }

  /** Every recent log comes from the list, no more often than it occurs there. */
  lemma RecentTaken(logs: seq<EmotionLog>)
    ensures multiset(Recent(logs)) <= multiset(logs)
    ensures forall x :: x in Recent(logs) ==> x in logs
  {
    var sorted := Lists.SortBy(logs, NewestFirst);
    Lists.PrefixIncluded(sorted, |Recent(logs)|);
    forall x | x in Recent(logs)
      ensures x in logs
    {
      assert x in multiset(Recent(logs));
    }
  }

  /** The recent logs are at most ten, newest first, a sub-multiset of the
      list, and no log left out is newer than any log kept. */
  lemma RecentSpec(logs: seq<EmotionLog>)
    ensures |Recent(logs)| == if |logs| < RecentLimit then |logs| else RecentLimit
    ensures forall i, j :: 0 <= i < j < |Recent(logs)| ==> Recent(logs)[i].createdAt >= Recent(logs)[j].createdAt
    ensures forall x :: x in Recent(logs) ==> x in logs
    ensures multiset(Recent(logs)) <= multiset(logs)
    ensures forall x, i :: x in logs && x !in Recent(logs) && 0 <= i < |Recent(logs)| ==>
      x.createdAt <= Recent(logs)[i].createdAt
  {
    var sorted := Lists.SortBy(logs, NewestFirst);
    var r := Recent(logs);
    assert forall i :: 0 <= i < |r| ==> r[i] == sorted[i];
    RecentTaken(logs);
    forall i, j | 0 <= i < j < |r|
      ensures r[i].createdAt >= r[j].createdAt
    {
      assert NewestFirst(sorted[i]) <= NewestFirst(sorted[j]);
    }
    forall x, i | x in logs && x !in r && 0 <= i < |r|
      ensures x.createdAt <= r[i].createdAt
    {
      assert x in multiset(sorted);
      var k :| 0 <= k < |sorted| && sorted[k] == x;
      assert forall k' :: 0 <= k' < |r| ==> sorted[k'] in r;
      assert NewestFirst(sorted[i]) <= NewestFirst(sorted[k]);
    }
  }

  /** The `log.emotion` test of the counts. */
  function EmotionIs(e: string): EmotionLog -> bool
  {
    (log: EmotionLog) => log.emotion == e
  }

  function EmotionIsNot(e: string): EmotionLog -> bool
  {
    (log: EmotionLog) => log.emotion != e
  }

  /** How many logs record the emotion. */
  function CountOf(logs: seq<EmotionLog>, e: string): nat
  {
    |Lists.Filter(logs, EmotionIs(e))|
  }

  /** `getEmotionCounts`: one pass over the logs, adding one to the
      emotion's entry, which starts at zero when missing. */
  method GetEmotionCounts(logs: seq<EmotionLog>) returns (counts: map<string, int>)
    ensures forall e :: e in counts <==> exists i :: 0 <= i < |logs| && logs[i].emotion == e
    ensures forall e :: e in counts ==> counts[e] == CountOf(logs, e) && counts[e] > 0
  {
    counts := map[];
    for i := 0 to |logs|
      invariant Tallied(counts, logs[..i])
    {
      var log := logs[i];
      ghost var before := counts;
      if log.emotion in counts {
        counts := counts[log.emotion := counts[log.emotion] + 1];
      } else {
        counts := counts[log.emotion := 1];
      }
      TallyStep(before, counts, logs[..i], log, logs[..i + 1]);
    }
    assert logs[..|logs|] == logs;
  }

  /** The counts hold exactly the emotions of `seen`, each with its number
      of occurrences. */
  ghost predicate Tallied(counts: map<string, int>, seen: seq<EmotionLog>)
  {
    && (forall e :: e in counts <==> exists j :: 0 <= j < |seen| && seen[j].emotion == e)
    && (forall e :: e in counts ==> counts[e] == CountOf(seen, e) && counts[e] > 0)
  }

  /** The counts with one more occurrence of `e`. */
  function Bumped(counts: map<string, int>, e: string): map<string, int>
  {
    if e in counts then counts[e := counts[e] + 1] else counts[e := 1]
  }

  /** One step of the counting loop keeps the counts tallied. */
  lemma TallyStep(before: map<string, int>, after: map<string, int>, seen: seq<EmotionLog>, x: EmotionLog, next: seq<EmotionLog>)
    requires next == seen + [x]
    requires Tallied(before, seen)
    requires after == Bumped(before, x.emotion)
    ensures Tallied(after, next)
  {
    assert after.Keys == before.Keys + {x.emotion};
    TallyKeys(before, after, seen, x, next);
    forall e | e in after
      ensures after[e] == CountOf(next, e) && after[e] > 0
    {
      TallyEntry(before, after, seen, x, e);
    }
  }

  /** One step of the counting loop adds exactly the new log's emotion to
      the keys. */
  lemma TallyKeys(before: map<string, int>, after: map<string, int>, seen: seq<EmotionLog>, x: EmotionLog, next: seq<EmotionLog>)
    requires next == seen + [x]
    requires forall e :: e in before <==> exists j :: 0 <= j < |seen| && seen[j].emotion == e
    requires after.Keys == before.Keys + {x.emotion}
    ensures forall e :: e in after <==> exists j :: 0 <= j < |next| && next[j].emotion == e
  {
    forall e
      ensures e in after <==> exists j :: 0 <= j < |next| && next[j].emotion == e
    {
      if e in after {
        if e == x.emotion {
          assert next[|seen|].emotion == e;
        } else {
          var j :| 0 <= j < |seen| && seen[j].emotion == e;
          assert next[j].emotion == e;
        }
      }
      if exists j :: 0 <= j < |next| && next[j].emotion == e {
        var j :| 0 <= j < |next| && next[j].emotion == e;
        if j < |seen| {
          assert seen[j].emotion == e;
        }
      }
    }
  }

  /** One step of the counting loop leaves every entry equal to its
      emotion's count. */
  lemma TallyEntry(before: map<string, int>, after: map<string, int>, seen: seq<EmotionLog>, x: EmotionLog, e: string)
    requires after == Bumped(before, x.emotion)
    requires e in after
    requires e in before ==> before[e] == CountOf(seen, e) && before[e] > 0
    requires e !in before ==> forall j :: 0 <= j < |seen| ==> seen[j].emotion != e
    ensures after[e] == CountOf(seen + [x], e) && after[e] > 0
  {
    Lists.FilterSnoc(seen, x, EmotionIs(e));
    if e != x.emotion {
      assert after[e] == before[e];
    } else if e !in before {
      CountAbsent(seen, e);
    }
  }

  /** An emotion no log records has count zero. */
  lemma CountAbsent(logs: seq<EmotionLog>, e: string)
    requires forall j :: 0 <= j < |logs| ==> logs[j].emotion != e
    ensures CountOf(logs, e) == 0
  {
    Lists.FilterNone(logs, EmotionIs(e));
  }

  function EmotionIn(order: seq<string>): EmotionLog -> bool
  {
    (log: EmotionLog) => log.emotion in order
  }

  /** The counts of the emotions listed in `order`, added up. */
  function SumCounts(order: seq<string>, logs: seq<EmotionLog>): int
    decreases |order|
  {
    if order == [] then 0 else CountOf(logs, order[0]) + SumCounts(order[1..], logs)
  }

  /** Dropping the logs of an emotion outside `order` changes none of the
      counts of `order`. */
  lemma {:induction false} SumCountsFiltered(order: seq<string>, logs: seq<EmotionLog>, o: string)
    requires o !in order
    ensures SumCounts(order, Lists.Filter(logs, EmotionIsNot(o))) == SumCounts(order, logs)
    decreases |order|
  {
    if order != [] {
      Lists.FilterRefine(logs, EmotionIsNot(o), EmotionIs(order[0]), EmotionIs(order[0]));
      SumCountsFiltered(order[1..], logs, o);
    }
  }

  /** Only the empty list of logs is covered by no emotion at all. */
  lemma NothingCovered(logs: seq<EmotionLog>)
    requires forall i :: 0 <= i < |logs| ==> logs[i].emotion in []
    ensures logs == []
  {
    Lists.FilterAll(logs, EmotionIn([]));
    Lists.FilterNone(logs, EmotionIn([]));
  }

  /** Once the logs of the first emotion are dropped, the rest of `order`
      covers the remaining logs. */
  lemma RestCovered(order: seq<string>, logs: seq<EmotionLog>)
    requires order != []
    requires forall i :: 0 <= i < |logs| ==> logs[i].emotion in order
    ensures var rest := Lists.Filter(logs, EmotionIsNot(order[0]));
      forall i :: 0 <= i < |rest| ==> rest[i].emotion in order[1..]
  {
    var rest := Lists.Filter(logs, EmotionIsNot(order[0]));
    assert order == [order[0]] + order[1..];
    Lists.FilterMembers(logs, EmotionIsNot(order[0]));
    forall i | 0 <= i < |rest|
      ensures rest[i].emotion in order[1..]
    {
      assert rest[i] in logs;
    }
  }

  /** Over a list of distinct emotions that covers every log, the counts
      add up to the number of logs. */
  lemma {:induction false} CountsAddUp(order: seq<string>, logs: seq<EmotionLog>)
    requires forall i, j :: 0 <= i < j < |order| ==> order[i] != order[j]
    requires forall i :: 0 <= i < |logs| ==> logs[i].emotion in order
    ensures SumCounts(order, logs) == |logs|
    decreases |order|
  {
    if order == [] {
      NothingCovered(logs);
    } else {
      var o := order[0];
      var rest := Lists.Filter(logs, EmotionIsNot(o));
      Lists.FilterSplit(logs, EmotionIs(o), EmotionIsNot(o));
      RestCovered(order, logs);
      CountsAddUp(order[1..], rest);
      SumCountsFiltered(order[1..], logs, o);
    }
  }

  class EmotionsStore {
    var emotionLogs: seq<EmotionLog>
    var emotionTrends: Option<EmotionTrends>
    var emotionAnalysis: Option<string>
    var isLoading: bool
    var error: Option<string>

    constructor ()
      ensures emotionLogs == [] && emotionTrends == None && emotionAnalysis == None && Settled()
    {
      emotionLogs := [];
      emotionTrends := None;
      emotionAnalysis := None;
      isLoading := false;
      error := None;
    }

    /** Without a user every action only records the error. */
    twostate predicate Refused(user: Option<string>, ok: bool)
      reads this
    {
      && !SignedIn(user)
      && !ok
      && emotionLogs == old(emotionLogs)
      && emotionTrends == old(emotionTrends)
      && emotionAnalysis == old(emotionAnalysis)
      && isLoading == old(isLoading)
      && error == Some(NotAuthenticated)
    }

    predicate Settled()
      reads this
    {
      !isLoading && error == None
    }

    /** Reading `recentEmotions` sorts the log list itself, newest first,
        and answers its first ten entries. */
    method RecentEmotions() returns (recent: seq<EmotionLog>)
      modifies this
      ensures emotionLogs == Lists.SortBy(old(emotionLogs), NewestFirst)
      ensures recent == Recent(old(emotionLogs))
      ensures emotionTrends == old(emotionTrends) && emotionAnalysis == old(emotionAnalysis)
      ensures isLoading == old(isLoading) && error == old(error)
    {
      emotionLogs := Lists.SortBy(emotionLogs, NewestFirst);
      recent := emotionLogs[..if |emotionLogs| < RecentLimit then |emotionLogs| else RecentLimit];
    }

    /** `logBeforeEmotion`: the log the server created is appended. */
    method LogBeforeEmotion(user: Option<string>, created: EmotionLog) returns (ok: bool)
      modifies this
      ensures !SignedIn(user) ==> Refused(user, ok)
      ensures SignedIn(user) ==> ok && Settled() && emotionLogs == old(emotionLogs) + [created]
      ensures emotionTrends == old(emotionTrends) && emotionAnalysis == old(emotionAnalysis)
    {
      if !SignedIn(user) {
        error := Some(NotAuthenticated);
        return false;
      }
      isLoading := true;
      error := None;
      emotionLogs := emotionLogs + [created];
      isLoading := false;
      ok := true;
    }

    /** `logAfterEmotion`: as `logBeforeEmotion`, for the after phase. */
    method LogAfterEmotion(user: Option<string>, created: EmotionLog) returns (ok: bool)
      modifies this
      ensures !SignedIn(user) ==> Refused(user, ok)
      ensures SignedIn(user) ==> ok && Settled() && emotionLogs == old(emotionLogs) + [created]
      ensures emotionTrends == old(emotionTrends) && emotionAnalysis == old(emotionAnalysis)
    {
      if !SignedIn(user) {
        error := Some(NotAuthenticated);
        return false;
      }
      isLoading := true;
      error := None;
      emotionLogs := emotionLogs + [created];
      isLoading := false;
      ok := true;
    }

    /** `fetchEmotionTrends`: keeps the server's trends. */
    method FetchEmotionTrends(user: Option<string>, trends: EmotionTrends) returns (ok: bool)
      modifies this
      ensures !SignedIn(user) ==> Refused(user, ok)
      ensures SignedIn(user) ==> ok && Settled() && emotionTrends == Some(trends)
      ensures emotionLogs == old(emotionLogs) && emotionAnalysis == old(emotionAnalysis)
    {
      if !SignedIn(user) {
        error := Some(NotAuthenticated);
        return false;
      }
      isLoading := true;
      error := None;
      emotionTrends := Some(trends);
      isLoading := false;
      ok := true;
    }

    /** `analyzeRecentEmotions`: keeps the server's analysis text. */
    method AnalyzeRecentEmotions(user: Option<string>, text: string) returns (ok: bool)
      modifies this
      ensures !SignedIn(user) ==> Refused(user, ok)
      ensures SignedIn(user) ==> ok && Settled() && emotionAnalysis == Some(text)
      ensures emotionLogs == old(emotionLogs) && emotionTrends == old(emotionTrends)
    {
      if !SignedIn(user) {
        error := Some(NotAuthenticated);
        return false;
      }
      isLoading := true;
      error := None;
      emotionAnalysis := Some(text);
      isLoading := false;
      ok := true;
    }

    /** `deleteTaskLogs`: the task's logs leave the local list. */
    method DeleteTaskLogs(user: Option<string>, taskId: string) returns (ok: bool)
      modifies this
      ensures !SignedIn(user) ==> Refused(user, ok)
      ensures SignedIn(user) ==> ok && Settled() && emotionLogs == EmotionStore.WithoutTaskLogs(old(emotionLogs), taskId)
      ensures emotionTrends == old(emotionTrends) && emotionAnalysis == old(emotionAnalysis)
    {
      if !SignedIn(user) {
        error := Some(NotAuthenticated);
        return false;
      }
      isLoading := true;
      error := None;
      emotionLogs := EmotionStore.WithoutTaskLogs(emotionLogs, taskId);
      isLoading := false;
      ok := true;
    }

    /** `deleteAllUserLogs`: no logs, no trends, no analysis. */
    method DeleteAllUserLogs(user: Option<string>) returns (ok: bool)
      modifies this
      ensures !SignedIn(user) ==> Refused(user, ok)
      ensures SignedIn(user) ==> ok && Settled() && emotionLogs == [] && emotionTrends == None && emotionAnalysis == None
    {
      if !SignedIn(user) {
        error := Some(NotAuthenticated);
        return false;
      }
      isLoading := true;
      error := None;
      emotionLogs := [];
      emotionTrends := None;
      emotionAnalysis := None;
      isLoading := false;
      ok := true;
    }

    /** `clearEmotions`: resets the three data fields and leaves the flags. */
    method ClearEmotions()
      modifies this
      ensures emotionLogs == [] && emotionTrends == None && emotionAnalysis == None
      ensures isLoading == old(isLoading) && error == old(error)
    {
      emotionLogs := [];
      emotionTrends := None;
      emotionAnalysis := None;
    }
  }
}
