/** The nudge record store of src/stores/nudges.ts: the user's scheduled
    reminders, classified as scheduled, triggered, canceled, ready or
    upcoming, and the local part of its actions. */
module Nudges {
  import opened Wrappers
  import opened Session
  import Lists

  /** A reminder as the server stores it; `deliveryTime` is a timestamp. */
  datatype NudgeDoc = NudgeDoc(id: string, user: string, task: string, deliveryTime: int, triggered: bool, canceled: bool)

  /** The filter of `scheduledNudges`: neither triggered nor canceled. */
  predicate IsScheduled(n: NudgeDoc)
  {
    !n.triggered && !n.canceled
  }

  predicate IsTriggered(n: NudgeDoc)
  {
    n.triggered
  }

  predicate IsCanceled(n: NudgeDoc)
  {
    n.canceled
  }

  /** The filter of `readyNudges`: scheduled and due at `now` or earlier. */
  function IsReady(now: int): NudgeDoc -> bool
  {
    (n: NudgeDoc) => !n.triggered && !n.canceled && n.deliveryTime <= now
  }

  /** The filter of `upcomingNudges`: scheduled and due after `now`. */
  function IsUpcoming(now: int): NudgeDoc -> bool
  {
    (n: NudgeDoc) => !n.triggered && !n.canceled && n.deliveryTime > now
  }

  function DueBy(now: int): NudgeDoc -> bool
  {
    (n: NudgeDoc) => n.deliveryTime <= now
  }

  function DueAfter(now: int): NudgeDoc -> bool
  {
    (n: NudgeDoc) => n.deliveryTime > now
  }

  /** The sort key of `upcomingNudges`. */
  function DeliveryKey(n: NudgeDoc): int
  {
    n.deliveryTime
  }

  function ScheduledNudges(nudges: seq<NudgeDoc>): seq<NudgeDoc>
  {
    Lists.Filter(nudges, IsScheduled)
  }

  function TriggeredNudges(nudges: seq<NudgeDoc>): seq<NudgeDoc>
  {
    Lists.Filter(nudges, IsTriggered)
  }

  function CanceledNudges(nudges: seq<NudgeDoc>): seq<NudgeDoc>
  {
    Lists.Filter(nudges, IsCanceled)
  }

  function ReadyNudges(nudges: seq<NudgeDoc>, now: int): seq<NudgeDoc>
  {
    Lists.Filter(nudges, IsReady(now))
  }

  /** `upcomingNudges`: the upcoming filter, sorted by delivery time. */
  function UpcomingNudges(nudges: seq<NudgeDoc>, now: int): seq<NudgeDoc>
  {
    Lists.SortBy(Lists.Filter(nudges, IsUpcoming(now)), DeliveryKey)
  }

  /** The `task === taskId` test of the lookups and actions. */
  function TaskIs(taskId: string): NudgeDoc -> bool
  {
    (n: NudgeDoc) => n.task == taskId
  }

  /** `getNudgeByTask`: the first nudge for the task. */
  function GetNudgeByTask(nudges: seq<NudgeDoc>, taskId: string): (r: Option<NudgeDoc>)
    ensures r.None? <==> forall j :: 0 <= j < |nudges| ==> nudges[j].task != taskId
    ensures r.Some? ==> r.value.task == taskId
    ensures r.Some? ==> exists i :: 0 <= i < |nudges| && nudges[i] == r.value && forall j :: 0 <= j < i ==> nudges[j].task != taskId
  {
    Lists.Find(nudges, TaskIs(taskId))
  }

  /** The scheduled nudges are exactly those neither triggered nor
      canceled, and the ready and upcoming ones are exactly the scheduled
      ones due by `now` and after `now`. */
  lemma ClassificationSpec(nudges: seq<NudgeDoc>, now: int)
    ensures forall n :: n in ScheduledNudges(nudges) <==> n in nudges && !n.triggered && !n.canceled
    ensures ReadyNudges(nudges, now) == Lists.Filter(ScheduledNudges(nudges), DueBy(now))
    ensures Lists.Filter(nudges, IsUpcoming(now)) == Lists.Filter(ScheduledNudges(nudges), DueAfter(now))
  {
    Lists.FilterRefine(nudges, IsScheduled, DueBy(now), IsReady(now));
    Lists.FilterRefine(nudges, IsScheduled, DueAfter(now), IsUpcoming(now));
    Lists.FilterMembers(nudges, IsScheduled);
  }

  /** For one `now`, the ready and upcoming nudges split the scheduled ones:
      together they hold each scheduled nudge exactly as often. */
  lemma ReadyUpcomingPartition(nudges: seq<NudgeDoc>, now: int)
    ensures multiset(ReadyNudges(nudges, now)) + multiset(UpcomingNudges(nudges, now))
         == multiset(ScheduledNudges(nudges))
    ensures |ReadyNudges(nudges, now)| + |UpcomingNudges(nudges, now)| == |ScheduledNudges(nudges)|
  {
    ClassificationSpec(nudges, now);
    Lists.FilterSplit(ScheduledNudges(nudges), DueBy(now), DueAfter(now));
  }

  /** `upcomingNudges` is in ascending delivery order, is a rearrangement
      of the upcoming filter, and holds no canceled or triggered nudge. */
  lemma UpcomingSpec(nudges: seq<NudgeDoc>, now: int)
    ensures Lists.SortedBy(UpcomingNudges(nudges, now), DeliveryKey)
    ensures multiset(UpcomingNudges(nudges, now)) == multiset(Lists.Filter(nudges, IsUpcoming(now)))
    ensures forall n :: n in UpcomingNudges(nudges, now) <==>
      n in nudges && !n.triggered && !n.canceled && n.deliveryTime > now
  {
    var f := Lists.Filter(nudges, IsUpcoming(now));
    var u := UpcomingNudges(nudges, now);
    forall n
      ensures n in u <==> n in f
    {
      assert n in u <==> n in multiset(u);
      assert n in f <==> n in multiset(f);
    }
    Lists.FilterMembers(nudges, IsUpcoming(now));
  }

  /** A canceled nudge is never ready and never upcoming. */
  lemma CanceledNeverShown(nudges: seq<NudgeDoc>, now: int)
    ensures forall n :: n in ReadyNudges(nudges, now) ==> !n.canceled
    ensures forall n :: n in UpcomingNudges(nudges, now) ==> !n.canceled
  {
    UpcomingSpec(nudges, now);
  }

  class NudgesStore {
    var nudges: seq<NudgeDoc>
    var isLoading: bool
    var error: Option<string>

    constructor ()
      ensures nudges == [] && !isLoading && error == None
    {
      nudges := [];
      isLoading := false;
      error := None;
    }

    /** Without a user every action only records the error. */
    twostate predicate Refused(user: Option<string>)
      reads this
    {
      && !SignedIn(user)
      && nudges == old(nudges)
      && isLoading == old(isLoading)
      && error == Some(NotAuthenticated)
    }

    predicate Settled()
      reads this
    {
      !isLoading && error == None
    }

    /** `scheduleNudge`: the nudge the server created is appended. */
    method ScheduleNudge(user: Option<string>, created: NudgeDoc) returns (ok: bool)
      modifies this
      ensures !SignedIn(user) ==> !ok && Refused(user)
      ensures SignedIn(user) ==> ok && Settled() && nudges == old(nudges) + [created]
    {
      if !SignedIn(user) {
        error := Some(NotAuthenticated);
        return false;
      }
      isLoading := true;
      error := None;
      nudges := nudges + [created];
      isLoading := false;
      ok := true;
    }

    /** `cancelNudge`: the first nudge for the task is marked canceled, so
        it leaves the scheduled nudges; nothing else changes. */
    method CancelNudge(user: Option<string>, taskId: string) returns (ok: bool)
      modifies this
      ensures !SignedIn(user) ==> !ok && Refused(user)
      ensures SignedIn(user) ==> ok && Settled() && |nudges| == |old(nudges)|
      ensures SignedIn(user) ==> forall j :: 0 <= j < |nudges| ==>
        nudges[j] == if j == Lists.FindIndex(old(nudges), TaskIs(taskId))
                     then old(nudges)[j].(canceled := true) else old(nudges)[j]
      ensures SignedIn(user) && Lists.FindIndex(old(nudges), TaskIs(taskId)) >= 0 ==>
        !IsScheduled(nudges[Lists.FindIndex(old(nudges), TaskIs(taskId))])
    {
      if !SignedIn(user) {
        error := Some(NotAuthenticated);
        return false;
      }
      isLoading := true;
      error := None;
      var index := Lists.FindIndex(nudges, TaskIs(taskId));
      if index != -1 {
        nudges := nudges[index := nudges[index].(canceled := true)];
      }
      isLoading := false;
      ok := true;
    }

    /** `nudgeUser`: answers the server's message and marks the first
        nudge for the task triggered; nothing else changes. */
    method NudgeUser(user: Option<string>, taskId: string, message: string) returns (r: Option<string>)
      modifies this
      ensures !SignedIn(user) ==> r == None && Refused(user)
      ensures SignedIn(user) ==> r == Some(message) && Settled() && |nudges| == |old(nudges)|
      ensures SignedIn(user) ==> forall j :: 0 <= j < |nudges| ==>
        nudges[j] == if j == Lists.FindIndex(old(nudges), TaskIs(taskId))
                     then old(nudges)[j].(triggered := true) else old(nudges)[j]
      ensures SignedIn(user) && Lists.FindIndex(old(nudges), TaskIs(taskId)) >= 0 ==>
        !IsScheduled(nudges[Lists.FindIndex(old(nudges), TaskIs(taskId))])
    {
      if !SignedIn(user) {
        error := Some(NotAuthenticated);
        return None;
      }
      isLoading := true;
      error := None;
      var index := Lists.FindIndex(nudges, TaskIs(taskId));
      if index != -1 {
        nudges := nudges[index := nudges[index].(triggered := true)];
      }
      isLoading := false;
      r := Some(message);
    }

    /** `deleteAllUserNudges`: the list is emptied. */
    method DeleteAllUserNudges(user: Option<string>) returns (ok: bool)
      modifies this
      ensures !SignedIn(user) ==> !ok && Refused(user)
      ensures SignedIn(user) ==> ok && Settled() && nudges == []
    {
      if !SignedIn(user) {
        error := Some(NotAuthenticated);
        return false;
      }
      isLoading := true;
      error := None;
      nudges := [];
      isLoading := false;
      ok := true;
    }

    /** `clearNudges`: empties the list and nothing else. */
    method ClearNudges()
      modifies this
      ensures nudges == [] && isLoading == old(isLoading) && error == old(error)
    {
      nudges := [];
    }
  }
}
