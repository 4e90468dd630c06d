/** The nudge presentation pipeline of src/stores/nudgeStore.ts.
    Incoming nudges pass through three lists: `pendingNudges` (triggered
    nudges whose task is not loaded yet), `nudgeQueue` (nudges ready to be
    shown, first in first out) and `activeNudges` (the one nudge on screen).
    Each operation is first a function on a `Pipeline` value holding the
    three lists; the `NudgeStore` class at the end holds them as fields and
    its methods are proved to perform those functions. */
module NudgeStore {
  import Lists
  import TaskStore

  /** A nudge's `triggeredAt` as the store tests it: `Null` is the JSON
      null the store drops; `Unset` is an absent field, which the null test
      lets through; `At` is a trigger time. */
  datatype TriggerStamp = Null | Unset | At(time: int)

  /** The fields of an incoming nudge that the store reads; an absent
      message is the empty string. */
  datatype Nudge = Nudge(id: string, task: string, deliveryTime: int, triggeredAt: TriggerStamp, message: string)

  /** A notification ready for the screen. */
  datatype ActiveNudge = ActiveNudge(nudgeId: string, taskId: string, taskTitle: string, message: string, timestamp: int)

  /** The store's three lists. */
  datatype Pipeline = Pipeline(active: seq<ActiveNudge>, queue: seq<ActiveNudge>, pending: seq<Nudge>)

  /** The state after start-up and after logout. */
  const Empty := Pipeline([], [], [])

  /** The notifications in the order they are or will be shown: the active
      one, then the queue. */
  function Line(p: Pipeline): seq<ActiveNudge>
  {
    p.active + p.queue
  }

  /** `some(n => n.nudgeId === id)` on the queue or the active list. */
  predicate Shows(entries: seq<ActiveNudge>, id: string)
  {
    exists i :: 0 <= i < |entries| && entries[i].nudgeId == id
  }

  /** `some(n => n._id === id)` on the pending list. */
  predicate Parked(pending: seq<Nudge>, id: string)
  {
    exists i :: 0 <= i < |pending| && pending[i].id == id
  }

  /** The nudges the store accepts: `triggeredAt` is not null and the
      message is not empty. */
  predicate Presentable(n: Nudge)
  {
    !n.triggeredAt.Null? && n.message != ""
  }

  /** The task store can resolve the task id. */
  predicate Known(tasks: seq<TaskStore.Task>, taskId: string)
  {
    TaskStore.GetTaskById(tasks, taskId).Some?
  }

  /** The notification built for a nudge: stamped with its trigger time
      when there is one, else with its delivery time. */
  function Entry(n: Nudge, title: string): ActiveNudge
  {
    var timestamp := if n.triggeredAt.At? then n.triggeredAt.time else n.deliveryTime;
    ActiveNudge(n.id, n.task, title, n.message, timestamp)
  }

  /** `showNextNudge`: the head of the queue becomes active, but only when
      nothing is active. */
  function ShowNext(p: Pipeline): Pipeline
  {
    if |p.queue| > 0 && |p.active| == 0 then
      p.(active := p.active + [p.queue[0]], queue := p.queue[1..])
    else
      p
  }

  /** `handleIncomingNudge`, given the task store's list at the time. */
  function Handle(p: Pipeline, n: Nudge, tasks: seq<TaskStore.Task>): Pipeline
  {
    if Shows(p.queue, n.id) || Shows(p.active, n.id) then p
    else if !Presentable(n) then p
    else match TaskStore.GetTaskById(tasks, n.task)
      case None =>
        if Parked(p.pending, n.id) then p else p.(pending := p.pending + [n])
      case Some(task) =>
        ShowNext(p.(queue := p.queue + [Entry(n, task.title)]))
  }

  /** The loop of `retryPendingNudges`: each nudge of `ns`, in order, whose
      task resolves is handed to `handleIncomingNudge`. */
  function Drain(p: Pipeline, ns: seq<Nudge>, tasks: seq<TaskStore.Task>): Pipeline
    decreases |ns|
  {
    if ns == [] then p
    else
      var before := Drain(p, ns[..|ns| - 1], tasks);
      var n := ns[|ns| - 1];
      if Known(tasks, n.task) then Handle(before, n, tasks) else before
  }

  /** The test that keeps a nudge in `stillPending`. */
  function Unresolved(tasks: seq<TaskStore.Task>): Nudge -> bool
  {
    (n: Nudge) => !Known(tasks, n.task)
  }

  /** The `stillPending` list the loop builds. */
  function StillPending(pending: seq<Nudge>, tasks: seq<TaskStore.Task>): seq<Nudge>
  {
    Lists.Filter(pending, Unresolved(tasks))
  }

  /** `retryPendingNudges`. */
  function Retry(p: Pipeline, tasks: seq<TaskStore.Task>): Pipeline
  {
    if |p.pending| == 0 then p
    else Drain(p, p.pending, tasks).(pending := StillPending(p.pending, tasks))
  }

  /** The `nudgeId === id` test of `dismissNudge`. */
  function IsNudge(id: string): ActiveNudge -> bool
  {
    (a: ActiveNudge) => a.nudgeId == id
  }

  /** `dismissNudge` without its delayed `showNextNudge`, which is a step of
      its own. */
  function Dismiss(p: Pipeline, id: string): Pipeline
  {
    var i := Lists.FindIndex(p.active, IsNudge(id));
    if i == -1 then p else p.(active := p.active[..i] + p.active[i + 1..])
  }

  /** `clearAllNudges`: pending nudges stay. */
  function ClearAll(p: Pipeline): Pipeline
  {
    p.(active := [], queue := [])
  }

  // Invariant

  ghost predicate DistinctIds(entries: seq<ActiveNudge>)
  {
    forall i, j :: 0 <= i < j < |entries| ==> entries[i].nudgeId != entries[j].nudgeId
  }

  ghost predicate DistinctPending(ns: seq<Nudge>)
  {
    forall i, j :: 0 <= i < j < |ns| ==> ns[i].id != ns[j].id
  }

  /** What every reachable state satisfies: at most one nudge is active, no
      id is twice in the active list and the queue together, no id is twice
      in the pending list, and only acceptable nudges are parked. Nothing
      keeps a pending id out of the queue. */
  ghost predicate WellFormed(p: Pipeline)
  {
    && |p.active| <= 1
    && DistinctIds(Line(p))
    && DistinctPending(p.pending)
    && (forall i :: 0 <= i < |p.pending| ==> Presentable(p.pending[i]))
  }

  /** No notification waits while the screen is free. */
  ghost predicate Settled(p: Pipeline)
  {
    |p.queue| > 0 ==> |p.active| > 0
  }

  lemma ShowsConcat(a: seq<ActiveNudge>, b: seq<ActiveNudge>, id: string)
    ensures Shows(a + b, id) <==> Shows(a, id) || Shows(b, id)
  {
    if Shows(a, id) {
      var i :| 0 <= i < |a| && a[i].nudgeId == id;
      assert (a + b)[i] == a[i];
    }
    if Shows(b, id) {
      var i :| 0 <= i < |b| && b[i].nudgeId == id;
      assert (a + b)[|a| + i] == b[i];
    }
    if Shows(a + b, id) {
      var i :| 0 <= i < |a + b| && (a + b)[i].nudgeId == id;
      if i >= |a| {
        assert b[i - |a|] == (a + b)[i];
      } else {
        assert a[i] == (a + b)[i];
      }
    }
  }

  // showNextNudge

  /** Promotion takes the head of the queue, so the presentation order is
      kept; it never makes a second nudge active, and afterwards no
      notification waits while the screen is free. */
  lemma ShowNextSpec(p: Pipeline)
    ensures Line(ShowNext(p)) == Line(p)
    ensures ShowNext(p).pending == p.pending
    ensures |p.active| <= 1 ==> |ShowNext(p).active| <= 1
    ensures Settled(ShowNext(p))
    ensures p.active == [] && p.queue != [] ==> ShowNext(p).active == [p.queue[0]]
    ensures p.active != [] || p.queue == [] ==> ShowNext(p) == p
  {
    if |p.queue| > 0 && |p.active| == 0 {
      assert p.queue == [p.queue[0]] + p.queue[1..];
    }
  }

  lemma ShowNextPreserves(p: Pipeline)
    requires WellFormed(p)
    ensures WellFormed(ShowNext(p))
  {
    ShowNextSpec(p);
  }

  // handleIncomingNudge

  /** A nudge whose id is queued or active, or that is untriggered or has
      no message, leaves all three lists unchanged. */
  lemma HandleIgnores(p: Pipeline, n: Nudge, tasks: seq<TaskStore.Task>)
    requires Shows(p.queue, n.id) || Shows(p.active, n.id) || !Presentable(n)
    ensures Handle(p, n, tasks) == p
  {
  }

  /** A fresh, acceptable nudge whose task is not loaded is parked, at most
      once, and the queue and the active list are unchanged. */
  lemma HandleParks(p: Pipeline, n: Nudge, tasks: seq<TaskStore.Task>)
    requires !Shows(Line(p), n.id) && Presentable(n) && !Known(tasks, n.task)
    ensures Handle(p, n, tasks).active == p.active && Handle(p, n, tasks).queue == p.queue
    ensures Handle(p, n, tasks).pending == if Parked(p.pending, n.id) then p.pending else p.pending + [n]
    ensures Parked(Handle(p, n, tasks).pending, n.id)
  {
    ShowsConcat(p.active, p.queue, n.id);
    if !Parked(p.pending, n.id) {
      var r := p.pending + [n];
      assert r[|r| - 1].id == n.id;
    }
  }

  /** A fresh, acceptable nudge whose task is loaded adds exactly one
      notification at the end of the presentation order, carrying the
      title of the first task with that id and the trigger time (else the
      delivery time); it is promoted when nothing is active. */
  lemma HandleEnqueues(p: Pipeline, n: Nudge, tasks: seq<TaskStore.Task>)
    requires !Shows(Line(p), n.id) && Presentable(n) && Known(tasks, n.task)
    ensures var r := Handle(p, n, tasks);
      && Line(r) == Line(p) + [ActiveNudge(n.id, n.task, TaskStore.GetTaskById(tasks, n.task).value.title, n.message,
                                           if n.triggeredAt.At? then n.triggeredAt.time else n.deliveryTime)]
      && r.pending == p.pending
      && (p.active != [] ==> r.active == p.active)
      && (p.active == [] ==> r.active == [Line(r)[0]])
  {
    ShowsConcat(p.active, p.queue, n.id);
    var q := p.(queue := p.queue + [Entry(n, TaskStore.GetTaskById(tasks, n.task).value.title)]);
    ShowNextSpec(q);
    assert Line(q) == Line(p) + [Entry(n, TaskStore.GetTaskById(tasks, n.task).value.title)];
  }

  /** Handling a nudge never removes or reorders a notification, and a
      nudge whose task resolves never touches the pending list. */
  lemma HandleExtends(p: Pipeline, n: Nudge, tasks: seq<TaskStore.Task>)
    ensures Line(p) <= Line(Handle(p, n, tasks))
    ensures Known(tasks, n.task) ==> Handle(p, n, tasks).pending == p.pending
  {
    if !(Shows(p.queue, n.id) || Shows(p.active, n.id)) && Presentable(n) && Known(tasks, n.task) {
      ShowsConcat(p.active, p.queue, n.id);
      HandleEnqueues(p, n, tasks);
    }
  }

  /** An acceptable nudge whose task resolves is on screen or queued
      after it is handled. */
  lemma HandleDelivers(p: Pipeline, n: Nudge, tasks: seq<TaskStore.Task>)
    requires Presentable(n) && Known(tasks, n.task)
    ensures Shows(Line(Handle(p, n, tasks)), n.id)
  {
    ShowsConcat(p.active, p.queue, n.id);
    if !Shows(Line(p), n.id) {
      HandleEnqueues(p, n, tasks);
      var l := Line(Handle(p, n, tasks));
      assert l[|l| - 1].nudgeId == n.id;
    }
  }

  lemma AppendDistinct(entries: seq<ActiveNudge>, e: ActiveNudge)
    requires DistinctIds(entries) && !Shows(entries, e.nudgeId)
    ensures DistinctIds(entries + [e])
  {
    var r := entries + [e];
    forall i, j | 0 <= i < j < |r|
      ensures r[i].nudgeId != r[j].nudgeId
    {
      if j == |entries| {
        assert r[i] == entries[i];
      }
    }
  }

  lemma HandlePreserves(p: Pipeline, n: Nudge, tasks: seq<TaskStore.Task>)
    requires WellFormed(p)
    ensures WellFormed(Handle(p, n, tasks))
  {
    ShowsConcat(p.active, p.queue, n.id);
    if !(Shows(p.queue, n.id) || Shows(p.active, n.id)) && Presentable(n) {
      match TaskStore.GetTaskById(tasks, n.task)
      case None =>
        if !Parked(p.pending, n.id) {
          var r := p.pending + [n];
          forall i, j | 0 <= i < j < |r|
            ensures r[i].id != r[j].id
          {
            if j == |p.pending| {
              assert r[i] == p.pending[i];
            }
          }
        }
      case Some(task) =>
        var e := Entry(n, task.title);
        var q := p.(queue := p.queue + [e]);
        assert Line(q) == Line(p) + [e];
        AppendDistinct(Line(p), e);
        ShowNextSpec(q);
    }
  }

  // retryPendingNudges

  /** Handing over resolvable nudges keeps the presentation order's
      prefix and never touches the pending list. */
  lemma {:induction false} DrainExtends(p: Pipeline, ns: seq<Nudge>, tasks: seq<TaskStore.Task>)
    ensures Line(p) <= Line(Drain(p, ns, tasks))
    ensures Drain(p, ns, tasks).pending == p.pending
    decreases |ns|
  {
    if ns != [] {
      var before := Drain(p, ns[..|ns| - 1], tasks);
      DrainExtends(p, ns[..|ns| - 1], tasks);
      HandleExtends(before, ns[|ns| - 1], tasks);
    }
  }

  lemma {:induction false} DrainPreserves(p: Pipeline, ns: seq<Nudge>, tasks: seq<TaskStore.Task>)
    requires WellFormed(p)
    ensures WellFormed(Drain(p, ns, tasks))
    decreases |ns|
  {
    if ns != [] {
      DrainPreserves(p, ns[..|ns| - 1], tasks);
      HandlePreserves(Drain(p, ns[..|ns| - 1], tasks), ns[|ns| - 1], tasks);
    }
  }

  /** Every acceptable nudge of `ns` whose task resolves ends up on screen
      or queued. */
  lemma {:induction false} DrainDelivers(p: Pipeline, ns: seq<Nudge>, tasks: seq<TaskStore.Task>)
    requires forall k :: 0 <= k < |ns| ==> Presentable(ns[k])
    ensures forall k :: 0 <= k < |ns| && Known(tasks, ns[k].task) ==> Shows(Line(Drain(p, ns, tasks)), ns[k].id)
    decreases |ns|
  {
    if ns != [] {
      var init, last := ns[..|ns| - 1], ns[|ns| - 1];
      var before := Drain(p, init, tasks);
      DrainDelivers(p, init, tasks);
      assert ns == init + [last];
      if Known(tasks, last.task) {
        HandleExtends(before, last, tasks);
        HandleDelivers(before, last, tasks);
        var after := Line(Handle(before, last, tasks));
        forall k | 0 <= k < |init| && Known(tasks, init[k].task)
          ensures Shows(after, init[k].id)
        {
          ShowsGrows(Line(before), after, init[k].id);
        }
      }
    }
  }

  /** An entry shown in a list is still shown once the list grows. */
  lemma ShowsGrows(a: seq<ActiveNudge>, b: seq<ActiveNudge>, id: string)
    requires a <= b && Shows(a, id)
    ensures Shows(b, id)
  {
    var i :| 0 <= i < |a| && a[i].nudgeId == id;
    assert b[i] == a[i];
  }

  /** Nudges whose task is not loaded are skipped by the loop. */
  lemma {:induction false} DrainSkipsUnresolved(p: Pipeline, ns: seq<Nudge>, tasks: seq<TaskStore.Task>)
    requires forall k :: 0 <= k < |ns| ==> !Known(tasks, ns[k].task)
    ensures Drain(p, ns, tasks) == p
    decreases |ns|
  {
    if ns != [] {
      DrainSkipsUnresolved(p, ns[..|ns| - 1], tasks);
    }
  }

  lemma FilterDistinct(ns: seq<Nudge>, keep: Nudge -> bool)
    requires DistinctPending(ns)
    ensures DistinctPending(Lists.Filter(ns, keep))
  {
    var r := Lists.Filter(ns, keep);
    Lists.FilterKeepsOrder(ns, keep);
    var idx :| Lists.Embedding(r, ns, idx);
    forall i, j | 0 <= i < j < |r|
      ensures r[i].id != r[j].id
    {
      assert r[i] == ns[idx[i]] && r[j] == ns[idx[j]] && idx[i] < idx[j];
    }
  }

  /** After a retry, the pending list holds exactly the previously pending
      nudges whose task is still unknown, in their original order; the
      presentation order only grows, and every parked nudge whose task now
      resolves is on screen or queued. */
  lemma RetrySpec(p: Pipeline, tasks: seq<TaskStore.Task>)
    requires WellFormed(p)
    ensures var r := Retry(p, tasks);
      && (forall n :: n in r.pending <==> n in p.pending && !Known(tasks, n.task))
      && Lists.IsSubsequence(r.pending, p.pending)
      && Line(p) <= Line(r)
      && (forall k :: 0 <= k < |p.pending| && Known(tasks, p.pending[k].task) ==> Shows(Line(r), p.pending[k].id))
  {
    var r := Retry(p, tasks);
    Lists.FilterKeepsOrder(p.pending, Unresolved(tasks));
    Lists.FilterMembers(p.pending, Unresolved(tasks));
    if |p.pending| == 0 {
      assert Lists.Embedding(r.pending, p.pending, []);
    } else {
      DrainExtends(p, p.pending, tasks);
      DrainDelivers(p, p.pending, tasks);
    }
  }

  lemma RetryPreserves(p: Pipeline, tasks: seq<TaskStore.Task>)
    requires WellFormed(p)
    ensures WellFormed(Retry(p, tasks))
  {
    if |p.pending| > 0 {
      DrainPreserves(p, p.pending, tasks);
      DrainExtends(p, p.pending, tasks);
      FilterDistinct(p.pending, Unresolved(tasks));
      var kept := StillPending(p.pending, tasks);
      Lists.FilterMembers(p.pending, Unresolved(tasks));
      forall i | 0 <= i < |kept|
        ensures Presentable(kept[i])
      {
        assert kept[i] in p.pending;
      }
    }
  }

  /** A second retry with the same tasks changes nothing. */
  lemma RetryIdempotent(p: Pipeline, tasks: seq<TaskStore.Task>)
    ensures Retry(Retry(p, tasks), tasks) == Retry(p, tasks)
  {
    var r := Retry(p, tasks);
    if |p.pending| > 0 && |r.pending| > 0 {
      assert r.pending == StillPending(p.pending, tasks);
      DrainSkipsUnresolved(r, r.pending, tasks);
      Lists.FilterAll(r.pending, Unresolved(tasks));
    }
  }

  // dismissNudge and clearAllNudges

  /** Dismissing an id that is not active changes nothing; dismissing the
      active nudge frees the screen, leaves the queue alone, and drops
      exactly the first notification of the presentation order. */
  lemma DismissSpec(p: Pipeline, id: string)
    requires WellFormed(p)
    ensures !Shows(p.active, id) ==> Dismiss(p, id) == p
    ensures Shows(p.active, id) ==>
      && Dismiss(p, id) == p.(active := [])
      && Line(Dismiss(p, id)) == Line(p)[1..]
  {
    if Shows(p.active, id) {
      var i := Lists.FindIndex(p.active, IsNudge(id));
      assert i == 0;
      assert p.active[..0] + p.active[1..] == [];
    }
  }

  lemma DismissPreserves(p: Pipeline, id: string)
    requires WellFormed(p)
    ensures WellFormed(Dismiss(p, id))
  {
    DismissSpec(p, id);
    if Shows(p.active, id) {
      var l := Line(p);
      forall i, j | 0 <= i < j < |l[1..]|
        ensures l[1..][i].nudgeId != l[1..][j].nudgeId
      {
        assert l[1..][i] == l[i + 1] && l[1..][j] == l[j + 1];
      }
    }
  }

  /** First in, first out: dismissing the active nudge and then promoting
      shows the head of the queue, and the presentation order loses only
      the dismissed nudge. */
  lemma PresentedInOrder(p: Pipeline)
    requires WellFormed(p) && |p.active| == 1 && p.queue != []
    ensures var r := ShowNext(Dismiss(p, p.active[0].nudgeId));
      && r.active == [p.queue[0]]
      && Line(r) == Line(p)[1..]
      && r.pending == p.pending
  {
    var id := p.active[0].nudgeId;
    assert Shows(p.active, id);
    DismissSpec(p, id);
    ShowNextSpec(Dismiss(p, id));
  }

  /** `clearAllNudges` empties the screen and the queue but keeps parked
      nudges. */
  lemma ClearAllSpec(p: Pipeline)
    requires WellFormed(p)
    ensures Line(ClearAll(p)) == [] && ClearAll(p).pending == p.pending
    ensures WellFormed(ClearAll(p))
  {
  }

  // Scenarios

  /** The same nudge can be parked and queued at once: it arrives before
      its task is loaded, then again once the task is there but before the
      retry runs. The retry then drops the parked copy as a duplicate. */
  lemma ParkedAndQueued(n: Nudge, task: TaskStore.Task)
    requires Presentable(n) && task.id == n.task
    ensures var p1 := Handle(Empty, n, []);
      var p2 := Handle(p1, n, [task]);
      var p3 := Retry(p2, [task]);
      && p1.pending == [n] && Line(p1) == []
      && p2.pending == [n] && p2.active == [Entry(n, task.title)]
      && p3.pending == [] && Line(p3) == Line(p2)
  {
    var p1 := Handle(Empty, n, []);
    var p2 := Handle(p1, n, [task]);
    assert TaskStore.GetTaskById([task], n.task).Some?;
    assert Shows(p2.active, n.id) by {
      assert p2.active[0].nudgeId == n.id;
    }
    assert Drain(p2, [n], [task]) == Handle(Drain(p2, [], [task]), n, [task]);
    assert Lists.Filter([n], Unresolved([task])) == [] by {
      assert [n][..0] == [];
    }
  }

  /** Duplicates are judged against the current lists only: a nudge that
      was shown and dismissed is shown again when it arrives again. */
  lemma ShownAgainAfterDismiss(p: Pipeline, n: Nudge, tasks: seq<TaskStore.Task>)
    requires Line(p) == [] && Presentable(n) && Known(tasks, n.task)
    ensures var shown := Handle(p, n, tasks);
      var dismissed := Dismiss(shown, n.id);
      && |shown.active| == 1 && shown.active[0].nudgeId == n.id
      && Line(dismissed) == []
      && Handle(dismissed, n, tasks).active == shown.active
  {
    var shown := Handle(p, n, tasks);
    assert !Shows(Line(p), n.id);
    HandleEnqueues(p, n, tasks);
    assert shown.active[0] == Line(shown)[0];
    assert Shows(shown.active, n.id);
    var i := Lists.FindIndex(shown.active, IsNudge(n.id));
    assert i == 0;
    var dismissed := Dismiss(shown, n.id);
    assert dismissed.active == [] && dismissed.queue == [];
    assert !Shows(Line(dismissed), n.id);
    HandleEnqueues(dismissed, n, tasks);
  }

  /** One turn of the retry loop: handing on a nudge whose task is known,
      and skipping one whose task is not, is one more step of `Drain`. */
  lemma RetryStep(start: Pipeline, ns: seq<Nudge>, i: int, tasks: seq<TaskStore.Task>, before: Pipeline, after: Pipeline)
    requires 0 <= i < |ns|
    requires before == Drain(start, ns[..i], tasks)
    requires after == if Known(tasks, ns[i].task) then Handle(before, ns[i], tasks) else before
    ensures after == Drain(start, ns[..i + 1], tasks)
  {
    assert ns[..i + 1][..i] == ns[..i];
  }

  /** One more nudge of the snapshot extends `stillPending` exactly when
      its task is unknown. */
  lemma PendingStep(ns: seq<Nudge>, i: int, tasks: seq<TaskStore.Task>)
    requires 0 <= i < |ns|
    ensures StillPending(ns[..i + 1], tasks) ==
      if Known(tasks, ns[i].task) then StillPending(ns[..i], tasks) else StillPending(ns[..i], tasks) + [ns[i]]
  {
    assert ns[..i + 1] == ns[..i] + [ns[i]];
    Lists.FilterSnoc(ns[..i], ns[i], Unresolved(tasks));
  }

  /** The store: the three lists as fields, changed in place. */
  class NudgeStore {
    var activeNudges: seq<ActiveNudge>
    var nudgeQueue: seq<ActiveNudge>
    var pendingNudges: seq<Nudge>

    function State(): Pipeline
      reads this
    {
      Pipeline(activeNudges, nudgeQueue, pendingNudges)
    }

    ghost predicate Valid()
      reads this
    {
      WellFormed(State())
    }

    constructor ()
      ensures Valid() && State() == Empty
    {
      activeNudges := [];
      nudgeQueue := [];
      pendingNudges := [];
    }

    method ShowNextNudge()
      requires Valid()
      modifies this
      ensures Valid() && State() == ShowNext(old(State()))
    {
      ShowNextPreserves(State());
      if |nudgeQueue| > 0 && |activeNudges| == 0 {
        var next := nudgeQueue[0];
        nudgeQueue := nudgeQueue[1..];
        activeNudges := activeNudges + [next];
      }
    }

    method HandleIncomingNudge(nudge: Nudge, tasks: seq<TaskStore.Task>)
      requires Valid()
      modifies this
      ensures Valid() && State() == Handle(old(State()), nudge, tasks)
    {
      HandlePreserves(State(), nudge, tasks);
      var alreadyQueued := Shows(nudgeQueue, nudge.id);
      var alreadyActive := Shows(activeNudges, nudge.id);
      if alreadyQueued || alreadyActive {
        return;
      }
      if nudge.triggeredAt.Null? || nudge.message == "" {
        return;
      }
      var task := TaskStore.GetTaskById(tasks, nudge.task);
      if task.None? {
        if !Parked(pendingNudges, nudge.id) {
          pendingNudges := pendingNudges + [nudge];
        }
        return;
      }
      var entry := Entry(nudge, task.value.title);
      ShowsConcat(activeNudges, nudgeQueue, nudge.id);
      AppendDistinct(activeNudges + nudgeQueue, entry);
      assert activeNudges + (nudgeQueue + [entry]) == activeNudges + nudgeQueue + [entry];
      nudgeQueue := nudgeQueue + [entry];
      ShowNextNudge();
    }

    method RetryPendingNudges(tasks: seq<TaskStore.Task>)
      requires Valid()
      modifies this
      ensures Valid() && State() == Retry(old(State()), tasks)
    {
      RetryPreserves(State(), tasks);
      if |pendingNudges| == 0 {
        return;
      }
      ghost var start := State();
      var stillPending: seq<Nudge> := [];
      var snapshot := pendingNudges;
      for i := 0 to |snapshot|
        invariant Valid()
        invariant State() == Drain(start, snapshot[..i], tasks)
        invariant stillPending == StillPending(snapshot[..i], tasks)
      {
        ghost var before := State();
        PendingStep(snapshot, i, tasks);
        var nudge := snapshot[i];
        var task := TaskStore.GetTaskById(tasks, nudge.task);
        if task.Some? {
          HandleIncomingNudge(nudge, tasks);
        } else {
          stillPending := stillPending + [nudge];
        }
        RetryStep(start, snapshot, i, tasks, before, State());
      }
      assert snapshot[..|snapshot|] == snapshot;
      DrainExtends(start, snapshot, tasks);
      pendingNudges := stillPending;
    }

    /** Removes the active notification with that id; the promotion that
        follows after a delay is a separate `ShowNextNudge`. */
    method DismissNudge(nudgeId: string)
      requires Valid()
      modifies this
      ensures Valid() && State() == Dismiss(old(State()), nudgeId)
    {
      DismissPreserves(State(), nudgeId);
      var index := Lists.FindIndex(activeNudges, IsNudge(nudgeId));
      if index != -1 {
        activeNudges := activeNudges[..index] + activeNudges[index + 1..];
      }
    }

    method ClearAllNudges()
      requires Valid()
      modifies this
      ensures Valid() && State() == ClearAll(old(State()))
    {
      activeNudges := [];
      nudgeQueue := [];
    }

    /** The watcher on the session: on logout every list is emptied. */
    method OnAuthChanged(isAuthenticated: bool)
      requires Valid()
      modifies this
      ensures Valid() && State() == if isAuthenticated then old(State()) else Empty
    {
      if !isAuthenticated {
        ClearAllNudges();
        pendingNudges := [];
      }
    }

    /** The watcher on the number of tasks: when tasks first appear, parked
        nudges are retried. */
    method OnTaskCountChanged(newLength: int, oldLength: int, tasks: seq<TaskStore.Task>)
      requires Valid()
      modifies this
      ensures Valid()
      ensures State() == if oldLength == 0 && newLength > 0 && |old(pendingNudges)| > 0
                         then Retry(old(State()), tasks) else old(State())
    {
      if oldLength == 0 && newLength > 0 && |pendingNudges| > 0 {
        RetryPendingNudges(tasks);
      }
    }

    /** The watcher on the task store's loading flag: when a load ends,
        parked nudges are retried. */
    method OnLoadingChanged(isLoading: bool, wasLoading: bool, tasks: seq<TaskStore.Task>)
      requires Valid()
      modifies this
      ensures Valid()
      ensures State() == if wasLoading && !isLoading && |old(pendingNudges)| > 0
                         then Retry(old(State()), tasks) else old(State())
    {
      if wasLoading && !isLoading && |pendingNudges| > 0 {
        RetryPendingNudges(tasks);
      }
    }
  }
}
