/** The betting store of src/stores/bets.ts: the same bets as
    src/stores/betStore.ts, classified by outcome and by deadline, and a
    local points/streak ledger that the actions update themselves instead
    of reloading it. */
module Bets {
  import opened Wrappers
  import opened Session
  import Lists
  import BetStore

  type Bet = BetStore.Bet

  /** The local `userProfile`. */
  datatype Ledger = Ledger(points: int, streak: int)

  /** The store's bets and ledger together. */
  datatype Book = Book(bets: seq<Bet>, profile: Option<Ledger>)

  function PendingBets(bets: seq<Bet>): seq<Bet>
  {
    Lists.Filter(bets, BetStore.IsUnresolved)
  }

  function SuccessfulBets(bets: seq<Bet>): seq<Bet>
  {
    Lists.Filter(bets, BetStore.IsSuccessful)
  }

  function FailedBets(bets: seq<Bet>): seq<Bet>
  {
    Lists.Filter(bets, BetStore.IsFailed)
  }

  /** The filter of `activeBets`: unresolved, deadline strictly after now. */
  function IsActive(now: int): Bet -> bool
  {
    (b: Bet) => b.success.None? && b.deadline > now
  }

  /** The filter of `expiredBets`: unresolved, deadline now or earlier. */
  function IsExpired(now: int): Bet -> bool
  {
    (b: Bet) => b.success.None? && b.deadline <= now
  }

  function DueAfter(now: int): Bet -> bool
  {
    (b: Bet) => b.deadline > now
  }

  function DueBy(now: int): Bet -> bool
  {
    (b: Bet) => b.deadline <= now
  }

  function ActiveBets(bets: seq<Bet>, now: int): seq<Bet>
  {
    Lists.Filter(bets, IsActive(now))
  }

  function ExpiredBets(bets: seq<Bet>, now: int): seq<Bet>
  {
    Lists.Filter(bets, IsExpired(now))
  }

  /** `totalWagered`: the wagers of all bets, resolved or not. */
  function TotalWagered(bets: seq<Bet>): int
  {
    Lists.SumBy(bets, BetStore.Wager)
  }

  /** The reward the store expects for a won bet: twice the wager. */
  function DoubleWager(b: Bet): int
  {
    b.wager * 2
  }

  function TotalRewards(bets: seq<Bet>): int
  {
    Lists.SumBy(SuccessfulBets(bets), DoubleWager)
  }

  /** Pending, successful and failed bets split the list. */
  lemma OutcomePartition(bets: seq<Bet>)
    ensures multiset(PendingBets(bets)) + multiset(SuccessfulBets(bets)) + multiset(FailedBets(bets)) == multiset(bets)
    ensures |PendingBets(bets)| + |SuccessfulBets(bets)| + |FailedBets(bets)| == |bets|
  {
    forall i | 0 <= i < |bets|
      ensures BetStore.IsUnresolved(bets[i]) || BetStore.IsSuccessful(bets[i]) || BetStore.IsFailed(bets[i])
    {
      var b := bets[i];
      if b.success.Some? {
        if b.success.value {
          assert BetStore.IsSuccessful(b);
        } else {
          assert BetStore.IsFailed(b);
        }
      }
    }
    Lists.FilterSplit3(bets, BetStore.IsUnresolved, BetStore.IsSuccessful, BetStore.IsFailed);
  }

  /** For one `now`, active and expired bets split the pending ones. */
  lemma DeadlinePartition(bets: seq<Bet>, now: int)
    ensures ActiveBets(bets, now) == Lists.Filter(PendingBets(bets), DueAfter(now))
    ensures ExpiredBets(bets, now) == Lists.Filter(PendingBets(bets), DueBy(now))
    ensures multiset(ActiveBets(bets, now)) + multiset(ExpiredBets(bets, now)) == multiset(PendingBets(bets))
  {
    Lists.FilterRefine(bets, BetStore.IsUnresolved, DueAfter(now), IsActive(now));
    Lists.FilterRefine(bets, BetStore.IsUnresolved, DueBy(now), IsExpired(now));
    Lists.FilterSplit(PendingBets(bets), DueAfter(now), DueBy(now));
  }

  /** `totalRewards` is twice the wagers of the won bets. */
  lemma TotalRewardsSpec(bets: seq<Bet>)
    ensures TotalRewards(bets) == 2 * Lists.SumBy(SuccessfulBets(bets), BetStore.Wager)
  {
    Lists.SumScale(SuccessfulBets(bets), BetStore.Wager, DoubleWager, 2);
  }

  /** This store's `totalWagered` counts every bet: it is the other
      store's total over unresolved bets plus the wagers of resolved ones. */
  lemma TotalWageredSpec(bets: seq<Bet>)
    ensures TotalWagered(bets) == BetStore.TotalWagered(bets) + Lists.SumBy(BetStore.ResolvedBets(bets), BetStore.Wager)
  {
    BetStore.TotalWageredSpec(bets);
  }

  /** A reward counts only when it is present and not zero. */
  predicate Truthy(reward: Option<int>)
  {
    reward.Some? && reward.value != 0
  }

  /** The complement of `IdIsNot`: the bets that `cancelBet` removes. */
  function IdIs(id: string): Bet -> bool
  {
    (b: Bet) => b.id == id
  }

  /** The `_id !== id` test of `cancelBet`. */
  function IdIsNot(id: string): Bet -> bool
  {
    (b: Bet) => b.id != id
  }

  /** `placeBet`'s local update: the server's bet is appended and the
      wager asked for is debited. */
  function Placed(b: Book, created: Bet, wager: int): Book
  {
    var profile := if b.profile.Some? then Some(b.profile.value.(points := b.profile.value.points - wager)) else None;
    Book(b.bets + [created], profile)
  }

  /** `cancelBet`'s local update: the first bet on the task and every bet
      sharing its id are removed, and its wager is refunded. */
  function Canceled(b: Book, taskId: string): Book
  {
    match BetStore.GetBetByTaskId(b.bets, taskId)
    case None => b
    case Some(bet) =>
      var profile := if b.profile.Some? then Some(b.profile.value.(points := b.profile.value.points + bet.wager)) else None;
      Book(Lists.Filter(b.bets, IdIsNot(bet.id)), profile)
  }

  /** `resolveBet`'s local update: the first bet on the task is won; a
      present, non-zero reward is credited and extends the streak. */
  function Resolved(b: Book, taskId: string, reward: Option<int>): Book
  {
    var i := Lists.FindIndex(b.bets, BetStore.TaskIs(taskId));
    if i == -1 then b
    else
      var profile := if b.profile.Some? && Truthy(reward)
        then Some(Ledger(b.profile.value.points + reward.value, b.profile.value.streak + 1))
        else b.profile;
      Book(b.bets[i := b.bets[i].(success := Some(true))], profile)
  }

  /** `resolveExpiredBet`'s local update: the first bet on the task is
      lost and the streak restarts. */
  function ExpiredResolved(b: Book, taskId: string): Book
  {
    var i := Lists.FindIndex(b.bets, BetStore.TaskIs(taskId));
    if i == -1 then b
    else
      var profile := if b.profile.Some? then Some(b.profile.value.(streak := 0)) else None;
      Book(b.bets[i := b.bets[i].(success := Some(false))], profile)
  }

  /** Placing adds the new bet to exactly one of the pending, successful
      and failed lists, raises `totalWagered` by its wager, makes it the
      bet found for its task when the task had none, and debits exactly
      the wager from an existing ledger, keeping the streak. */
  lemma PlacedSpec(b: Book, created: Bet, wager: int)
    ensures PendingBets(Placed(b, created, wager).bets) ==
      PendingBets(b.bets) + if BetStore.IsUnresolved(created) then [created] else []
    ensures SuccessfulBets(Placed(b, created, wager).bets) ==
      SuccessfulBets(b.bets) + if BetStore.IsSuccessful(created) then [created] else []
    ensures FailedBets(Placed(b, created, wager).bets) ==
      FailedBets(b.bets) + if BetStore.IsFailed(created) then [created] else []
    ensures TotalWagered(Placed(b, created, wager).bets) == TotalWagered(b.bets) + created.wager
    ensures BetStore.GetBetByTaskId(b.bets, created.task).None? ==>
      BetStore.GetBetByTaskId(Placed(b, created, wager).bets, created.task) == Some(created)
    ensures Placed(b, created, wager).profile.Some? <==> b.profile.Some?
    ensures b.profile.Some? ==>
      && Placed(b, created, wager).profile.value.points == b.profile.value.points - wager
      && Placed(b, created, wager).profile.value.streak == b.profile.value.streak
  {
    assert Placed(b, created, wager).bets == b.bets + [created];
    Lists.FilterSnoc(b.bets, created, BetStore.IsUnresolved);
    Lists.FilterSnoc(b.bets, created, BetStore.IsSuccessful);
    Lists.FilterSnoc(b.bets, created, BetStore.IsFailed);
    Lists.SumBySnoc(b.bets, created, BetStore.Wager);
    if BetStore.GetBetByTaskId(b.bets, created.task).None? {
      AppendedIsFound(b.bets, created);
    }
  }

  /** Cancelling with no bet on the task changes nothing; otherwise it
      removes exactly the bets sharing the first such bet's id, keeps the
      others in order, and refunds that bet's wager. */
  lemma CanceledSpec(b: Book, taskId: string)
    ensures BetStore.GetBetByTaskId(b.bets, taskId).None? ==> Canceled(b, taskId) == b
    ensures BetStore.GetBetByTaskId(b.bets, taskId).Some? ==>
      var bet, r := BetStore.GetBetByTaskId(b.bets, taskId).value, Canceled(b, taskId);
      && bet in b.bets && bet.task == taskId && bet !in r.bets
      && (forall x :: x in r.bets <==> x in b.bets && x.id != bet.id)
      && Lists.IsSubsequence(r.bets, b.bets)
      && |r.bets| + |Lists.Filter(b.bets, IdIs(bet.id))| == |b.bets|
      && (r.profile.Some? <==> b.profile.Some?)
      && (b.profile.Some? ==> r.profile.value == Ledger(b.profile.value.points + bet.wager, b.profile.value.streak))
  {
    var found := BetStore.GetBetByTaskId(b.bets, taskId);
    if found.Some? {
      var bet := found.value;
      Lists.FilterKeepsOrder(b.bets, IdIsNot(bet.id));
      Lists.FilterSplit(b.bets, IdIsNot(bet.id), IdIs(bet.id));
      Lists.FilterMembers(b.bets, IdIsNot(bet.id));
    }
  }

  /** Resolving with no bet on the task changes nothing; otherwise only
      the first bet on the task changes, it is won, it moves from pending
      to successful if it was pending, and only a present, non-zero reward
      touches the ledger. */
  lemma ResolvedSpec(b: Book, taskId: string, reward: Option<int>)
    ensures Lists.FindIndex(b.bets, BetStore.TaskIs(taskId)) == -1 ==> Resolved(b, taskId, reward) == b
    ensures var i, r := Lists.FindIndex(b.bets, BetStore.TaskIs(taskId)), Resolved(b, taskId, reward);
      i >= 0 ==>
        && |r.bets| == |b.bets|
        && (forall j :: 0 <= j < |b.bets| && j != i ==> r.bets[j] == b.bets[j])
        && r.bets[i] == b.bets[i].(success := Some(true))
        && (b.bets[i].success.None? ==>
              |PendingBets(r.bets)| == |PendingBets(b.bets)| - 1
              && |SuccessfulBets(r.bets)| == |SuccessfulBets(b.bets)| + 1)
        && (b.profile.Some? && Truthy(reward) ==>
              r.profile == Some(Ledger(b.profile.value.points + reward.value, b.profile.value.streak + 1)))
        && (!(b.profile.Some? && Truthy(reward)) ==> r.profile == b.profile)
  {
    var i := Lists.FindIndex(b.bets, BetStore.TaskIs(taskId));
    if i >= 0 {
      var won := b.bets[i].(success := Some(true));
      var profile := if b.profile.Some? && Truthy(reward)
        then Some(Ledger(b.profile.value.points + reward.value, b.profile.value.streak + 1))
        else b.profile;
      assert Resolved(b, taskId, reward) == Book(b.bets[i := won], profile);
      if b.bets[i].success.None? {
        SettleCounts(b.bets, i, true);
      }
    }
  }

  /** Settling a pending bet moves it from the pending count to the
      successful or the failed count. */
  lemma SettleCounts(bets: seq<Bet>, i: int, outcome: bool)
    requires 0 <= i < |bets| && bets[i].success.None?
    ensures var after := bets[i := bets[i].(success := Some(outcome))];
      && |PendingBets(after)| == |PendingBets(bets)| - 1
      && |SuccessfulBets(after)| == |SuccessfulBets(bets)| + (if outcome then 1 else 0)
      && |FailedBets(after)| == |FailedBets(bets)| + (if outcome then 0 else 1)
  {
    var settled := bets[i].(success := Some(outcome));
    Lists.FilterCountUpdate(bets, i, settled, BetStore.IsUnresolved);
    Lists.FilterCountUpdate(bets, i, settled, BetStore.IsSuccessful);
    Lists.FilterCountUpdate(bets, i, settled, BetStore.IsFailed);
  }

  /** Resolving an expired bet with no bet on the task changes nothing;
      otherwise only the first bet on the task changes, it is lost, and
      the streak restarts while the points stay. */
  lemma ExpiredResolvedSpec(b: Book, taskId: string)
    ensures Lists.FindIndex(b.bets, BetStore.TaskIs(taskId)) == -1 ==> ExpiredResolved(b, taskId) == b
    ensures var i, r := Lists.FindIndex(b.bets, BetStore.TaskIs(taskId)), ExpiredResolved(b, taskId);
      i >= 0 ==>
        && |r.bets| == |b.bets|
        && (forall j :: 0 <= j < |b.bets| && j != i ==> r.bets[j] == b.bets[j])
        && r.bets[i] == b.bets[i].(success := Some(false))
        && (b.bets[i].success.None? ==>
              |PendingBets(r.bets)| == |PendingBets(b.bets)| - 1
              && |FailedBets(r.bets)| == |FailedBets(b.bets)| + 1)
        && (r.profile.Some? <==> b.profile.Some?)
        && (b.profile.Some? ==> r.profile.value == Ledger(b.profile.value.points, 0))
  {
    var i := Lists.FindIndex(b.bets, BetStore.TaskIs(taskId));
    if i >= 0 {
      var lost := b.bets[i].(success := Some(false));
      assert ExpiredResolved(b, taskId).bets == b.bets[i := lost];
      if b.bets[i].success.None? {
        SettleCounts(b.bets, i, false);
      }
    }
  }

  /** Placing a bet on a task that has none, with a fresh id, and then
      cancelling it restores both the bets and the ledger. */
  lemma PlaceCancelRoundTrip(b: Book, created: Bet)
    requires BetStore.GetBetByTaskId(b.bets, created.task).None?
    requires forall i :: 0 <= i < |b.bets| ==> b.bets[i].id != created.id
    ensures Canceled(Placed(b, created, created.wager), created.task) == b
  {
    var placed := Placed(b, created, created.wager);
    AppendedIsFound(b.bets, created);
    AppendedIsDropped(b.bets, created);
    assert placed.bets == b.bets + [created];
    assert BetStore.GetBetByTaskId(placed.bets, created.task) == Some(created);
  }

  /** Looking the task up after the append finds the appended bet. */
  lemma AppendedIsFound(bets: seq<Bet>, created: Bet)
    requires BetStore.GetBetByTaskId(bets, created.task).None?
    ensures BetStore.GetBetByTaskId(bets + [created], created.task) == Some(created)
  {
    AppendedIsFirstMatch(bets, created);
  }

  /** Removing the appended bet's id takes away exactly the appended bet. */
  lemma AppendedIsDropped(bets: seq<Bet>, created: Bet)
    requires forall i :: 0 <= i < |bets| ==> bets[i].id != created.id
    ensures Lists.Filter(bets + [created], IdIsNot(created.id)) == bets
  {
    Lists.FilterSnoc(bets, created, IdIsNot(created.id));
    Lists.FilterAll(bets, IdIsNot(created.id));
  }

  /** A bet appended to a list with no bet on its task is the first one on it. */
  lemma AppendedIsFirstMatch(bets: seq<Bet>, created: Bet)
    requires BetStore.GetBetByTaskId(bets, created.task).None?
    ensures Lists.FindIndex(bets + [created], BetStore.TaskIs(created.task)) == |bets|
  {
    assert BetStore.TaskIs(created.task)((bets + [created])[|bets|]);
  }

  class BetsStore {
    var bets: seq<Bet>
    var userProfile: Option<Ledger>
    var isLoading: bool
    var error: Option<string>

    function Contents(): Book
      reads this
    {
      Book(bets, userProfile)
    }

    constructor ()
      ensures Contents() == Book([], None) && !isLoading && error == None
    {
      bets := [];
      userProfile := None;
      isLoading := false;
      error := None;
    }

    /** Without a user every action only records the error and answers false. */
    twostate predicate Refused(user: Option<string>, ok: bool)
      reads this
    {
      && !SignedIn(user)
      && !ok
      && Contents() == old(Contents())
      && isLoading == old(isLoading)
      && error == Some(NotAuthenticated)
    }

    predicate Settled()
      reads this
    {
      !isLoading && error == None
    }

    /** `initializeBettor`: a fresh ledger with no points and no streak. */
    method InitializeBettor(user: Option<string>) returns (ok: bool)
      modifies this
      ensures !SignedIn(user) ==> Refused(user, ok)
      ensures SignedIn(user) ==> ok && Settled() && Contents() == Book(old(bets), Some(Ledger(0, 0)))
    {
      if !SignedIn(user) {
        error := Some(NotAuthenticated);
        return false;
      }
      isLoading := true;
      error := None;
      userProfile := Some(Ledger(0, 0));
      isLoading := false;
      ok := true;
    }

    /** `placeBet`, given the bet the server created. */
    method PlaceBet(user: Option<string>, wager: int, created: Bet) returns (ok: bool)
      modifies this
      ensures !SignedIn(user) ==> Refused(user, ok)
      ensures SignedIn(user) ==> ok && Settled() && Contents() == Placed(old(Contents()), created, wager)
    {
      if !SignedIn(user) {
        error := Some(NotAuthenticated);
        return false;
      }
      isLoading := true;
      error := None;
      bets := bets + [created];
      if userProfile.Some? {
        userProfile := Some(userProfile.value.(points := userProfile.value.points - wager));
      }
      isLoading := false;
      ok := true;
    }

    method CancelBet(user: Option<string>, taskId: string) returns (ok: bool)
      modifies this
      ensures !SignedIn(user) ==> Refused(user, ok)
      ensures SignedIn(user) ==> ok && Settled() && Contents() == Canceled(old(Contents()), taskId)
    {
      if !SignedIn(user) {
        error := Some(NotAuthenticated);
        return false;
      }
      isLoading := true;
      error := None;
      ghost var start := Contents();
      var bet := BetStore.GetBetByTaskId(bets, taskId);
      if bet.Some? {
        bets := Lists.Filter(bets, IdIsNot(bet.value.id));
        if userProfile.Some? {
          userProfile := Some(userProfile.value.(points := userProfile.value.points + bet.value.wager));
        }
      }
      assert Contents() == Canceled(start, taskId);
      isLoading := false;
      ok := true;
    }

    /** `resolveBet`, given the server's answer. */
    method ResolveBet(user: Option<string>, taskId: string, response: BetStore.ResolveBetResponse) returns (ok: bool)
      modifies this
      ensures !SignedIn(user) ==> Refused(user, ok)
      ensures SignedIn(user) ==> ok && Settled() && Contents() == Resolved(old(Contents()), taskId, response.reward)
    {
      if !SignedIn(user) {
        error := Some(NotAuthenticated);
        return false;
      }
      isLoading := true;
      error := None;
      var index := Lists.FindIndex(bets, BetStore.TaskIs(taskId));
      if index != -1 {
        bets := bets[index := bets[index].(success := Some(true))];
        if userProfile.Some? && Truthy(response.reward) {
          userProfile := Some(Ledger(userProfile.value.points + response.reward.value, userProfile.value.streak + 1));
        }
      }
      isLoading := false;
      ok := true;
    }

    method ResolveExpiredBet(user: Option<string>, taskId: string) returns (ok: bool)
      modifies this
      ensures !SignedIn(user) ==> Refused(user, ok)
      ensures SignedIn(user) ==> ok && Settled() && Contents() == ExpiredResolved(old(Contents()), taskId)
    {
      if !SignedIn(user) {
        error := Some(NotAuthenticated);
        return false;
      }
      isLoading := true;
      error := None;
      var index := Lists.FindIndex(bets, BetStore.TaskIs(taskId));
      if index != -1 {
        bets := bets[index := bets[index].(success := Some(false))];
        if userProfile.Some? {
          userProfile := Some(userProfile.value.(streak := 0));
        }
      }
      isLoading := false;
      ok := true;
    }

    /** `fetchBetHistory`: the bets become the server's history. */
    method FetchBetHistory(user: Option<string>, history: seq<Bet>) returns (ok: bool)
      modifies this
      ensures !SignedIn(user) ==> Refused(user, ok)
      ensures SignedIn(user) ==> ok && Settled() && Contents() == Book(history, old(userProfile))
    {
      if !SignedIn(user) {
        error := Some(NotAuthenticated);
        return false;
      }
      isLoading := true;
      error := None;
      bets := history;
      isLoading := false;
      ok := true;
    }

    /** `clearBets`: no bets and no ledger. */
    method ClearBets()
      modifies this
      ensures Contents() == Book([], None) && isLoading == old(isLoading) && error == old(error)
    {
      bets := [];
      userProfile := None;
    }
  }
}
