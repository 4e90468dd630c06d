/** The betting store of src/stores/betStore.ts: the user's bets on their
    own tasks, their classification, the wager total, the bettor profile's
    statistics, and the local part of its actions (every other change comes
    from reloading the server's bets and profile). */
module BetStore {
  import opened Wrappers
  import opened Session
  import Lists

  /** A bet; `success` is absent until the bet is resolved. */
  datatype Bet = Bet(
    id: string,
    user: string,
    task: string,
    wager: int,
    deadline: int,
    taskDueDate: Option<int>,
    success: Option<bool>,
    createdAt: int)

  datatype BettorProfile = BettorProfile(
    points: int,
    streak: int,
    totalBets: int,
    successfulBets: int,
    failedBets: int,
    pendingBets: int)

  /** The statistics shown for a profile. */
  datatype BetStats = BetStats(
    points: int,
    streak: int,
    totalBets: int,
    successfulBets: int,
    failedBets: int,
    pendingBets: int,
    successRate: int)

  datatype ResolveStatus = AlreadyResolved | Resolved

  /** The server's answer to a resolution. */
  datatype ResolveBetResponse = ResolveBetResponse(status: ResolveStatus, reward: Option<int>)

  const ProfileNotInitialized: string := "Betting profile not initialized"

  /** `success === undefined`. */
  predicate IsUnresolved(b: Bet)
  {
    b.success.None?
  }

  /** `success !== undefined`. */
  predicate IsResolved(b: Bet)
  {
    b.success.Some?
  }

  /** `success === true`. */
  predicate IsSuccessful(b: Bet)
  {
    b.success == Some(true)
  }

  /** `success === false`. */
  predicate IsFailed(b: Bet)
  {
    b.success == Some(false)
  }

  /** The filter of `expiredBets`: the deadline is strictly before now. */
  function Before(now: int): Bet -> bool
  {
    (b: Bet) => b.deadline < now
  }

  /** The filter of `pendingBets`: the deadline is now or later. */
  function NotBefore(now: int): Bet -> bool
  {
    (b: Bet) => b.deadline >= now
  }

  function Wager(b: Bet): int
  {
    b.wager
  }

  function ActiveBets(bets: seq<Bet>): seq<Bet>
  {
    Lists.Filter(bets, IsUnresolved)
  }

  function ExpiredBets(bets: seq<Bet>, now: int): seq<Bet>
  {
    Lists.Filter(ActiveBets(bets), Before(now))
  }

  function ResolvedBets(bets: seq<Bet>): seq<Bet>
  {
    Lists.Filter(bets, IsResolved)
  }

  function SuccessfulBets(bets: seq<Bet>): seq<Bet>
  {
    Lists.Filter(bets, IsSuccessful)
  }

  function FailedBets(bets: seq<Bet>): seq<Bet>
  {
    Lists.Filter(bets, IsFailed)
  }

  function PendingBets(bets: seq<Bet>, now: int): seq<Bet>
  {
    Lists.Filter(ActiveBets(bets), NotBefore(now))
  }

  /** `totalWagered`: the wagers of the unresolved bets only. */
  function TotalWagered(bets: seq<Bet>): int
  {
    Lists.SumBy(ActiveBets(bets), Wager)
  }

  /** `points`: zero without a profile. */
  function Points(profile: Option<BettorProfile>): (r: int)
    ensures profile.None? ==> r == 0
  {
    if profile.Some? then profile.value.points else 0
  }

  /** `streak`: zero without a profile. */
  function Streak(profile: Option<BettorProfile>): (r: int)
    ensures profile.None? ==> r == 0
  {
    if profile.Some? then profile.value.streak else 0
  }

  /** `Math.round(successful / total * 100)` on exact quotients: a half
      rounds up. */
  function RoundedPercent(successful: int, total: int): int
    requires total > 0
  {
    (200 * successful + total) / (2 * total)
  }

  /** `stats`: none without a profile; the success rate is 0 when there
      are no bets. */
  function Stats(profile: Option<BettorProfile>): Option<BetStats>
  {
    if profile.None? then None
    else
      var p := profile.value;
      var rate := if p.totalBets > 0 then RoundedPercent(p.successfulBets, p.totalBets) else 0;
      Some(BetStats(p.points, p.streak, p.totalBets, p.successfulBets, p.failedBets, p.pendingBets, rate))
  }

  lemma MulMonotone(d: int, a: int, b: int)
    requires d > 0 && a <= b
    ensures d * a <= d * b
  {
  }

  /** `RoundedPercent` is the whole percentage nearest to the exact rate,
      halves rounded up; it lies between 0 and 100 when the counts are
      consistent, and is 100 when every bet succeeded. */
  lemma RoundedPercentSpec(s: int, t: int)
    requires t > 0
    ensures (2 * RoundedPercent(s, t) - 1) * t <= 200 * s < (2 * RoundedPercent(s, t) + 1) * t
    ensures 0 <= s <= t ==> 0 <= RoundedPercent(s, t) <= 100
    ensures s == t ==> RoundedPercent(s, t) == 100
  {
    var r := RoundedPercent(s, t);
    var d, n := 2 * t, 200 * s + t;
    var m := n % d;
    assert n == d * r + m && 0 <= m < d;
    assert (2 * r - 1) * t == d * r - t;
    assert (2 * r + 1) * t == d * r + t;
    if 0 <= s <= t {
      if r < 0 {
        MulMonotone(d, r, -1);
        assert false;
      }
      if r > 100 {
        MulMonotone(d, 101, r);
        assert false;
      }
    }
    if s == t {
      if r < 100 {
        MulMonotone(d, r, 99);
        assert false;
      }
    }
  }

  /** The statistics copy the profile, and the success rate is 0 without
      bets and otherwise the rounded percentage of successful bets. */
  lemma StatsSpec(profile: Option<BettorProfile>)
    ensures Stats(profile).None? <==> profile.None?
    ensures profile.Some? ==> var p, st := profile.value, Stats(profile).value;
      && st.points == p.points && st.streak == p.streak && st.totalBets == p.totalBets
      && st.successfulBets == p.successfulBets && st.failedBets == p.failedBets && st.pendingBets == p.pendingBets
      && (p.totalBets <= 0 ==> st.successRate == 0)
      && (p.totalBets > 0 ==>
            (2 * st.successRate - 1) * p.totalBets <= 200 * p.successfulBets < (2 * st.successRate + 1) * p.totalBets)
      && (0 <= p.successfulBets <= p.totalBets ==> 0 <= st.successRate <= 100)
  {
    if profile.Some? && profile.value.totalBets > 0 {
      RoundedPercentSpec(profile.value.successfulBets, profile.value.totalBets);
    }
  }

  /** The `task === taskId` test of the lookups. */
  function TaskIs(taskId: string): Bet -> bool
  {
    (b: Bet) => b.task == taskId
  }

  /** The `task !== taskId` test of `cancelBet`. */
  function TaskIsNot(taskId: string): Bet -> bool
  {
    (b: Bet) => b.task != taskId
  }

  /** `getBetByTaskId`: the first bet on the task. */
  function GetBetByTaskId(bets: seq<Bet>, taskId: string): (r: Option<Bet>)
    ensures r.None? <==> forall j :: 0 <= j < |bets| ==> bets[j].task != taskId
    ensures r.Some? ==> r.value.task == taskId
    ensures r.Some? ==> exists i :: 0 <= i < |bets| && bets[i] == r.value && forall j :: 0 <= j < i ==> bets[j].task != taskId
  {
    Lists.Find(bets, TaskIs(taskId))
  }

  /** `hasActiveBet`: some unresolved bet is on the task. */
  function HasActiveBet(bets: seq<Bet>, taskId: string): (r: bool)
    ensures r <==> exists i :: 0 <= i < |bets| && bets[i].task == taskId && bets[i].success.None?
  {
    var active := ActiveBets(bets);
    var k := Lists.FindIndex(active, TaskIs(taskId));
    ActiveBetOn(bets, taskId);
    k != -1
  }

  /** Some unresolved bet is on the task exactly when the search of the
      unresolved bets finds one. */
  lemma ActiveBetOn(bets: seq<Bet>, taskId: string)
    ensures Lists.FindIndex(ActiveBets(bets), TaskIs(taskId)) != -1 <==>
      exists i :: 0 <= i < |bets| && bets[i].task == taskId && bets[i].success.None?
  {
    var active := ActiveBets(bets);
    var k := Lists.FindIndex(active, TaskIs(taskId));
    Lists.FilterMembers(bets, IsUnresolved);
    if k != -1 {
      assert active[k] in bets;
      var i :| 0 <= i < |bets| && bets[i] == active[k];
      assert IsUnresolved(active[k]);
    }
    if exists i :: 0 <= i < |bets| && bets[i].task == taskId && bets[i].success.None? {
      var i :| 0 <= i < |bets| && bets[i].task == taskId && bets[i].success.None?;
      assert IsUnresolved(bets[i]);
      assert bets[i] in active;
      var j :| 0 <= j < |active| && active[j] == bets[i];
      assert TaskIs(taskId)(active[j]);
    }
  }

  /** Unresolved and resolved bets split the list, and successful and
      failed bets split the resolved ones. */
  lemma StatusPartition(bets: seq<Bet>)
    ensures multiset(ActiveBets(bets)) + multiset(ResolvedBets(bets)) == multiset(bets)
    ensures multiset(SuccessfulBets(bets)) + multiset(FailedBets(bets)) == multiset(ResolvedBets(bets))
  {
    Lists.FilterSplit(bets, IsUnresolved, IsResolved);
    OutcomesOfResolved(bets);
  }

  lemma OutcomesOfResolved(bets: seq<Bet>)
    ensures multiset(SuccessfulBets(bets)) + multiset(FailedBets(bets)) == multiset(ResolvedBets(bets))
  {
    var resolved := ResolvedBets(bets);
    Lists.FilterRefine(bets, IsResolved, IsSuccessful, IsSuccessful);
    Lists.FilterRefine(bets, IsResolved, IsFailed, IsFailed);
    forall i | 0 <= i < |resolved|
      ensures IsFailed(resolved[i]) == !IsSuccessful(resolved[i])
    {
      assert IsResolved(resolved[i]);
      var b := resolved[i];
      assert b.success == Some(b.success.value);
      if b.success.value {
        assert IsSuccessful(b);
      } else {
        assert IsFailed(b);
      }
    }
    Lists.FilterSplit(resolved, IsSuccessful, IsFailed);
  }

  /** For one `now`, expired and pending bets split the unresolved ones,
      and so do their wagers. */
  lemma ExpiryPartition(bets: seq<Bet>, now: int)
    ensures multiset(ExpiredBets(bets, now)) + multiset(PendingBets(bets, now)) == multiset(ActiveBets(bets))
    ensures TotalWagered(bets) == Lists.SumBy(ExpiredBets(bets, now), Wager) + Lists.SumBy(PendingBets(bets, now), Wager)
  {
    Lists.FilterSplit(ActiveBets(bets), Before(now), NotBefore(now));
    Lists.SumSplit(ActiveBets(bets), Wager, Before(now), NotBefore(now));
  }

  /** `totalWagered` leaves out exactly the wagers of resolved bets. */
  lemma TotalWageredSpec(bets: seq<Bet>)
    ensures TotalWagered(bets) + Lists.SumBy(ResolvedBets(bets), Wager) == Lists.SumBy(bets, Wager)
  {
    Lists.SumSplit(bets, Wager, IsUnresolved, IsResolved);
  }

  /** The list `cancelBet` leaves: every bet on another task, in order. */
  function WithoutBetsFor(bets: seq<Bet>, taskId: string): seq<Bet>
  {
    Lists.Filter(bets, TaskIsNot(taskId))
  }

  /** Cancelling removes every bet on the task and keeps every other bet
      in its order. */
  lemma WithoutBetsForSpec(bets: seq<Bet>, taskId: string)
    ensures forall b :: b in WithoutBetsFor(bets, taskId) <==> b in bets && b.task != taskId
    ensures Lists.IsSubsequence(WithoutBetsFor(bets, taskId), bets)
    ensures !HasActiveBet(WithoutBetsFor(bets, taskId), taskId)
    ensures GetBetByTaskId(WithoutBetsFor(bets, taskId), taskId).None?
    ensures |WithoutBetsFor(bets, taskId)| + |Lists.Filter(bets, TaskIs(taskId))| == |bets|
  {
    Lists.FilterKeepsOrder(bets, TaskIsNot(taskId));
    Lists.FilterSplit(bets, TaskIsNot(taskId), TaskIs(taskId));
    Lists.FilterMembers(bets, TaskIsNot(taskId));
  }

  class BetStore {
    var bets: seq<Bet>
    var profile: Option<BettorProfile>
    var isLoading: bool
    var error: Option<string>
    var isInitialized: bool

    constructor ()
      ensures bets == [] && profile == None && !isLoading && error == None && !isInitialized
    {
      bets := [];
      profile := None;
      isLoading := false;
      error := None;
      isInitialized := false;
    }

    predicate Settled()
      reads this
    {
      !isLoading && error == None
    }

    /** `fetchProfile`: the profile becomes the server's, and the store
        counts as initialised. */
    method FetchProfile(userId: Option<string>, fetched: BettorProfile) returns (r: Outcome<string>)
      modifies this
      ensures !SignedIn(userId) ==> r == Fail(NotAuthenticated) && unchanged(this)
      ensures SignedIn(userId) ==> r == Pass && Settled() && profile == Some(fetched) && isInitialized
      ensures SignedIn(userId) ==> bets == old(bets)
    {
      if !SignedIn(userId) {
        return Fail(NotAuthenticated);
      }
      isLoading := true;
      error := None;
      profile := Some(fetched);
      isInitialized := true;
      isLoading := false;
      r := Pass;
    }

    /** `fetchActiveBets`: the bets become the server's. */
    method FetchActiveBets(userId: Option<string>, fetched: seq<Bet>) returns (r: Outcome<string>)
      modifies this
      ensures !SignedIn(userId) ==> r == Fail(NotAuthenticated) && unchanged(this)
      ensures SignedIn(userId) ==> r == Pass && Settled() && bets == fetched
      ensures SignedIn(userId) ==> profile == old(profile) && isInitialized == old(isInitialized)
    {
      if !SignedIn(userId) {
        return Fail(NotAuthenticated);
      }
      isLoading := true;
      error := None;
      bets := fetched;
      isLoading := false;
      r := Pass;
    }

    /** `placeBet`: refused without a user or without a profile, before
        anything changes; otherwise the server records the bet and the
        bets and the profile are reloaded. */
    method PlaceBet(userId: Option<string>, betId: string, refreshedBets: seq<Bet>, refreshedProfile: BettorProfile)
      returns (r: Result<string, string>)
      modifies this
      ensures !SignedIn(userId) ==> r == Failure(NotAuthenticated) && unchanged(this)
      ensures SignedIn(userId) && old(profile).None? ==> r == Failure(ProfileNotInitialized) && unchanged(this)
      ensures SignedIn(userId) && old(profile).Some? ==>
        && r == Success(betId) && Settled()
        && bets == refreshedBets && profile == Some(refreshedProfile) && isInitialized
    {
      if !SignedIn(userId) {
        return Failure(NotAuthenticated);
      }
      if profile.None? {
        return Failure(ProfileNotInitialized);
      }
      isLoading := true;
      error := None;
      var _ := FetchActiveBets(userId, refreshedBets);
      var _ := FetchProfile(userId, refreshedProfile);
      isLoading := false;
      r := Success(betId);
    }

    /** `cancelBet`: every bet on the task leaves the local list, then the
        profile is reloaded. */
    method CancelBet(userId: Option<string>, taskId: string, refreshedProfile: BettorProfile) returns (r: Outcome<string>)
      modifies this
      ensures !SignedIn(userId) ==> r == Fail(NotAuthenticated) && unchanged(this)
      ensures SignedIn(userId) ==>
        && r == Pass && Settled()
        && bets == WithoutBetsFor(old(bets), taskId)
        && profile == Some(refreshedProfile) && isInitialized
    {
      if !SignedIn(userId) {
        return Fail(NotAuthenticated);
      }
      isLoading := true;
      error := None;
      bets := WithoutBetsFor(bets, taskId);
      var _ := FetchProfile(userId, refreshedProfile);
      isLoading := false;
      r := Pass;
    }

    /** `resolveBet`: the server resolves the bet; bets and profile are
        reloaded and the server's answer is returned. */
    method ResolveBet(userId: Option<string>, response: ResolveBetResponse, refreshedBets: seq<Bet>, refreshedProfile: BettorProfile)
      returns (r: Result<ResolveBetResponse, string>)
      modifies this
      ensures !SignedIn(userId) ==> r == Failure(NotAuthenticated) && unchanged(this)
      ensures SignedIn(userId) ==>
        && r == Success(response) && Settled()
        && bets == refreshedBets && profile == Some(refreshedProfile) && isInitialized
    {
      if !SignedIn(userId) {
        return Failure(NotAuthenticated);
      }
      isLoading := true;
      error := None;
      var _ := FetchActiveBets(userId, refreshedBets);
      var _ := FetchProfile(userId, refreshedProfile);
      isLoading := false;
      r := Success(response);
    }

    /** `resolveExpiredBet`: the server fails the bet; bets and profile
        are reloaded. */
    method ResolveExpiredBet(userId: Option<string>, refreshedBets: seq<Bet>, refreshedProfile: BettorProfile)
      returns (r: Outcome<string>)
      modifies this
      ensures !SignedIn(userId) ==> r == Fail(NotAuthenticated) && unchanged(this)
      ensures SignedIn(userId) ==>
        && r == Pass && Settled()
        && bets == refreshedBets && profile == Some(refreshedProfile) && isInitialized
    {
      if !SignedIn(userId) {
        return Fail(NotAuthenticated);
      }
      isLoading := true;
      error := None;
      var _ := FetchActiveBets(userId, refreshedBets);
      var _ := FetchProfile(userId, refreshedProfile);
      isLoading := false;
      r := Pass;
    }

    /** `clearState`. */
    method ClearState()
      modifies this
      ensures bets == [] && profile == None && error == None && !isLoading && !isInitialized
    {
      bets := [];
      profile := None;
      error := None;
      isLoading := false;
      isInitialized := false;
    }

    /** The watcher on the session: logout clears the store. */
    method OnAuthChanged(isAuthenticated: bool)
      modifies this
      ensures isAuthenticated ==> unchanged(this)
      ensures !isAuthenticated ==>
        bets == [] && profile == None && error == None && !isLoading && !isInitialized
    {
      if !isAuthenticated {
        ClearState();
      }
    }
  }
}
