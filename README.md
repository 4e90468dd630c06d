# focus-flow-frontend: a Dafny model of the client stores

This project models the client-side state of the Focus Flow web app, a Vue
application built on Pinia stores. It covers five parts:

- **The nudge presentation pipeline** (`src/stores/nudgeStore.ts`). It is the main part.
  - Reminder nudges arrive from the server. A nudge whose task is not loaded yet is parked in `pendingNudges`.
  - A nudge whose task is known joins a FIFO `nudgeQueue`. At most one nudge is shown at a time, in `activeNudges`.
  - Parked nudges are retried once tasks load.
  - Dismissing frees the active slot.
- **The bookkeeping of the data stores**:
  - tasks (`taskStore.ts`, `tasks.ts`): status classification and timestamp updates in place;
  - bets (`betStore.ts`, `bets.ts`): status partitions, wager sums, and the points/streak ledger;
  - nudge records (`nudges.ts`): the scheduled/ready/upcoming split and the sort by delivery time;
  - emotion logs (`emotionStore.ts`, `emotions.ts`): phase partitions, grouping by task, counting, and the ten most recent logs.
- **The emotion whitelist and its labels** (`src/constants/emotions.ts`).
- **The router's route table and its `beforeEach` redirect rule** (`src/router/index.ts`).
- **The demo counter store** (`src/stores/counter.ts`).

There is one Dafny module per source file:

| module | file |
|---|---|
| `NudgeStore` | `nudge_store.dfy` |
| `TaskStore` | `task_store.dfy` |
| `Tasks` | `tasks.dfy` |
| `BetStore` | `bet_store.dfy` |
| `Bets` | `bets.dfy` |
| `Nudges` | `nudges.dfy` |
| `EmotionStore` | `emotion_store.dfy` |
| `Emotions` | `emotions.dfy` |
| `EmotionConstants` | `emotion_constants.dfy` |
| `Router` | `router.dfy` |
| `Counter` | `counter.dfy` |

Three helper modules support them:

- `Wrappers`: `Option`, `Outcome` and `Result`.
- `Session`: the "user not authenticated" check on a possibly-missing user id.
- `Lists`: `filter`, `findIndex`/`find`, `reduce` sums and a stable sort, with their lemmas.

How stores and actions are modelled:

- A store that updates its refs in place is a Dafny `class`. Its lists are `seq` fields that its methods reassign.
- Getters are functions over those sequences.
- Every action's server call is taken to succeed. The server's answer is a method parameter: the created id, the refreshed list, the fetched profile.
- Only the store's own state change is modelled.
- The clock is a `now: int` parameter, and timestamps are integers.
- Stores that throw on a missing user (`taskStore`, `betStore`, `emotionStore`) return `Failure`/`Fail` and leave the store untouched.
- Stores that call `setError` and return `false` (`tasks`, `nudges`, `bets`, `emotions`) are specified by a `Refused` predicate. It says the error reads "User not authenticated", the result is `false`, and the data is unchanged.

The nudge pipeline works in two layers:

- Pure transition functions on a `Pipeline` value: `ShowNext`, `Handle`, `Retry`, `Dismiss` and `ClearAll`.
- A `NudgeStore` class whose methods are proved equal to those functions. `RetryPendingNudges` keeps the source's loop.

The properties are lemmas about the functions:

- at most one nudge is active;
- the queue holds no duplicate ids;
- nudges are presented in FIFO order;
- retrying keeps exactly the still-unresolved parked nudges, in order.

Some behaviours of the code are worth stating outright, because the model follows them as written:

- **Pending nudges vs. the queue.** Deduplication only looks at the queue and the active slot (`src/stores/nudgeStore.ts:42-47`). So the same id can be parked and queued at once (`NudgeStore.ParkedAndQueued`), and a dismissed nudge that arrives again is shown again (`NudgeStore.ShownAgainAfterDismiss`).
- **The nudge record.** The `Nudge` type the store imports has no `triggeredAt` or `message`, but the store reads both. The model's `Nudge` has the fields the store reads: `_id`, `task`, `deliveryTime`, `triggeredAt`, `message`. `triggeredAt` is `Null | Unset | At(t)`, because the code tests only `=== null`. An unset value passes that test, and the timestamp then falls back to `deliveryTime`.
- **The two bet stores.** They draw the expiry boundary differently, and both are modelled as written:
  - `betStore.ts` counts `deadline < now` as expired; `bets.ts` counts `deadline <= now`.
  - `betStore.ts`'s `totalWagered` sums only unresolved bets; `bets.ts` sums every bet.
  - `Bets.TotalWageredSpec` relates the two sums.

Some lookups are shared rather than defined twice:

- The `getBetByTask` lookup of `bets.ts` is the same first-match search as `betStore.ts`'s `getBetByTaskId`, modelled once as `BetStore.GetBetByTaskId`.
- The phase filters of `emotions.ts` (`beforeEmotions`, `afterEmotions`) are those of `emotionStore.ts`, modelled once as `EmotionStore.BeforeLogs`/`AfterLogs`.
- The status getters and `getTaskById` of `tasks.ts` reuse those of `taskStore.ts`.

## Model

| member | source | states |
|---|---|---|
| NudgeStore.ShowNextSpec | src/stores/nudgeStore.ts:28-35 | promotion moves the queue head to the active slot only when nothing is active and the queue is non-empty; otherwise nothing changes; the presentation line and pending list are unchanged; at most one nudge stays active and the queue never waits while the slot is free |
| NudgeStore.ShowNextPreserves | src/stores/nudgeStore.ts:28-35 | promotion preserves the pipeline invariant: at most one active nudge, no id twice among active and queued, no id parked twice, and only presentable nudges parked |
| NudgeStore.HandleIgnores | src/stores/nudgeStore.ts:40-52 | a nudge already queued or active, one with a null `triggeredAt`, or one with an empty message leaves all three lists unchanged |
| NudgeStore.HandleParks | src/stores/nudgeStore.ts:54-61 | a new nudge whose task is not loaded is appended to pending unless an entry with its id is already parked, and queue and active are unchanged |
| NudgeStore.HandleEnqueues | src/stores/nudgeStore.ts:63-73 | a new nudge with a known task adds exactly one entry at the end of the line, carrying the task's current title and `triggeredAt` or else `deliveryTime`, and it is promoted at once if nothing was active; pending is unchanged |
| NudgeStore.HandleExtends | src/stores/nudgeStore.ts:40-74 | handling never removes or reorders presented nudges, and with a known task never touches pending |
| NudgeStore.HandleDelivers | src/stores/nudgeStore.ts:63-73 | a presentable nudge with a known task is always on the line afterwards, either newly added or already there |
| NudgeStore.HandlePreserves | src/stores/nudgeStore.ts:40-74 | handling preserves the pipeline invariant |
| NudgeStore.DrainExtends | src/stores/nudgeStore.ts:83-92 | re-handling the resolved parked nudges only extends the line and leaves pending alone |
| NudgeStore.DrainPreserves | src/stores/nudgeStore.ts:83-92 | re-handling a batch preserves the pipeline invariant |
| NudgeStore.DrainDelivers | src/stores/nudgeStore.ts:83-92 | every presentable nudge of the batch whose task is known ends up on the line |
| NudgeStore.DrainSkipsUnresolved | src/stores/nudgeStore.ts:83-92 | a batch of nudges whose tasks are all unknown changes nothing |
| NudgeStore.RetrySpec | src/stores/nudgeStore.ts:79-96 | after retrying, pending holds exactly the previously parked nudges whose task is still unknown, in their original order; the line only grows, and every parked nudge whose task now resolves is on it |
| NudgeStore.RetryPreserves | src/stores/nudgeStore.ts:79-96 | retrying preserves the pipeline invariant |
| NudgeStore.RetryIdempotent | src/stores/nudgeStore.ts:79-96 | a second retry with the same tasks changes nothing |
| NudgeStore.DismissSpec | src/stores/nudgeStore.ts:101-111 | dismissing an id that is not active changes nothing; dismissing the active id empties the active slot, leaves queue and pending untouched, and drops exactly the head of the line |
| NudgeStore.DismissPreserves | src/stores/nudgeStore.ts:101-111 | dismissal preserves the pipeline invariant |
| NudgeStore.PresentedInOrder | src/stores/nudgeStore.ts:30-33 | dismissing the active nudge and then promoting shows the former queue head, and the line is the old line without its head: nudges are shown in the order they were enqueued |
| NudgeStore.ClearAllSpec | src/stores/nudgeStore.ts:116-119 | clearing empties active and queue but keeps pending, and the invariant still holds |
| NudgeStore.ParkedAndQueued | src/stores/nudgeStore.ts:42-61 | a nudge parked while its task was unknown is queued and shown when it arrives again with the task known, while staying parked; the next retry then unparks it without showing it twice |
| NudgeStore.ShownAgainAfterDismiss | src/stores/nudgeStore.ts:42-47 | a nudge that was shown and dismissed is shown again when it arrives again: deduplication does not remember history |
| NudgeStore.NudgeStore.constructor | src/stores/nudgeStore.ts:17-19 | all three lists start empty |
| NudgeStore.NudgeStore.ShowNextNudge | src/stores/nudgeStore.ts:28-35 | the store's new lists are `ShowNext` of the old ones |
| NudgeStore.NudgeStore.HandleIncomingNudge | src/stores/nudgeStore.ts:40-74 | the store's new lists are `Handle` of the old ones, the nudge and the loaded tasks |
| NudgeStore.NudgeStore.RetryPendingNudges | src/stores/nudgeStore.ts:79-96 | the loop that builds `stillPending` and re-handles resolved nudges leaves the lists equal to `Retry` of the old ones |
| NudgeStore.NudgeStore.DismissNudge | src/stores/nudgeStore.ts:101-111 | the store's new lists are `Dismiss` of the old ones; the delayed promotion is a separate `ShowNextNudge` call |
| NudgeStore.NudgeStore.ClearAllNudges | src/stores/nudgeStore.ts:116-119 | the store's new lists are `ClearAll` of the old ones |
| NudgeStore.NudgeStore.OnAuthChanged | src/stores/nudgeStore.ts:122-131 | on logout all three lists are emptied, including pending; on login nothing changes |
| NudgeStore.NudgeStore.OnTaskCountChanged | src/stores/nudgeStore.ts:134-142 | when the task count goes from zero to positive and nudges are parked, pending nudges are retried; otherwise nothing changes |
| NudgeStore.NudgeStore.OnLoadingChanged | src/stores/nudgeStore.ts:145-153 | when task loading finishes and nudges are parked, pending nudges are retried; otherwise nothing changes |
| TaskStore.StatusPartition | src/stores/taskStore.ts:61-71 | the pending, in-progress and completed lists hold exactly the tasks whose `getTaskStatus` is that status, and together hold every task exactly once (multiset) |
| TaskStore.CountTasks | src/stores/taskStore.ts:73-78 | the total task count equals pending + in-progress + completed |
| TaskStore.StartCounts | src/stores/taskStore.ts:261-300 | starting a pending task moves one task from the pending count to the in-progress count; total and completed are unchanged |
| TaskStore.CompleteCounts | src/stores/taskStore.ts:305-344 | completing an uncompleted task adds one to the completed count and removes one from pending + in-progress; total is unchanged |
| TaskStore.IndexOfTask | src/stores/taskStore.ts:289 | the index found is -1 exactly when no task has the id, and otherwise is the first task with that id |
| TaskStore.GetTaskById | src/stores/taskStore.ts:358-360 | none exactly when no task has the id; otherwise the first task with that id |
| TaskStore.WithoutTaskSpec | src/stores/taskStore.ts:248 | the filtered list holds exactly the tasks with another id, in their original order, and its length plus the number of removed tasks is the old length |
| TaskStore.TaskStore.constructor | src/stores/taskStore.ts:53-55 | the store starts with no tasks, not loading and no error |
| TaskStore.TaskStore.FetchTasks | src/stores/taskStore.ts:85-127 | without a user it fails with "User not authenticated" and changes nothing; otherwise the list becomes the server's list and the flags settle |
| TaskStore.TaskStore.AddTask | src/stores/taskStore.ts:132-173 | without a user it fails and changes nothing; otherwise it returns the created id and the list is the refreshed one |
| TaskStore.TaskStore.UpdateTask | src/stores/taskStore.ts:178-216 | without a user it fails and changes nothing; otherwise the list is the refreshed one |
| TaskStore.TaskStore.DeleteTask | src/stores/taskStore.ts:221-256 | without a user it fails and changes nothing; otherwise every task with the id leaves the list (see `TaskStore.WithoutTaskSpec`) |
| TaskStore.TaskStore.MarkStarted | src/stores/taskStore.ts:261-300 | without a user it fails and changes nothing; otherwise only the first task with the id gets `startedAt = now`, so it shows as in progress unless already completed; length and every other task are unchanged, and an absent id changes nothing |
| TaskStore.TaskStore.MarkCompleted | src/stores/taskStore.ts:305-344 | the same for `completedAt`; the marked task shows as completed |
| TaskStore.TaskStore.ClearTasks | src/stores/taskStore.ts:365-369 | tasks empty, error cleared, not loading |
| Tasks.OverdueSpec | src/stores/tasks.ts:26-32 | overdue tasks are exactly those with a due date before now that are not completed, so each is pending or in progress; a task overdue now is still overdue later |
| Tasks.TasksStore.constructor | src/stores/tasks.ts:9-11 | the store starts with no tasks, not loading and no error |
| Tasks.TasksStore.FetchUserTasks | src/stores/tasks.ts:46-68 | without a user it sets the error, returns false and leaves the data alone; otherwise the list is the fetched one |
| Tasks.TasksStore.CreateTask | src/stores/tasks.ts:70-95 | refused without a user; otherwise exactly the created task is appended |
| Tasks.TasksStore.UpdateTask | src/stores/tasks.ts:97-127 | refused without a user; otherwise the first task with the id is replaced and nothing else changes; length is unchanged and an absent id changes nothing |
| Tasks.TasksStore.MarkTaskStarted | src/stores/tasks.ts:129-159 | refused without a user; otherwise only the first task with the id gets `startedAt = now`, and it shows as in progress unless completed |
| Tasks.TasksStore.MarkTaskComplete | src/stores/tasks.ts:161-191 | refused without a user; otherwise only the first task with the id gets `completedAt = now`, and it shows as completed and is no longer overdue |
| Tasks.TasksStore.DeleteTask | src/stores/tasks.ts:193-218 | refused without a user; otherwise every task with the id leaves the list and the rest keep their order |
| Tasks.TasksStore.DeleteAllUserTasks | src/stores/tasks.ts:220-244 | refused without a user; otherwise the list is empty |
| Tasks.TasksStore.ClearTasks | src/stores/tasks.ts:246-248 | the list is empty and the flags are untouched |
| Nudges.GetNudgeByTask | src/stores/nudges.ts:34-36 | none exactly when no nudge has the task; otherwise the first nudge for it |
| Nudges.ClassificationSpec | src/stores/nudges.ts:14-32 | scheduled nudges are exactly those neither triggered nor canceled; the ready ones are the scheduled ones due by now, and the upcoming ones are the scheduled ones due after now |
| Nudges.ReadyUpcomingPartition | src/stores/nudges.ts:26-46 | ready and upcoming together hold each scheduled nudge exactly as often as it occurs (multiset), so their lengths add up to the scheduled count |
| Nudges.UpcomingSpec | src/stores/nudges.ts:38-46 | upcoming is sorted by ascending delivery time, is a permutation of the upcoming filter, and holds exactly the untriggered, uncanceled nudges due after now |
| Nudges.CanceledNeverShown | src/stores/nudges.ts:26-46 | a canceled nudge is never ready or upcoming |
| Nudges.NudgesStore.constructor | src/stores/nudges.ts:9-11 | no nudges, not loading, no error |
| Nudges.NudgesStore.ScheduleNudge | src/stores/nudges.ts:56-82 | refused without a user; otherwise exactly the created nudge is appended |
| Nudges.NudgesStore.CancelNudge | src/stores/nudges.ts:84-113 | refused without a user; otherwise only the first nudge for the task becomes canceled and leaves the scheduled nudges; nothing else changes |
| Nudges.NudgesStore.NudgeUser | src/stores/nudges.ts:115-152 | refused without a user; otherwise only the first nudge for the task becomes triggered and the message is returned |
| Nudges.NudgesStore.DeleteAllUserNudges | src/stores/nudges.ts:154-176 | refused without a user; otherwise the list is empty |
| Nudges.NudgesStore.ClearNudges | src/stores/nudges.ts:178-180 | the list is empty and the flags are untouched |
| BetStore.Points | src/stores/betStore.ts:104-106 | the points read 0 when there is no profile |
| BetStore.Streak | src/stores/betStore.ts:108-110 | the streak reads 0 when there is no profile |
| BetStore.RoundedPercentSpec | src/stores/betStore.ts:121-123 | the success rate is the nearest integer to 100 × successful / total (ties rounded up), lies in 0..100 when successful ≤ total, and is 100 when every bet succeeded |
| BetStore.StatsSpec | src/stores/betStore.ts:112-125 | stats exist exactly when a profile does; they copy points, streak and the total, successful, failed and pending bet counts; the success rate is 0 when there are no bets, and otherwise the rounded percentage |
| BetStore.GetBetByTaskId | src/stores/betStore.ts:561-563 | none exactly when no bet has the task; otherwise the first bet for it |
| BetStore.HasActiveBet | src/stores/betStore.ts:568-570 | true exactly when some unresolved bet has the task |
| BetStore.StatusPartition | src/stores/betStore.ts:71-90 | active (no outcome) and resolved bets partition the bets, and successful and failed partition the resolved ones (multisets) |
| BetStore.OutcomesOfResolved | src/stores/betStore.ts:80-90 | successful and failed bets together are exactly the resolved bets (multiset) |
| BetStore.ExpiryPartition | src/stores/betStore.ts:75-98 | for one `now`, expired (deadline < now) and pending (deadline ≥ now) bets partition the active bets, and the active wager total splits over them |
| BetStore.TotalWageredSpec | src/stores/betStore.ts:96-98 | the active wager total plus the resolved wager total is the sum over all bets, so `totalWagered` counts active bets only |
| BetStore.WithoutBetsForSpec | src/stores/betStore.ts:370 | after the local cancel, the list holds exactly the bets on other tasks in their original order, its length is the old length less the number of bets on the task (so every other bet stays as often as it was), and no bet (active or not) remains for the task |
| BetStore.BetStore.constructor | src/stores/betStore.ts:61-65 | no bets, no profile, flags false, no error |
| BetStore.BetStore.FetchProfile | src/stores/betStore.ts:170-202 | fails with "User not authenticated" and changes nothing without a user; otherwise the profile is the fetched one and the store is initialized |
| BetStore.BetStore.FetchActiveBets | src/stores/betStore.ts:207-253 | fails and changes nothing without a user; otherwise the bets are the fetched ones and the profile is kept |
| BetStore.BetStore.PlaceBet | src/stores/betStore.ts:302-342 | fails with "User not authenticated" without a user and with "Betting profile not initialized" without a profile, changing nothing; otherwise returns the bet id with bets and profile refreshed |
| BetStore.BetStore.CancelBet | src/stores/betStore.ts:347-384 | fails and changes nothing without a user; otherwise every bet on the task is dropped locally and the profile is refreshed |
| BetStore.BetStore.ResolveBet | src/stores/betStore.ts:389-423 | fails and changes nothing without a user; otherwise returns the server's response with bets and profile refreshed |
| BetStore.BetStore.ResolveExpiredBet | src/stores/betStore.ts:428-459 | fails and changes nothing without a user; otherwise bets and profile are refreshed |
| BetStore.BetStore.ClearState | src/stores/betStore.ts:609-615 | no bets, no profile, error cleared, both flags false |
| BetStore.BetStore.OnAuthChanged | src/stores/betStore.ts:701-709 | logging out clears the state; logging in changes nothing |
| Bets.OutcomePartition | src/stores/bets.ts:15-25 | pending (no outcome), successful and failed bets partition the bets (multiset and lengths) |
| Bets.DeadlinePartition | src/stores/bets.ts:27-39 | active (deadline > now) and expired (deadline ≤ now) bets are the pending bets split by deadline, and partition them |
| Bets.TotalRewardsSpec | src/stores/bets.ts:49-53 | total rewards are twice the wagers of the successful bets |
| Bets.TotalWageredSpec | src/stores/bets.ts:45-47 | this store's total sums every bet, which is the other store's active-only total plus the resolved wagers |
| Bets.PlacedSpec | src/stores/bets.ts:105-110 | placing adds the returned bet to exactly the one of the pending, successful and failed lists that its `success` selects, raises `totalWagered` by its wager, makes it the bet found for its task when the task had none, and lowers an existing profile's points by exactly the wager with the streak unchanged |
| Bets.CanceledSpec | src/stores/bets.ts:138-146 | with no bet on the task nothing changes; otherwise the first bet on the task is removed by id, all other bets stay in order and as often as before (the length falls by exactly the number of bets with that id), and its wager is refunded to an existing profile |
| Bets.ResolvedSpec | src/stores/bets.ts:175-183 | with no bet on the task nothing changes; otherwise only the first bet on it becomes successful (a pending one moves from pending to successful); a truthy reward adds to points and raises the streak by 1, and otherwise the profile is unchanged |
| Bets.ExpiredResolvedSpec | src/stores/bets.ts:212-219 | with no bet on the task nothing changes; otherwise only the first bet on it becomes failed (a pending one moves from pending to failed), and an existing profile's streak resets to 0 with points kept |
| Bets.PlaceCancelRoundTrip | src/stores/bets.ts:87-156 | placing a bet on a task with no bet yet (with a fresh id) and then cancelling it restores both the bet list and the points |
| Bets.BetsStore.constructor | src/stores/bets.ts:9-12 | no bets, no profile, not loading, no error |
| Bets.BetsStore.InitializeBettor | src/stores/bets.ts:63-85 | refused without a user; otherwise the profile starts at 0 points and streak 0 |
| Bets.BetsStore.PlaceBet | src/stores/bets.ts:87-120 | refused without a user; otherwise the ledger becomes `Placed` of the old one (see `Bets.PlacedSpec`) |
| Bets.BetsStore.CancelBet | src/stores/bets.ts:122-156 | refused without a user; otherwise the ledger becomes `Canceled` of the old one (see `Bets.CanceledSpec`) |
| Bets.BetsStore.ResolveBet | src/stores/bets.ts:158-194 | refused without a user; otherwise the ledger becomes `Resolved` of the old one with the server's reward (see `Bets.ResolvedSpec`) |
| Bets.BetsStore.ResolveExpiredBet | src/stores/bets.ts:196-230 | refused without a user; otherwise the ledger becomes `ExpiredResolved` of the old one (see `Bets.ExpiredResolvedSpec`) |
| Bets.BetsStore.FetchBetHistory | src/stores/bets.ts:232-254 | refused without a user; otherwise the bets are the fetched history and the profile is kept |
| Bets.BetsStore.ClearBets | src/stores/bets.ts:256-259 | no bets and no profile; flags untouched |
| EmotionStore.PhasePartition | src/stores/emotionStore.ts:81-87 | before and after logs hold exactly the logs of that phase and together hold every log exactly once |
| EmotionStore.HasLogsSpec | src/stores/emotionStore.ts:102 | there are logs exactly when some before or after log exists |
| EmotionStore.LastLog | src/stores/emotionStore.ts:89-100 | none exactly when no log has the task and phase; otherwise a matching log with no matching log after it |
| EmotionStore.LogsByTask | src/stores/emotionStore.ts:89-100 | the grouping loop's keys are exactly the tasks that occur in the logs, and each task's entry holds the last before log and the last after log for it in list order |
| EmotionStore.WithoutTaskLogsSpec | src/stores/emotionStore.ts:210 | the filtered list holds exactly the logs of other tasks, in their original order |
| EmotionStore.EmotionStore.constructor | src/stores/emotionStore.ts:71-75 | no logs, stats or analysis; not loading; no error |
| EmotionStore.EmotionStore.LogBefore | src/stores/emotionStore.ts:109-143 | fails and changes nothing without a user; otherwise returns the created id and the logs are the refreshed ones |
| EmotionStore.EmotionStore.LogAfter | src/stores/emotionStore.ts:148-182 | the same for an after log |
| EmotionStore.EmotionStore.DeleteTaskLogs | src/stores/emotionStore.ts:187-218 | fails and changes nothing without a user; otherwise exactly that task's logs leave the list (see `EmotionStore.WithoutTaskLogsSpec`) |
| EmotionStore.EmotionStore.DeleteUserLogs | src/stores/emotionStore.ts:223-255 | fails and changes nothing without a user; otherwise logs are empty and stats and analysis are null |
| EmotionStore.EmotionStore.FetchEmotionStats | src/stores/emotionStore.ts:260-289 | fails and changes nothing without a user; otherwise the stats are the fetched ones and the logs are kept |
| EmotionStore.EmotionStore.AnalyzeRecentEmotions | src/stores/emotionStore.ts:294-323 | fails and changes nothing without a user; otherwise the analysis text is stored |
| EmotionStore.EmotionStore.GetEmotionsForTask | src/stores/emotionStore.ts:328-358 | fails and changes nothing without a user; otherwise returns the server's before/after pair and changes no data |
| EmotionStore.EmotionStore.FetchEmotionLogs | src/stores/emotionStore.ts:363-399 | fails and changes nothing without a user; otherwise the logs are the fetched ones |
| EmotionStore.EmotionStore.ClearEmotions | src/stores/emotionStore.ts:404-410 | logs empty, stats and analysis null, error cleared, not loading |
| Emotions.EmotionsByTaskSpec | src/stores/emotions.ts:30-32 | the task's logs are exactly the logs with that task, in order, and with the other tasks' logs they make up the whole list |
| Emotions.RecentSpec | src/stores/emotions.ts:24-28 | the recent list has min(10, number of logs) entries, is sorted newest first, is a sub-multiset of the logs, and no log left out is newer than any kept |
| Emotions.GetEmotionCounts | src/stores/emotions.ts:34-40 | the counting loop's keys are exactly the emotions that occur, and each count is the number of logs with that emotion |
| Emotions.CountsAddUp | src/stores/emotions.ts:34-40 | summed over a list of distinct emotions covering every log, the counts add up to the number of logs |
| Emotions.EmotionsStore.constructor | src/stores/emotions.ts:9-13 | no logs, trends or analysis; not loading; no error |
| Emotions.EmotionsStore.RecentEmotions | src/stores/emotions.ts:24-28 | the getter sorts the log list in place newest first and returns the first ten of that order (see `Emotions.RecentSpec`) |
| Emotions.EmotionsStore.LogBeforeEmotion | src/stores/emotions.ts:50-76 | refused without a user; otherwise exactly the created log is appended |
| Emotions.EmotionsStore.LogAfterEmotion | src/stores/emotions.ts:78-104 | refused without a user; otherwise exactly the created log is appended |
| Emotions.EmotionsStore.FetchEmotionTrends | src/stores/emotions.ts:106-128 | refused without a user; otherwise the trends are the fetched ones |
| Emotions.EmotionsStore.AnalyzeRecentEmotions | src/stores/emotions.ts:130-152 | refused without a user; otherwise the analysis text is stored |
| Emotions.EmotionsStore.DeleteTaskLogs | src/stores/emotions.ts:154-179 | refused without a user; otherwise exactly that task's logs leave the list and the rest keep their order |
| Emotions.EmotionsStore.DeleteAllUserLogs | src/stores/emotions.ts:181-205 | refused without a user; otherwise logs, trends and analysis are all reset |
| Emotions.EmotionsStore.ClearEmotions | src/stores/emotions.ts:207-211 | logs, trends and analysis reset; flags untouched |
| EmotionConstants.ValidEmotionsSpec | src/constants/emotions.ts:5-20 | the whitelist has 14 pairwise-distinct entries, each a lower-case word |
| EmotionConstants.LabelsCoverValid | src/constants/emotions.ts:27-49 | a string has a label exactly when `isValidEmotion` accepts it |
| EmotionConstants.LabelsCapitalized | src/constants/emotions.ts:34-49 | each label is its emotion with the first letter in upper case |
| EmotionConstants.LabelsDistinct | src/constants/emotions.ts:34-49 | no two emotions share a label |
| Router.GuardSpec | src/router/index.ts:72-80 | the guard sends to Login exactly a protected target visited without a session, sends to Tasks exactly a guest-only target visited with one, and otherwise proceeds; a signed-in user is never sent to Login, a visitor without a session never to Tasks, and a route with neither flag always proceeds |
| Router.RouteTableSpec | src/router/index.ts:12-58 | paths and names are unique; only /login and /register are guest-only; every other page requires a session; only / redirects, and to /tasks |
| Router.RedirectsSettle | src/router/index.ts:68-81 | the guard's redirect target exists and the guard lets the same visitor through to it, so one redirect suffices |
| Router.HomeLeadsToTasksOrLogin | src/router/index.ts:13-17 | visiting / lands on /tasks, which proceeds with a session and redirects to Login without one |
| Counter.GreetingRoundTrip | src/stores/counter.ts:11 | the name can be read back from its greeting |
| Counter.GreetingInjective | src/stores/counter.ts:11 | different names give different greetings |
| Counter.CounterStore.constructor | src/stores/counter.ts:4-7 | count 0 and name "Focus Flow" |
| Counter.CounterStore.DoubleCount | src/stores/counter.ts:10 | the value is even and its half is the count |
| Counter.CounterStore.Greeting | src/stores/counter.ts:11 | the name can be read back from the greeting |
| Counter.CounterStore.Increment | src/stores/counter.ts:15-17 | count rises by exactly 1 and the name is unchanged |
| Counter.CounterStore.Decrement | src/stores/counter.ts:19-21 | count falls by exactly 1 and the name is unchanged |
| Counter.CounterStore.Reset | src/stores/counter.ts:23-25 | count is 0 and the name is unchanged |
| Counter.CounterStore.SetName | src/stores/counter.ts:27-29 | only the name changes |
| Counter.IncrementThenDecrement | src/stores/counter.ts:15-21 | an increment followed by a decrement restores the store |
| Counter.ResetTwice | src/stores/counter.ts:23-25 | reset is idempotent |

## Left out

- Network calls (`fetch`, the API wrappers and `handleResponse`) are not modelled. Every action's server call is taken to succeed, and its answer is a parameter. Server errors, thrown exceptions and the `catch` branches are not modelled.
- Session and token management (`authStore.ts`, `auth.ts`) are not modelled. The signed-in user is an `Option<string>` parameter.
- localStorage persistence and restore in `betStore.ts` are not modelled, because they are I/O plus JSON parsing.
- emotionStore `initialize` is not modelled, because it only runs fetches concurrently with `Promise.all`.
- Timers are not modelled:
  - The 500 ms delayed promotion in `dismissNudge` is an explicit later `ShowNextNudge` call.
  - The 5-second error clears are dropped.
- Vue `watch` reactivity is not modelled. The watchers are explicit methods (`OnAuthChanged`, `OnTaskCountChanged`, `OnLoadingChanged`) that receive the new and old values.
- Push and polling delivery of nudges, the expiry sweep and `checkAndResolveExpiredBets` are not modelled, because they are network calls and timers.
- Date parsing of `Date | string` is not modelled. Timestamps are integers, and each getter is evaluated at a single `now`.
- BetStore.RoundedPercentSpec: `Math.round` of a floating-point quotient is modelled on the exact rational quotient (nearest integer, ties up), so rounding errors of floating point are not captured.
- BetStore.BetStore.ResolveBet: the reward shown to the user is the server's response and is not checked against the ledger, because that ledger lives on the server.
- Bets.ResolvedSpec: a JSON `null` in `success` is treated like an absent one, and the reward's truthiness is modelled as "present and non-zero".
- JavaScript object keys are modelled as a plain `map`. Keys such as `__proto__` that collide with the prototype of a `Record` in `logsByTask` or `getEmotionCounts` are not modelled.
- EmotionStore.EmotionStore.FetchEmotionStats: the stored `EmotionStats` record drops the floating-point `averageEmotionsPerDay` field, because the store only passes it through and floating point is not modelled.
- Bets.OutcomePartition: a JSON `null` in `success` is treated like an absent one. In the source such a bet would fall into none of the pending, successful and failed lists; the declared type `success?: boolean` rules it out.
- BetStore.StatusPartition: a JSON `null` in `success` is treated like an absent one. In the source such a bet would count as resolved but neither successful nor failed; the declared type `success?: boolean` rules it out.
- Emotions.EmotionsStore.FetchEmotionTrends: the trends record keeps only the total and the per-emotion counts. The by-phase split, the recent list and the floating-point `averageEmotionsPerDay` are dropped.
- Counter.CounterStore.Increment: `count` is an unbounded integer, so JavaScript number precision beyond 2^53 is not modelled.
- NudgeStore.HandleEnqueues: an absent `message` is modelled as the empty string, which the source rejects the same way.
- Router.RedirectsSettle: Vue's own route matching is modelled as a lookup in the table that follows a redirect record once before the guard runs; the router's history and lazy component loading are not modelled.
- Design tokens, app bootstrap, component re-exports and the type declaration files are not modelled, because they are constants and wiring with no behaviour.
