# Aqara U200: a verified model of the lock coordinator

The U200 lock accepts one Bluetooth session at a time. The coordinator lets
control operations, settings writes, interactive enrolments, background reads,
a refresh rotation, a battery poll and an hour-long real-time listen compete
for that session, arbitrated by one first-in-first-out operation lock, one
cancellable listen handle and stop flags. This project models that arbitration
and proves what holds in every run, and models the code around it (the
coordinator's own methods, the client adapter's sessions, the setup flow).

## How the model is layered

**The transition system.** `Protocol` has one task per running coroutine: task
0 is the real-time loop, tasks 1, 2, ... are one-shot jobs in order of arrival.
Code between two awaits is one atomic step, cancellation may be requested at
any time and is delivered at the next step, and the listen that the loop
awaits is a machine of its own (not yet run, dialing, live, hanging up, done).
The world chooses every reply, every failure and every interleaving. A run is a
sequence of labels; a state is reachable when some run from the constructor's
state leads to it. Every step appends one entry to a log (`Trace`), and the
main results in `Theorems` are statements about the log and the state of every
reachable state:

| question | module of the step-by-step proof |
|---|---|
| who holds the lock, who queues, which program points are possible | `Shape` |
| one lock owner, one client call, one connection, closed before the lock is released | `Discipline` |
| every cached value is the last one reported; what is published | `Facts` |
| the presence ladder and the shared notification | `Ladder` |
| order of service and the bound on overtaking | `Order` |
| no deadlock, and a bound on how long a job waits | `Service` |
| stopping the real-time loop | `Stopping` |
| which mask an auxiliary toggle writes | `Masks` |
| the lock's mask, the cached one and what was asked for | `Toggles` |
| the credential count and the tables the lock answers | `Credentials` |
| which settings writes reached the lock | `Writes` |

`Overtaking` says exactly when a listen window overtakes a waiting job, with a
run in which it does; `Witnesses` holds the runs in which the code falls short
of what is said of it.

**The objects.** `Runtime.Coordinator`, `Runtime.BluetoothManager`,
`Adapter.BleClientAdapter` and `Setup.ConfigFlow` are classes with the source's
fields and methods. Their contracts use the same functions as the transition
system (`Apply`, `OnEvent`, `BuildSnapshot`, `Preempt`, `Begin`, `OnReply`), so
both layers store, publish and preempt alike. What happens at a suspension
point inside such a method (replies, reachability changes, values other tasks
store) is a parameter. `Background` proves what the rotation and the two-pass
refresh achieve.

**The algorithms.** `Tally` (the credential tally), `ErrorChain` (the walk of a
possibly cyclic exception chain), `Auxiliary` (the toggle mask a call builds) and
`Ltmk` (parsing the master key) are functions and loops used by the rest.

## Where the code and its documentation differ

- `coordinator.py:728-733` promises that a delete makes the credential count
  drop at once. `client.py:466-469` turns an empty table into `None` and
  `coordinator.py:933-937` ignores `None`. So when the re-read is answered the
  count drops if and only if a row remains
  (`Credentials.DeleteCountsIffRowsRemain`), and when it is not the count stays
  (`Credentials.UnansweredDeleteKeepsCount`);
  `Witnesses.TheLastDeleteKeepsTheCount` is a run in which the last row is gone
  and still counted.
- `coordinator.py:728-733` enforces presence so that a delete does not silently
  do nothing. It still can: its client call returns `None` for a missing connection and for a missing reply
  alike (`client.py:484-494`), and the coordinator takes both as success:
  `Witnesses.AWriteCanMissTheLock`. `Writes.WellEndedWritesReached` says which
  writes that ended well reached the lock.
- `const.py:43-45` says an actuation preempts the listen at once, so the window
  is no latency bound. That holds for a listen that is already running. When the
  loop is queued ahead of the new operation it still starts a fresh, uncancelled
  window: `Overtaking.AWindowCanOvertake` is such a run.
  `Overtaking.OvertakenIffLoopQueued` says exactly when it happens, and
  `Theorems.FirstComeFirstServed` that it happens at most once.
- A read rejected as unauthenticated sets the error type without publishing it
  (`coordinator.py:454-457`): `Witnesses.TheSnapshotCanLag`.
  `Theorems.SnapshotIsCoherent` says exactly when the snapshot is behind.
- `_async_set_auxiliary_toggle` builds its mask before it takes the lock
  (`coordinator.py:659-666`), so of two overlapping calls the first can be lost:
  `Witnesses.TogglesCanBeLost`. `Toggles.LockFollowsIffUndisturbed` says exactly
  when the lock holds what was asked for, and `Toggles.OrderlyTogglesFollow`
  that toggles called one after another are safe.

## Model

| member | source | states |
|---|---|---|
| Theorems.OneSessionAtATime | custom_components/aqara_u200/coordinator.py:203-237 | in every reachable state at most one task holds the lock, the log shows at most one client call and one connection at any time, calls start only under the lock and every connection is closed before its call ends and before the lock is released; the listen handle exists exactly while the loop holds the lock |
| Theorems.CacheIsLastReported | custom_components/aqara_u200/coordinator.py:461-554 | under each of the 15 names the cache holds exactly the last value the lock reported (ended read, completed actuation, pushed event) and nothing a SET asked for |
| Theorems.BoltIsLinearised | custom_components/aqara_u200/coordinator.py:954-996 | the bolt position is the last reported one in lock-holding order; failed, cancelled and unreachable operations contribute nothing |
| Theorems.KnownStaysKnown | custom_components/aqara_u200/coordinator.py:461-464 | in no run does a known value become unknown again |
| Theorems.SnapshotIsCoherent | custom_components/aqara_u200/coordinator.py:437-464 | the published snapshot equals the snapshot of the current fields in all but the error type, and in that too if and only if no background read was rejected since the last push, or the snapshot shows AuthenticationError already |
| Witnesses.TheSnapshotCanLag | custom_components/aqara_u200/coordinator.py:454-457 | a reachable state, after one rejected background read, whose snapshot does not show the noted error type |
| Theorems.PublishedIsLastReported | custom_components/aqara_u200/coordinator.py:998-1027 | what entities are shown under each of the 15 names is, at every suspension point of every run, the last value the lock reported under it |
| Theorems.BusyWhileHeld | custom_components/aqara_u200/coordinator.py:915-952 | the busy flag and its published copy are up exactly while a control, set or enrol operation holds the lock, and the last operation then names the holder |
| Theorems.CountNeverReachesZero | custom_components/aqara_u200/client.py:459-469 | the cached and published credential counts are never zero in any run, although the lock may answer an empty table |
| Credentials.CountIsLastRows | custom_components/aqara_u200/coordinator.py:511-522 | in every run the cached and published counts are the size of the last table with rows the lock answered |
| Credentials.CountFollowsTableIffRows | custom_components/aqara_u200/client.py:466-469 | the count is the size of the table the lock answered last if and only if that table has rows |
| Credentials.DeleteCountsIffRowsRemain | custom_components/aqara_u200/coordinator.py:725-739 | a delete that has just ended well with its re-read answered: the count is the size of the remaining table if and only if a row remains, else the old count stays; so if n rows were counted and one is gone, it drops to n - 1 if and only if that row was not the last |
| Credentials.UnansweredDeleteKeepsCount | custom_components/aqara_u200/coordinator.py:933-937 | a delete that has just ended well with its re-read unanswered leaves the old count, whatever remains |
| Witnesses.TheLastDeleteKeepsTheCount | custom_components/aqara_u200/coordinator.py:728-739 | a run in which the last credential is deleted, the delete ends well, the lock answers an empty table, the client hands on nothing and the count still is one |
| Credentials.TablesHandedOnAlike | custom_components/aqara_u200/client.py:466-469 | the client adapter and the transition system hand on and retry the same tables |
| Adapter.ReadUserTable | custom_components/aqara_u200/client.py:459-469 | a credential read never hands on an empty table; an attempt without rows is retried |
| Theorems.GatedCallsFollowPresence | custom_components/aqara_u200/coordinator.py:855-888 | every add, delete and enrol call starts in the step that saw a front-panel read of the same task end with True; a ladder makes at most 1 + attempts reads and asks once exactly when the first was answered with anything but True |
| Theorems.ShippedLaddersAreShort | custom_components/aqara_u200/const.py:91-92 | with the shipped window and poll interval a ladder makes at most eleven front-panel reads |
| Theorems.NotificationIsNeverLeftBehind | custom_components/aqara_u200/coordinator.py:682-709 | the shared keypad notification shows only while a presence wait or a language change is in flight, and is gone when all tasks are done, however they ended |
| Theorems.FirstComeFirstServed | custom_components/aqara_u200/coordinator.py:954-963 | client calls start in order of arrival; for a waiting job, the loop that queued when it arrived still queues ahead, or was cancelled in the queue, or opened exactly one window, and a loop that did not queue then has overtaken it with none; a listen that ran on arrival is on its way out |
| Overtaking.OvertakenIffLoopQueued | custom_components/aqara_u200/coordinator.py:203-237 | in every run in which the loop is not cancelled in the queue, a job that queues reaches its turn overtaken by exactly one listen window if the loop queued when it was called, and by none otherwise |
| Overtaking.AWindowCanOvertake | custom_components/aqara_u200/const.py:43-46 | a reachable state in which an uncancelled listen window began after a lock call arrived and before its turn |
| Theorems.NobodyStarves | custom_components/aqara_u200/coordinator.py:962-963 | while a job waits some step that serves it is possible (no deadlock), and no run makes more such steps than its budget while it still waits |
| Theorems.HoldsEnd | custom_components/aqara_u200/coordinator.py:877-887 | whoever holds the lock can take a step, and in every run releases it by step 5 * attempts + 19 of its own at the latest |
| Service.HoldingIsBounded | custom_components/aqara_u200/coordinator.py:877-887 | in a run through which a task holds the lock, its steps and its remaining rank never exceed its rank at the start |
| Theorems.StopEndsTheLoop | custom_components/aqara_u200/coordinator.py:145-153 | after a stop request the loop takes at most four more steps of its own in any run, can always take one until it ended, and once ended holds neither the lock, nor a place in its queue, nor a handle |
| Theorems.PreemptionNeverEndsTheLoop | custom_components/aqara_u200/coordinator.py:230-237 | without a stop request or a cancellation of its own task the loop never ends, however often it is preempted |
| Shape.Keeps | custom_components/aqara_u200/coordinator.py:209-237 | every enabled step keeps the structural invariant: holders hold, waiters queue without duplicates, the handle belongs to a listening loop |
| Discipline.KeepsAgreeing | custom_components/aqara_u200/client.py:541-575 | every step keeps the log disciplined and in agreement with who holds the lock, which call runs and which connection is open |
| Facts.KeepsHonest | custom_components/aqara_u200/coordinator.py:437-464 | every step keeps the cache equal to the last reports, the busy flag equal to the holder, and the snapshot published |
| Ladder.KeepsCareful | custom_components/aqara_u200/coordinator.py:855-888 | every step keeps gated calls behind presence, the ladder's counts bounded and the notification owned |
| Order.KeepsFair | custom_components/aqara_u200/coordinator.py:203-207 | every step keeps arrival order and the overtaking bound of every waiting job |
| Stopping.KeepsStoppable | custom_components/aqara_u200/coordinator.py:145-153 | every step keeps a stopping loop cancelled where it queues and doomed where it listens |
| Stopping.StoppingRanks | custom_components/aqara_u200/client.py:559-575 | each step of a stopping loop lowers its rank, also when a cancellation is swallowed during the disconnect, and no other step raises it |
| Stopping.StoppingLoopCanMove | custom_components/aqara_u200/coordinator.py:216-237 | a stopping loop that has not ended has a step to take, wherever it is |
| Service.StepUsesBudget | custom_components/aqara_u200/coordinator.py:867-882 | no step sets a waiting job back, and each step that serves it uses up part of its budget |
| Service.RankIsBounded | custom_components/aqara_u200/coordinator.py:877-887 | the rank of a holder is positive and at most 5 * attempts + 19 |
| Service.WaitingIsServed | custom_components/aqara_u200/coordinator.py:915-937 | while a job waits, the holder, the head of the queue or the listen can move: no task waits for the lock while holding it |
| Runtime.BluetoothManager.Discovered | custom_components/aqara_u200/bluetooth.py:53-65 | a discovery replaces the state and pushes a snapshot built from it |
| Runtime.BluetoothManager.Unavailable | custom_components/aqara_u200/bluetooth.py:67-73 | a loss changes reachability only and pushes a snapshot |
| Runtime.Coordinator.constructor | custom_components/aqara_u200/coordinator.py:101-133 | a new coordinator knows nothing and has published that |
| Runtime.Coordinator.PreemptListen | custom_components/aqara_u200/coordinator.py:203-207 | a held listen is certain to end afterwards, and it has not moved on by itself |
| Runtime.Coordinator.OnRealtimeEvent | custom_components/aqara_u200/coordinator.py:176-201 | an event stores its position and battery when present, and publishes exactly when something changed |
| Runtime.Coordinator.ApplyRead | custom_components/aqara_u200/coordinator.py:499-554 | a value is stored under its own name, and a change is reported exactly when the cached values differ |
| Runtime.Coordinator.DoRead | custom_components/aqara_u200/coordinator.py:437-464 | an unreachable lock is skipped; a failure keeps the last value; a rejection notes its type and publishes nothing; something is published exactly when the radio or a value changed |
| Runtime.ReadsStoreAlike | custom_components/aqara_u200/coordinator.py:449-464 | the transition system's background read leaves the same fields as the coordinator's and publishes exactly when it does |
| Runtime.Coordinator.RunOperation | custom_components/aqara_u200/coordinator.py:954-996 | an actuation ends with the observed, else the commanded position; the busy flag is down and the snapshot published on every exit; the fields are those of the transition system; foreign errors surface wrapped |
| Runtime.Coordinator.EnsurePresence | custom_components/aqara_u200/coordinator.py:867-887 | the ladder stops at the first True, makes at most 1 + max(1, floor(window / poll)) reads, asks exactly when the first finds the panel asleep, and comes to its recursive definition; the notification, and a cancellation during the switch call or a nap, are in the transition system only |
| Runtime.AwakeIffSeen | custom_components/aqara_u200/coordinator.py:867-887 | the ladder lets a write through if and only if the panel answers True within its reads, after reads that only found it asleep |
| Runtime.Coordinator.ActAndConfirm | custom_components/aqara_u200/coordinator.py:932-937 | only a re-read that brings a value after a write that ended well changes the cache |
| Runtime.Coordinator.RunGuarded | custom_components/aqara_u200/coordinator.py:915-952 | one write under the lock: it happens exactly when presence was not needed or was seen; outcome, noted error, flags, cache and snapshot on every exit |
| Runtime.Coordinator.RunSetOperation | custom_components/aqara_u200/coordinator.py:890-952 | a settings write ends well exactly when the radio was reachable, presence was not needed or was seen, the write call ended without an error (which for an add or a delete it also does without an answer or a connection) and the re-read did not fail; only a re-read that brings a value changes the cache |
| Writes.WellEndedWritesReached | custom_components/aqara_u200/client.py:471-494 | in every run, the write call of a settings write that ended well ended without an error; it reached the lock, except that an add or a delete did so if and only if the last step of its call hung up |
| Witnesses.AWriteCanMissTheLock | custom_components/aqara_u200/client.py:484-494 | a run in which a delete ends well although its write never connected |
| Runtime.Coordinator.EnrolCredential | custom_components/aqara_u200/coordinator.py:741-811 | an enrol begins exactly when the panel was seen awake; anything but a reported success is an operation error; only the confirming re-read changes the cache |
| Runtime.Coordinator.AuxiliaryWrite | custom_components/aqara_u200/coordinator.py:652-666 | a toggle sends a full mask with that toggle as asked and every other one as cached, or off when it is not cached |
| Runtime.Coordinator.RefreshPass | custom_components/aqara_u200/coordinator.py:388-395 | a pass reads its names in order with a gap before each but possibly the first, until the stop flag is up |
| Runtime.Coordinator.FindMissing | custom_components/aqara_u200/coordinator.py:384-386 | lists exactly the unread names, in order |
| Runtime.Coordinator.RefreshAll | custom_components/aqara_u200/coordinator.py:350-386 | a refresh is a full pass and then a pass over what is still unread |
| Runtime.Coordinator.PauseIsSteadyIffKnown | custom_components/aqara_u200/coordinator.py:320-348 | the wait is the steady one if and only if each of the seven gating names has a value |
| Runtime.Coordinator.BatteryLoop | custom_components/aqara_u200/coordinator.py:274-338 | a stop during the initial delay reads nothing; a stop during wait number n leaves the cache of n reads of the rotation, and every wait is the one its cache calls for |
| Background.RotationSettles | custom_components/aqara_u200/coordinator.py:288-338 | if each gating value is read within its first k visits, every wait from read 14(k - 1) + 8 on is the steady one, whatever the other seven reads and all other tasks do |
| Background.SteadyForEver | custom_components/aqara_u200/coordinator.py:320-334 | once steady, the loop never returns to its short interval |
| Background.RefreshCoversAll | custom_components/aqara_u200/coordinator.py:363-395 | an unstopped refresh attempts all 15 names in order, then exactly those still unread, with 14 + missing gaps |
| Background.UnreadMeansTwoFailures | custom_components/aqara_u200/coordinator.py:382-386 | a name is unread after an unstopped refresh only if both of its attempts failed |
| Background.RefreshHeedsStop | custom_components/aqara_u200/coordinator.py:388-395 | whenever the stop flag goes up, at most one more read starts |
| Cache.SnapshotShowsCache | custom_components/aqara_u200/coordinator.py:998-1027 | a snapshot shows every cached fact under its own name, and the radio's state |
| Cache.ApplyTouchesOwnName | custom_components/aqara_u200/coordinator.py:499-554 | storing a value changes the fact under its own name and no other |
| Cache.ChangedIffNewFact | custom_components/aqara_u200/coordinator.py:501-554 | storing a value changes the cache if and only if it was not already known |
| Cache.PermutedTableIsNoChange | custom_components/aqara_u200/coordinator.py:511-522 | applying a credential table changes nothing if and only if it is a permutation of the one applied before |
| Cache.UnreadIffUnknown | custom_components/aqara_u200/coordinator.py:397-435 | the unread check and the cache agree on all 15 names |
| Cache.HaveAllMeansKnown | custom_components/aqara_u200/coordinator.py:320-328 | the completeness check holds exactly when the seven gating facts are known |
| Tally.TallyRows | custom_components/aqara_u200/coordinator.py:511-522 | the counting loop yields the canonical breakdown: strictly sorted, unique types, counts adding up to the table's length |
| Tally.BreakdownIsCanonical | custom_components/aqara_u200/coordinator.py:512-515 | the breakdown is strictly sorted, sums to the number of rows and holds exactly the histogram of type names |
| Tally.SameBreakdownIffPermutation | custom_components/aqara_u200/coordinator.py:515-518 | two tables have the same breakdown if and only if one permutes the other |
| Adapter.BleClientAdapter.constructor | custom_components/aqara_u200/client.py:395-420 | an adapter is built with a cloud account, a key, or both |
| Adapter.BleClientAdapter.EnableOffline | custom_components/aqara_u200/client.py:432-457 | offline exactly when a key is held afterwards; a key already held is never replaced or lost |
| Adapter.BleClientAdapter.Operate | custom_components/aqara_u200/client.py:1042-1123 | one lock or unlock makes at most one connection and one library call, hangs up whatever it connected, and never retries; errors by where they struck; a cancellation during the release wins |
| Adapter.BleClientAdapter.ListenRealtime | custom_components/aqara_u200/client.py:523-575 | a listen hangs up whatever it connected, and a cancellation during the release is swallowed |
| Adapter.BleClientAdapter.OneRead | custom_components/aqara_u200/client.py:622-678 | a read raises only for rejected credentials, is None for any other failure, and its release never changes its result |
| Adapter.BleClientAdapter.ReadRetry | custom_components/aqara_u200/client.py:595-620 | at most three attempts; all but the last brought nothing useful; the result is the last attempt's, unless the gap after it was cancelled; all radio acts accounted for |
| Adapter.BleClientAdapter.RetryConserves | custom_components/aqara_u200/client.py:612-620 | n attempts connect at most n times and disconnect exactly as often |
| Adapter.BleClientAdapter.SendWrite | custom_components/aqara_u200/client.py:876-897 | a write is a single attempt that succeeds exactly on a non-empty reply |
| Adapter.SessionsConserve | custom_components/aqara_u200/client.py:670-678 | in any history of sessions and rests, connections and disconnects are equal in number and no session runs more than one call |
| ErrorChain.IsInvalidAuthError | custom_components/aqara_u200/client.py:348-357 | the walk ends on every finite graph, cyclic or not, and is true if and only if some exception on the cause-else-context path carries code 810 |
| ErrorChain.LoopMeetsNothingNew | custom_components/aqara_u200/client.py:352-356 | once the path returns to an exception it has met, it never meets another one |
| Auxiliary.BuildMask | custom_components/aqara_u200/coordinator.py:659-661 | the mask sent is full, has the toggle as asked, and keeps the cached value of every other one |
| Masks.MasksAreAssignments | custom_components/aqara_u200/coordinator.py:652-666 | in every run, the mask a toggle call writes is one assignment on the mask cached when it was called, and it is one on the mask cached now if and only if the two agree on the other toggles |
| Masks.KeepsBuilt | custom_components/aqara_u200/coordinator.py:659-661 | every step keeps each toggle call's mask equal to one assignment on the mask last reported before its arrival |
| Toggles.LockFollowsIffUndisturbed | custom_components/aqara_u200/coordinator.py:652-666 | in every run, whatever overlaps, fails or is cancelled: the lock holds the fold of the single-toggle assignments after every write if and only if each write found the other toggles as they were cached when it was called |
| Toggles.UnnamedIsKeptIffKnown | custom_components/aqara_u200/coordinator.py:652-661 | in every run in which the lock reports its own mask and no landed write names a toggle, whatever overlaps: the lock keeps that toggle as at the start if and only if each landed write was called with the mask known, or the toggle was off from the start |
| Toggles.OrderlyTogglesFollow | custom_components/aqara_u200/coordinator.py:644-666 | in every run in which toggles are called with the mask known and one after another, the lock reports its own mask and each landed toggle is confirmed: the lock always holds the fold of the assignments in lock order, and the cached and published masks are that fold whenever no toggle is being confirmed |
| Toggles.KeepsInStep | custom_components/aqara_u200/coordinator.py:933-937 | every orderly step keeps the lock and the assignments in step, at most one toggle outstanding and the cache equal to the lock between confirmations |
| Witnesses.TogglesCanBeLost | custom_components/aqara_u200/coordinator.py:659-666 | a run with two overlapping toggles, both acknowledged and the first confirmed, after which the lock has lost the first |
| Ltmk.WrittenKeyParses | custom_components/aqara_u200/client.py:335-345 | any way of writing a 32-byte key (either case, colons and spaces inside, a 0x prefix, whitespace around) parses to that key |
| Ltmk.AcceptedIsSpelled | custom_components/aqara_u200/client.py:341-345 | whatever is accepted has exactly 32 bytes, those its digits spell |
| Ltmk.StoredKeyReturns | custom_components/aqara_u200/config_flow.py:213-214 | the stored text of a key decodes to it, and parses to it at the right length |
| Setup.SetupEntry | custom_components/aqara_u200/__init__.py:68-94 | setup builds an adapter exactly when the entry's fields give it credentials to work with |
| Setup.CredentialsOf | custom_components/aqara_u200/__init__.py:73-88 | an entry that sets up has an account, a key, or both |
| Setup.StoredTextIsFaithful | custom_components/aqara_u200/__init__.py:75-76 | setup decodes the stored text of a key back to it; only the empty key reads as no key |
| Setup.ConfigFlow.CloudStep | custom_components/aqara_u200/config_flow.py:189-241 | when an entry is created and which error is shown otherwise; the entry sets up with the form's account, the typed or else found device, and for cloud-cutter the fetched key |
| Setup.ConfigFlow.AskAccount | custom_components/aqara_u200/config_flow.py:201-217 | a rejected login, an unknown device and a failed fetch are reported in that order, and a typed device id skips the lookup |
| Setup.ConfigFlow.LocalStep | custom_components/aqara_u200/config_flow.py:244-286 | an entry is created exactly for a well-formed key and a new address, and sets up with no account and exactly the pasted key |
| Setup.CloudCredentials | custom_components/aqara_u200/config_flow.py:224-233 | a cloud entry sets up with the form's account and with the fetched key unless that is empty |

## Left out

- The protocol library: frames, crypto and decoders are not in the repository; its replies are arbitrary values of the right type, failures or cancellations.
- Swallowed cancellations inside the library: a cancelled library call is assumed to end, except in the disconnect steps where the source itself swallows it.
- The Bluetooth path lookup inside a client call: a missing path is one of the ways a dialing call breaks off, so the model allows a suspension point more than the source there.
- Event-loop scheduling beyond the lock: a free lock whose only waiters are cancelled may or may not be taken at once; both are allowed.
- The real-time loop, its stop request and the order of tasks in the lock's queue are in the transition system only, not in the class.
- Restarting the real-time loop: a coordinator's loop is started at most once, so a restart that races with a stop is not modelled.
- `last_operation` is kept as the job itself, not as its rendered text.
- Theorems.SnapshotIsCoherent: a push and the release of the lock that belong to one step are not told apart; the snapshot is compared at suspension points only.
- A raised error inside the transition system carries the noted type; wrapping foreign errors is shown on `Runtime.Coordinator.RunOperation` and `RunSetOperation`.
- Runtime.Coordinator.EnsurePresence: the notification and the cancellation of the switch call or of a nap are not in the class method; `Theorems.NotificationIsNeverLeftBehind` covers them.
- Runtime.Coordinator.DoRead: interleaving inside the class methods is a parameter (what others store, what the radio does); all interleavings proper are in the transition system.
- Runtime.Coordinator.RefreshAll: time counts gaps and attempts, and the stop flag goes up at one such moment; `stop >= 60` means not during the refresh, which never takes more.
- A refresh and the battery poll are sequences of background reads in the transition system; their loops are in the class.
- Toggles.OrderlyTogglesFollow: a write takes effect exactly when its call is acknowledged; the one-way enable buttons, which change the mask without a re-read, make later reports differ from the modelled mask and so fall outside orderly runs.
- Overtaking.OvertakenIffLoopQueued: a job that takes a free lock at once does not queue and is not covered; it is overtaken by nobody.
- Language changes are announced but not gated on presence, as in the source; they are outside Theorems.GatedCallsFollowPresence.
- Bus events, enrol progress reports, reauthentication starts, logging and the wake switch's own failures have no effect on the modelled state.
- Ltmk.WrittenKeyParses: lower-casing is modelled for ASCII letters; no other character lowers to one a key may hold, so acceptance is not affected.
- Reauthentication and options forms, entities, the card and diagnostics: thin wrappers that would add easy members only.
- The batched `async_read_settings`, which the coordinator no longer uses, and `async_read_state`.
- The bounded disconnect timeout and all wall-clock time: a disconnect attempt ends in one step, a sleep is one step.
