# Orchestration server: protocols and state rewrites

A verification model of the stateful core of the session orchestration server and of the
dashboard helpers that share its data.

| files | what they model |
|---|---|
| `CheckpointProtocol`, `CheckpointRuns`, `CheckpointAnswers`, `CheckpointManager`, `CheckpointCancel` | several hosts sharing one stored object per session: the freshness guard, upload, read-back, restore and discovery, first as separate steps interleaved freely, then as whole calls, with what each call answers; the methods one host runs; cancellation around the shielded upload |
| `GpuLocks`, `GpuAllocator` | lock files, descriptors and the allocation registry, and every interleaving of acquire passes, time-outs, cancellations, releases and other lock holders |
| `Sessions`, `Lifecycle`, `LifecycleAnswers`, `SessionManager`, `LifecycleGpus` | session states and their saved form; create, fork build, pause, resume, terminate, cleanup and restart as transitions, and what each of them answers; the methods that perform them field by field; the refinement of grants and releases by the allocator |
| `Segments`, `ProcessMarkers`, `ProcessSweep` | which processes belong to a session, and the scan, SIGTERM, rescan, SIGKILL sweep |
| `Decimals`, `Buckets`, `Json`, `Speedup`, `SpeedupAnswers` | bucket tags, their order and identity index, the speedup lookup and the cumulative speedup, and what its numbers mean |
| `Normalizer`, `NormalizerReads`, `NormalizerProof`, `NormalizerInPlace` | the campaign-state rewrite: its effect, what a reader of a rewritten state gets, why and when it settles, and the in-place code |
| `TrackCounts` | the track counters of the server and of the dashboard |
| `ArtifactPath` | the dashboard's path normalizer |
| `TtlCache`, `TensorParallel` | the model-configuration cache and the tensor-parallel suggestion |

Code that changes dictionaries, counters or objects step by step is a class or a method with
loops here, proved equal to a specification function; the properties are then proved about
those functions. Outcomes decided outside the code (whether an upload, a build, a terminal
launch or a removal succeeds, the clock, which GPUs are free, what `/proc` shows) are
parameters.

## Where code and documentation part

Each of these is stated exactly: a condition under which the promise holds, if and only if,
or a concrete state in which it fails.

- The normalizer is documented as idempotent (orchestration/campaign_data_service.py:316). It
  is exactly when no latency key ends in `_s_s` and no speedup is a dictionary whose selected
  value is a dictionary again (`IdempotentIff`, `OneLevelMeans`; `DoublySuffixedKeyFails` and
  `NestedSpeedupFails` give a state for each); every state settles after finitely many passes.
- A GPU acquire that is rolled back removes registry entries by key. If its session was
  released meanwhile and a second acquire of that session took the same GPU, the second one's
  entry is removed. Nothing in the server rules that out: two resumes of one session may wait
  at once. While the second acquire still waits, its own list keeps the lock, and the registry
  no longer shows it (`OverlappingAcquiresLoseALock`); the registry is right at every moment
  exactly when this never happens (`EveryRunIsAccountedIff`). Once the second acquire has
  returned, the entry is the last reference to its lock file, which is closed with it, and the
  session is active without its lock (`ALateTimeOutRobsAReturnedAcquire`); it keeps its lock
  until it is released exactly when no such time-out comes (`ReturnedKeepsItsLockIff`). Either
  of two disciplines of the callers rules out both (`OneAcquireEachNeverStrays`,
  `PatientRunsNeverStray`).
- When a lock file disappears and the ids are discovered again, the availability count is no
  longer the number of free GPUs (`RediscoveryMiscounts`); `AvailableIsExactIff` says exactly
  when it is.
- The freshness guard has nothing to compare without a recorded timestamp or an answer to the
  head request. With whole calls, versions stay one chain exactly when no such upload comes
  from a tree that does not extend what is stored (`EveryRunIsLinearIff`). It happens after a
  discovery beside a left-over worktree, an unanswered head request, or the death of the
  creator between its first upload and the record (`LeftoverWorktreeOverwrites`,
  `UnansweredHeadSkipsTheGuard`, `DeathBeforeTheRecordOverwrites`).
- Guard and upload are not atomic, nor are a restore and its read-back, so with calls
  interleaved even a guard that compared can be wrong (`GuardRaceLosesAnUpload`,
  `ReadBackRaceBlindsTheGuard`). In every interleaving the versions stay one chain exactly when
  no upload that lacked a comparison, or with which another upload raced, comes from a tree
  that does not extend what is stored (`EveryInterleavingIsLinearIff`).
- The upload and its bookkeeping are shielded against cancellation, not against each other:
  with overlapping uploads of one host the recorded timestamp is LastModified exactly when the
  last task to record read back after the last upload (`InSyncIff`).
- Without ttyd, create and resume keep the session's GPUs although it is FAILED or PAUSED
  (`SoundAfterIff`); the sweep of old FAILED sessions then forgets the session but not its
  GPUs, and only a restart frees them (`SweptWhileStranded`, `OrphansNeedARestart`).
- In create_session the handler sets FAILED before it asks whether the status is still
  CREATING (orchestration/session_manager.py:1557-1574), so a session whose creation failed
  stays listed; `CreateSession` and `Created` follow the code.
- cleanup_old_sessions also looks for TERMINATED sessions in memory, where there never are any
  (`EveryRunIsSoundIff`); the saved tombstone of a terminated session stays on disk for good
  (`TerminatedStaysGone`).
- Resuming does not check the session limit; only a resume that succeeds for an owner who has
  as many live sessions as allowed exceeds it (`WithinLimitAfterIff`,
  `ResumingExceedsTheLimit`).
- A session file from before requested_gpu_count was saved shows GPUs it does not hold once it
  is active again (`ShowsWhatItHoldsIff`, `OldFileShowsUnheldGpus`).
- _stop_session_processes drops the survivor list, so GPUs are released even when processes
  survive SIGKILL (`AStuckProcessSurvives`); `StopSession` says exactly when the list is empty.
- An optimization that failed in one round and passes in a later one stays counted as failed
  (`EarlierRoundStands`), so how the total splits depends on the order of rounds
  (`SplitIgnoresOrderIff`).
- The dashboard's path normalizer is said to mirror realpath; it keeps empty segments, and
  `a//../b` becomes `a/b` where realpath gives `b` (`SamePlaceIff`,
  `DoubleSlashChangesThePlace`).
- The model-configuration cache is called LRU; it evicts by time of the last put. The evicted
  key is a least recently used one exactly when it was not hit since its last put or every
  other key was used since that hit (`EvictsLeastRecentlyUsedIff`, `AHitDoesNotSaveAKey`), and
  storing a present key again evicts another one (`PutAgainEvictsAnother`).
- The suggested tensor-parallel size may be none of 1, 2, 4, 8 (`SuggestionIsValidIff`,
  `ThreeIsSuggested`).

## Model

| member | source | states |
|---|---|---|
| CheckpointProtocol.StepIsTimely | orchestration/checkpoint_manager.py:105-135 | no step of any host lets a recorded, observed or imported timestamp run ahead of LastModified |
| CheckpointProtocol.SyncNeverExceedsLastModified | orchestration/session_state.py:666-721 | in every interleaving of every host's steps, with lagging metadata imported anywhere, each recorded s3_last_sync is at most the object's LastModified |
| CheckpointProtocol.RunIsTimely | orchestration/session_manager.py:343-438 | the same from any timely world, including the strict lag of the metadata copy |
| CheckpointProtocol.OnlyRecordingAdvances | orchestration/checkpoint_manager.py:125-133 | a failed or refused upload never moves a timestamp; only the read-back does, or discovery together with the removal of the worktree |
| CheckpointProtocol.StepKeepsTruthful | orchestration/checkpoint_manager.py:105-135 | every step of any host keeps the meaning of every recorded, observed and guarded timestamp, linear or not, but for the hosts with which an upload raced |
| CheckpointProtocol.UploadKeepsTruthful | orchestration/checkpoint_manager.py:125-135 | an upload spoils only the timestamps of the hosts in whose window it lands |
| CheckpointProtocol.HistoryIsLinearIff | orchestration/session_manager.py:1704-1732 | over separate steps from any truthful world, races included, the versions are one chain if and only if no upload overwrites |
| CheckpointProtocol.EveryInterleavingIsLinearIff | orchestration/checkpoint_manager.py:105-135 | from creation on, over separate steps of any number of hosts interleaved in any way, the versions are one chain if and only if no upload whose guard had nothing to compare, or with which another upload raced, comes from a tree that does not extend what is stored |
| CheckpointProtocol.ExclusiveRunsTaintNobody | orchestration/checkpoint_manager.py:105-135 | while uploads keep out of other hosts' windows no timestamp is ever spoiled, so only guards without a comparison matter |
| CheckpointProtocol.InitialIsTruthful | orchestration/session_manager.py:1282-1576 | a session's creation is a start for every run |
| CheckpointProtocol.ChainAfterIff | orchestration/checkpoint_manager.py:105-125 | one step keeps the chain if and only if it does not overwrite: where an unraced guard compared, letting the upload through was right |
| CheckpointProtocol.GuardMeansUpToDate | orchestration/checkpoint_manager.py:105-116 | with a truthful timestamp, passing the guard means the tree extends what is stored |
| CheckpointProtocol.UninterruptedIsMerged | orchestration/checkpoint_manager.py:105-135 | guard, upload, read-back and record without interruption are one all-or-nothing step |
| CheckpointProtocol.GuardRaceLosesAnUpload | orchestration/checkpoint_manager.py:105-135 | two hosts that both pass an answered guard with a timestamp: the first upload races with the second, which overwrites it |
| CheckpointProtocol.ReadBackRaceBlindsTheGuard | orchestration/session_manager.py:1802-1830 | an upload between another host's extraction and its read-back lets that host's guard pass with an old tree |
| CheckpointProtocol.UnansweredHeadSkipsTheGuard | orchestration/session_state.py:142-169 | a failed head request reads as no object and a stale host overwrites; answered, it would have been refused |
| CheckpointProtocol.DeathBeforeTheRecordSkipsTheGuard | orchestration/checkpoint_manager.py:125-133 | a creator that died before recording its first upload has nothing to compare and overwrites |
| CheckpointRuns.CallKeepsTruthful | orchestration/session_manager.py:343-438 | every whole call, discoveries and deaths in mid-upload and mid-restore included, keeps timestamps truthful without conditions |
| CheckpointRuns.ChainAfterCallIff | orchestration/checkpoint_manager.py:105-135 | one call keeps the chain if and only if it is not an upload by a host without a timestamp or an answer whose tree does not extend what is stored |
| CheckpointRuns.EveryRunIsLinearIff | orchestration/checkpoint_manager.py:105-135 | from creation on, over every run of edits, checkpoints, pauses, resumes, discoveries, deaths, forgotten sessions and lost disks on any number of hosts, the versions are one chain if and only if no call overwrites |
| CheckpointRuns.EveryRunStaysLinear | orchestration/session_manager.py:1784-1839 | runs of edits, answered checkpoints and pauses, resumes, deaths while restoring, forgotten sessions and lost disks never overwrite, so they stay linear |
| CheckpointRuns.DeathBeforeTheRecordOverwrites | orchestration/checkpoint_manager.py:125-133 | a run from creation in which the creator dies before recording and later overwrites another host's version |
| CheckpointRuns.LeftoverWorktreeOverwrites | orchestration/session_manager.py:394-438 | a run from creation, for any edits, in which two hosts forget the session and import metadata without a timestamp beside their worktrees, and one overwrites the other |
| CheckpointAnswers.RestoreHoldsStoredIff | orchestration/session_manager.py:1784-1839 | after a resume whose download succeeds the host holds the stored tree with LastModified as its timestamp if and only if it did not know the session, had no worktree, was seen to be behind, or held just that already; in the last case, and in any other, nothing changes |
| CheckpointAnswers.FailedRestoreRecordsNothing | orchestration/session_manager.py:1802-1839 | a resume whose download fails moves no timestamp; the worktree of a host that was behind is gone |
| CheckpointAnswers.SyncStoresIff | orchestration/checkpoint_manager.py:105-135 | a checkpoint puts the host's own tree in the store as the newest version, and its timestamp in the record, if and only if the session is known, has a worktree, was not seen to be behind and the upload succeeds; otherwise nothing changes |
| CheckpointAnswers.UploadAfterRestore | orchestration/checkpoint_manager.py:105-125 | an answered upload right after a resume that brought the stored version is never refused |
| CheckpointAnswers.DiscoverAdoptsIff | orchestration/session_manager.py:343-438 | discovery adopts the stored metadata if and only if the session is unknown or the copy's timestamp is later; a known session then loses its worktree |
| CheckpointManager.Manager.UploadAndRecord | orchestration/checkpoint_manager.py:125-133 | the shielded task changes both the stored version and the session's record, or neither |
| CheckpointManager.Manager.CheckpointSession | orchestration/checkpoint_manager.py:54-154 | exactly when it succeeds, its whole effect as one merged protocol step, and that the in-progress flag is always cleared |
| CheckpointManager.Manager.PauseSync | orchestration/session_manager.py:1704-1744 | exactly when pause reports a conflict or a failure, and that it then changed nothing |
| CheckpointCancel.StepKeepsInStep | orchestration/checkpoint_manager.py:118-154 | each await or cancellation keeps timestamp and running task in step |
| CheckpointCancel.DrainedMeansInSync | orchestration/session_manager.py:1718-1744 | cancelled at any await, once the task has drained s3_last_sync equals LastModified, and the guard never trips on the host's own upload |
| CheckpointCancel.UnshieldedCancelTripsTheGuard | orchestration/checkpoint_manager.py:118-124 | without the shield one cancellation makes the next guard refuse |
| CheckpointCancel.StepKeepsCounted | orchestration/checkpoint_manager.py:118-154 | each await keeps: a stamp is LastModified exactly when it was read after the last upload |
| CheckpointCancel.InSyncIff | orchestration/checkpoint_manager.py:118-154 | with uploads overlapping and calls cancelled in any way, s3_last_sync is LastModified if and only if the last task to record read back after the last upload; drained, the next guard trips on the host's own upload if and only if it did not |
| CheckpointCancel.OverlapLeavesAnOldStamp | orchestration/checkpoint_manager.py:72-77 | a run of two overlapping uploads that ends drained with the older timestamp |
| GpuAllocator.GpuResourceManager.Register | shared/gpu_resource_manager.py:73-89 | the entry under the session and GPU becomes this descriptor |
| GpuAllocator.GpuResourceManager.Deregister | shared/gpu_resource_manager.py:91-93 | exactly that key goes, whoever registered it, and with it the lock of a file nothing else refers to |
| GpuAllocator.GpuResourceManager.AvailableCount | shared/gpu_resource_manager.py:103-111 | the total less the distinct registered GPUs, clamped at zero |
| GpuAllocator.GpuResourceManager.Pass | shared/gpu_resource_manager.py:158-191 | one polling pass has the effect of its attempts in order; what it adds are the first unlocked GPUs in order, up to what is wanted; then the call has enough, or every GPU is on its list or was locked; and it has enough if and only if enough distinct GPUs were unlocked |
| GpuAllocator.GpuResourceManager.Rollback | shared/gpu_resource_manager.py:196-215 | every key of the call is gone and every descriptor of it closed, as is every popped file without another reference |
| GpuAllocator.GpuResourceManager.TimeOut | shared/gpu_resource_manager.py:196-240 | the two rollbacks of the time-out path have the effect of one |
| GpuAllocator.GpuResourceManager.ReleaseForSession | shared/gpu_resource_manager.py:242-271 | exactly the session's entries are gone and exactly their locks dropped |
| GpuAllocator.RollbackTwice | shared/gpu_resource_manager.py:224-240 | the second rollback changes nothing, in any state |
| GpuAllocator.RollbackAccountsIff | shared/gpu_resource_manager.py:196-215 | a rollback keeps registry and locks equal if and only if no key it pops was re-registered by a call that still waits |
| GpuAllocator.AttemptKeepsSound | shared/gpu_resource_manager.py:167-188 | an attempt on a GPU keeps the accounts, whoever holds its lock |
| GpuAllocator.ReleaseKeepsSound | shared/gpu_resource_manager.py:249-269 | a release keeps them, also under suspended calls |
| GpuAllocator.TimeOutKeepsSound | shared/gpu_resource_manager.py:196-240 | a time-out keeps them, also of every other waiting call, unless it pops a waiting call's entry |
| GpuAllocator.StepKeepsSound | shared/gpu_resource_manager.py:117-271 | so does every other step, whatever acquires are under way: cancellation, whose locks stay registered, and rediscovery of the ids included |
| GpuAllocator.AccountedAfterIff | shared/gpu_resource_manager.py:196-240 | one step of anybody leaves registry and held locks equal if and only if it is not a time-out that pops a waiting call's entry |
| GpuAllocator.InitialIsSound | shared/gpu_resource_manager.py:56-68 | a fresh server satisfies every invariant the run theorems start from |
| GpuAllocator.EveryRunIsAccountedIff | shared/gpu_resource_manager.py:73-271 | in every interleaving of any number of acquires, of one session too, no GPU is in two entries and the registry is exactly the held locks at every moment, if and only if no time-out pops a waiting call's entry |
| GpuAllocator.ReturnedKeepsItsLockIff | shared/gpu_resource_manager.py:217-222 | in every interleaving, accounts right or wrong, each GPU of a returned acquire stays registered and locked until its session is released, if and only if no call of the session that had taken that GPU before a release times out |
| GpuAllocator.KeptAfterIff | shared/gpu_resource_manager.py:196-240 | the same for one step, with the condition on the state before it |
| GpuAllocator.OneAcquireEachNeverStrays | orchestration/session_manager.py:1920-1924 | no time-out pops any entry but its own while each session has one acquire at a time |
| GpuAllocator.PatientRunsNeverStray | orchestration/session_manager.py:551-553 | nor while no session is released during its waits, however many acquires it has |
| GpuAllocator.OverlappingAcquiresLoseALock | shared/gpu_resource_manager.py:117-271 | a run in which the first acquire's time-out empties the registry while the second one waits holding GPU 0 |
| GpuAllocator.ALateTimeOutRobsAReturnedAcquire | shared/gpu_resource_manager.py:91-93 | a run in which it does so after the second one has returned, and nobody holds GPU 0 any more |
| GpuAllocator.AvailableIsExact | shared/gpu_resource_manager.py:103-111 | while everything registered is known the clamp never acts, and the count is the number of free GPUs if and only if the discovered ids are distinct |
| GpuAllocator.AvailableIsExactIff | shared/gpu_resource_manager.py:103-111 | after any rediscovery, of distinct ids, it is that number if and only if everything registered is known or everything known is registered |
| GpuAllocator.RediscoveryMiscounts | shared/gpu_file_lock.py:414-423 | a run in which the lock file of a registered GPU disappears and the count is 0 with one GPU free |
| GpuAllocator.KnownThroughout | shared/gpu_file_lock.py:414-423 | everything registered stays known in every run whose rediscoveries drop no registered GPU |
| GpuAllocator.UndisturbedCallHoldsAll | shared/gpu_resource_manager.py:157-194 | nobody else's step takes a GPU from a suspended call |
| GpuAllocator.AcquireReturnsWhatItHolds | shared/gpu_resource_manager.py:143-222 | a completed acquire returns exactly the requested number of distinct GPUs, all locked by and registered to its session, and still known unless a rediscovery dropped a registered one, if that session was not released |
| GpuAllocator.TimeOutReturnsOnlyItsOwn | shared/gpu_resource_manager.py:196-240 | a time-out touches no other session's entry or lock and no other process's; it pops exactly the call's keys, which are exactly what it took if and only if no other call of the session registered one of them since |
| GpuAllocator.PassIsARun | shared/gpu_resource_manager.py:158-191 | a pass is a sequence of the interleaved steps |
| GpuAllocator.PassTakesFree | shared/gpu_resource_manager.py:158-191 | the same of a pass from any state; everybody else's locks and entries stay |
| GpuAllocator.AcquireSucceedsIff | shared/gpu_resource_manager.py:143-194 | a request is let in if and only if it is for some GPUs and no more than exist, and its first pass completes it if and only if as many distinct GPUs are unlocked |
| Sessions.RoundTripIff | shared/session_models.py:492-575 | from_dict of to_dict gives the session back if and only if tp_size is not 0 or no GPU was requested |
| Sessions.LoadSettles | shared/session_models.py:532-575 | one load settles any file, old ones with missing fields included: later saves and loads change nothing |
| Sessions.OldFileIff | shared/session_models.py:549-555 | a file from before GPUs and sizes were saved loads as the same session if and only if it showed and asked for none; a missing tp_size alone reads as the requested count |
| SessionManager.Manager.constructor | orchestration/session_manager.py:183-231 | a fresh server knows what its files give and holds nothing |
| SessionManager.Manager.LoadOne | orchestration/session_manager.py:250-297 | what one file puts into the registry and what it becomes on disk |
| SessionManager.Manager.Load | orchestration/session_manager.py:237-300 | the loop over the directories does that for every file, in any order |
| SessionManager.Manager.Save | orchestration/session_manager.py:453-465 | the file becomes the session as it is now, no other file changes |
| SessionManager.Manager.Acquire | orchestration/session_manager.py:520-549 | nothing for no GPUs, otherwise the whole grant registered or nothing |
| SessionManager.Manager.ActiveCount | orchestration/session_manager.py:1306-1312 | the number of the owner's live sessions |
| SessionManager.Manager.StartTerminal | orchestration/session_manager.py:1486-1541 | TerminalError releases, no ttyd does not; the status after either |
| SessionManager.Manager.GiveUpCreating | orchestration/session_manager.py:1557-1568 | the handler saves FAILED, releases and erases |
| SessionManager.Manager.SetUp | orchestration/session_manager.py:1404-1576 | everything create does after admission, on every outcome of its stages |
| SessionManager.Manager.CreateSession | orchestration/session_manager.py:1282-1576 | the whole new server state, and that a failed creation stays listed as FAILED |
| SessionManager.Manager.SetUpFork | orchestration/session_manager.py:1355-1401 | the fork branch leaves a building session with its GPUs, or neither |
| SessionManager.Manager.CreateForkSession | orchestration/session_manager.py:1355-1401 | the whole new state; it succeeds if and only if the session is listed |
| SessionManager.Manager.FailBuild | orchestration/session_manager.py:1204-1229 | FAILED, GPUs released and no longer shown, saved |
| SessionManager.Manager.BuildDone | orchestration/session_manager.py:1168-1202 | the build's end makes the session ACTIVE or FAILED, or nothing when it is gone |
| SessionManager.Manager.PauseSession | orchestration/session_manager.py:1663-1750 | pauses exactly ACTIVE sessions, releasing what they hold and keeping what they show |
| SessionManager.Manager.Reopen | orchestration/session_manager.py:1920-2075 | the part of resume that acquires and launches, with its handler |
| SessionManager.Manager.ResumeSession | orchestration/session_manager.py:1780-2075 | the whole new state on every outcome, refusals changing nothing |
| SessionManager.Manager.StopAndRelease | orchestration/session_manager.py:2411-2424 | a build under way is failed and everything held is released |
| SessionManager.Manager.TerminateSession | orchestration/session_manager.py:2399-2537 | the whole new state: nothing held, not listed, a tombstone on disk |
| SessionManager.Manager.CleanupOldSessions | orchestration/session_manager.py:2619-2676 | exactly the old FAILED and TERMINATED sessions go, with their directories |
| Lifecycle.SoundAfterIff | orchestration/session_manager.py:1528-1539 | one operation keeps the holdings invariant if and only if it is not a launch that gets GPUs and finds no ttyd |
| Lifecycle.CreateCellIff | orchestration/session_manager.py:1404-1576 | the same for create alone, on each of its outcomes |
| Lifecycle.ResumeCellIff | orchestration/session_manager.py:1920-2075 | the same for resume alone |
| Lifecycle.NextCellOk | orchestration/session_manager.py:1204-1229 | fork creation, build end, pause and terminate always keep it |
| Lifecycle.EveryRunIsSoundIff | orchestration/session_manager.py:1282-2537 | at every moment of a run each ACTIVE or BUILDING session holds exactly the GPUs it requested, each PAUSED or FAILED one none, no GPU belongs to an unknown session, and each file would bring back its session, if and only if no launch gets GPUs and finds no ttyd |
| Lifecycle.GpusAreConserved | orchestration/session_manager.py:1204-1229 | as many GPUs are registered as the building and active sessions requested together |
| Lifecycle.ShowsWhatItHoldsIff | orchestration/session_manager.py:1920-1924 | an active session shows what it holds if and only if it requested GPUs or shows none |
| Lifecycle.OldFileShowsUnheldGpus | shared/session_models.py:549-554 | a file without requested_gpu_count, loaded and resumed, shows GPU 0 and holds nothing |
| Lifecycle.RestartFromAnyDisk | orchestration/session_manager.py:237-300 | after a restart from any files whatsoever every loaded session is PAUSED, nothing is held and the invariant holds |
| Lifecycle.RestartKeepsExactly | orchestration/session_manager.py:254-295 | a restart brings back the active and paused sessions and no others, each unchanged but paused |
| Lifecycle.RestartSettlesFiles | orchestration/session_manager.py:266-293 | what each file says after loading: interrupted builds failed with no GPUs, nothing else lost |
| Lifecycle.CrashWhileLoading | orchestration/session_manager.py:237-300 | dying again with any part of the files rewritten loses nothing |
| Lifecycle.RestartTwice | orchestration/session_manager.py:237-300 | restarting twice is restarting once |
| Lifecycle.PauseThenRestart | orchestration/session_manager.py:1679-1689 | pausing before a restart makes no difference to what the restart leaves |
| Lifecycle.PauseThenResume | orchestration/session_manager.py:1758-2075 | pausing and resuming on the same GPUs restores the whole server |
| Lifecycle.TerminateLeavesATombstone | orchestration/session_manager.py:2521-2531 | terminating releases everything and leaves a file no load brings back |
| Lifecycle.TerminatedStaysGone | orchestration/session_manager.py:255-260 | a terminated session never comes back in any run, restarts included |
| Lifecycle.DifferentSessionsCommute | orchestration/session_manager.py:1282-2537 | calls on different sessions commute unless their grants overlap |
| Lifecycle.SweptWhileStranded | orchestration/session_manager.py:1528-1539 | creating without ttyd and sweeping leaves GPUs registered to an unknown session |
| Lifecycle.OrphansNeedARestart | orchestration/session_manager.py:2641-2666 | no operation but a restart ever frees them |
| Lifecycle.WithinLimitAfterIff | orchestration/session_manager.py:1306-1316 | one operation keeps every owner within the limit if and only if it is not the resume of a paused session that gets its GPUs and its terminal while its owner has as many live sessions as allowed |
| Lifecycle.ResumingExceedsTheLimit | orchestration/session_manager.py:1853-1860 | create, pause, create, resume: a run that ends over the limit of one |
| LifecycleAnswers.LiveMeans | orchestration/session_manager.py:1306-1311 | a session counts against its owner's limit exactly while it is building or active |
| LifecycleAnswers.CreateAnswers | orchestration/session_manager.py:1404-1576 | a created session is active, showing and holding exactly its grant, if and only if every stage succeeds; what it holds, shows and leaves on disk otherwise |
| LifecycleAnswers.RefusedCreateChangesNothing | orchestration/session_manager.py:1312-1316 | at the limit a creation changes nothing |
| LifecycleAnswers.ForkAnswers | orchestration/session_manager.py:1355-1401 | a fork session is listed, building and holding exactly its grant, if and only if its directories, GPUs and task came about; otherwise it holds nothing |
| LifecycleAnswers.BuildAnswers | orchestration/session_manager.py:1168-1229 | the end of a build leaves an active session with its GPUs or a failed one with none, saved as such |
| LifecycleAnswers.PauseAnswers | orchestration/session_manager.py:1663-1750 | exactly active sessions are paused, hold nothing afterwards and are saved as paused |
| LifecycleAnswers.ResumeAnswers | orchestration/session_manager.py:1853-2075 | a paused session becomes active, holding and showing exactly its grant, if and only if worktree, GPUs and terminal are there; what a failed resume leaves |
| LifecycleAnswers.TerminateAnswers | orchestration/session_manager.py:2399-2537 | no session, no build, no GPUs, and a file that says TERMINATED |
| LifecycleAnswers.CleanupAnswers | orchestration/session_manager.py:2641-2666 | an id goes from the sessions and from the disk if and only if it is listed, old enough and FAILED or TERMINATED; every other id keeps both, and GPUs, builds and limit stay |
| LifecycleGpus.ReleaseRefines | shared/gpu_resource_manager.py:242-271 | releasing in the lock table is releasing in the lifecycle's view |
| LifecycleGpus.StepRefines | shared/gpu_resource_manager.py:117-271 | in every interleaving of all sessions' acquires, as the lifecycle sees it, attempts, discoveries and other processes change no holding, a release releases one session, an ending call hands over what it took, a returning one makes a usable grant, and a time-out takes exactly what it robs, nothing if and only if it pops only its own entries |
| LifecycleGpus.AcquireRefines | shared/gpu_resource_manager.py:117-240 | a whole acquire amid any other sessions' acquires and releases is one usable grant at its return, and a time-out changes no holding |
| ProcessMarkers.BoundaryIsComponents | orchestration/session_manager.py:126-147 | the string test for a path marker is the test on path components |
| ProcessMarkers.BasenameIsLastComponent | orchestration/session_manager.py:119-124 | the script test is equality with the last component |
| ProcessMarkers.HasPathIs | orchestration/session_manager.py:139-147 | argv elements, cwd and environ values are the only strings compared |
| ProcessMarkers.ValueOfIff | orchestration/session_manager.py:139-147 | the value of an environ line is what follows its first equals sign |
| ProcessMarkers.StandardMarkersAre | orchestration/session_manager.py:738-764 | a session's markers are its directory, its worktree and its environ line |
| ProcessMarkers.MarkerPathsIff | orchestration/session_manager.py:738-764 | of the recorded directory, the recorded worktree and the directory under the sessions root exactly those are markers that are set and have the id in them |
| ProcessMarkers.MatchesIff | orchestration/session_manager.py:164-168 | a process matches if and only if it has the environ line in full or a token under the session's directory |
| ProcessMarkers.SessionsAreIsolated | orchestration/session_manager.py:738-764 | no process of session B matches session A's markers, also when one id is a prefix of the other |
| ProcessMarkers.SiblingPathsDiffer | orchestration/session_manager.py:131-137 | no path under B's directory matches A's |
| ProcessSweep.IsExemptIff | orchestration/session_manager.py:817-828 | a process is exempt if and only if it carries AMMO_DETACHED_RUN=1 or some argument's last component is reserved_detached_run.sh |
| ProcessSweep.OwnedIff | orchestration/session_manager.py:830-890 | a process is owned if and only if it is readable, not guarded, outside the server's group, no detached run, and carries the session's line or a token under its directory |
| ProcessSweep.ProtectedPids | orchestration/session_manager.py:766-781 | init, the server and all its ancestors up to the bound, and nobody else |
| ProcessSweep.Scan | orchestration/session_manager.py:830-890 | exactly the owned processes in ascending order, and exactly the groups of exempt runs |
| ProcessSweep.SignalAll | orchestration/session_manager.py:910-929 | exactly the processes reached by group or single signals |
| ProcessSweep.SweepReaches | orchestration/session_manager.py:918-927 | a process is signalled if and only if it is owned or shares a signallable group with an owned one |
| ProcessSweep.OwnedAreReached | orchestration/session_manager.py:957-958 | every owned process is signalled |
| ProcessSweep.ExemptRunsSurvive | orchestration/session_manager.py:871-879 | no exempt run, and no member of its group that is not owned, is ever signalled |
| ProcessSweep.ServerAndInitSurvive | orchestration/session_manager.py:766-781 | the server's group and init never are, a guarded process is never owned, nor signalled outside owned groups |
| ProcessSweep.KillSessionOwned | orchestration/session_manager.py:931-978 | who gets SIGTERM, who gets SIGKILL and who is reported, against three successive snapshots |
| ProcessSweep.NothingSurvivesIff | orchestration/session_manager.py:962-978 | when nothing spawns or changes after the second scan, the last scan finds nothing if and only if every process owned at the second is gone |
| ProcessSweep.NothingSurvives | orchestration/session_manager.py:962-978 | an effective SIGKILL is enough |
| ProcessSweep.StopSession | orchestration/session_manager.py:980-997 | the survivor list is empty if and only if nothing was owned at the first or at the second scan or everything owned at the second is gone |
| ProcessSweep.AStuckProcessSurvives | orchestration/session_manager.py:973-978 | a process that neither signal removes is still there when the GPUs are released |
| Buckets.ParseIsSpelling | orchestration/campaign_data_service.py:31-74 | the parser accepts exactly the tags that spell positive numbers and reads them right |
| Buckets.CanonicalRoundTrip | frontend/js/campaign-app.js:131-160 | printing a workload canonically and parsing it gives it back |
| Buckets.CanonicalSortsLast | orchestration/campaign_data_service.py:82-90 | of all spellings of a workload the canonical one sorts last |
| Buckets.BeforeIsStrict | frontend/js/campaign-app.js:167-176 | the sort key is a strict total order on different tags |
| Buckets.FirstBuckets | orchestration/campaign_data_service.py:77-90 | homogeneous buckets go first, then the shorter input, the shorter output, the smaller batch, the smaller tag |
| Buckets.RecordsAre | orchestration/campaign_data_service.py:77-90 | the records are sorted, one for each key that parses |
| Buckets.RecordsIgnoreOrder | frontend/js/campaign-app.js:162-177 | they do not depend on the order of the map |
| Speedup.SpeedupAtFirstSharedBucket | orchestration/campaign_data_service.py:223-260 | the identity index computes the naive nested scan |
| Speedup.IndexIsLastWith | orchestration/campaign_data_service.py:232-239 | the index holds, for each identity, the last record a scan finds |
| Speedup.LastWithIsGreatest | orchestration/campaign_data_service.py:232-239 | which is the greatest of that identity |
| Speedup.SpeedupIsLeastPair | orchestration/campaign_data_service.py:240-260 | the answer times the combined average is the baseline average, at the least baseline bucket with a partner of the very same workload, both dictionaries with a positive average; none if and only if there is no such pair |
| Speedup.CanonicalSpellingWins | orchestration/campaign_data_service.py:223-231 | the canonical spelling in the combined map is the one used whenever present |
| Speedup.CanonicalBeatsArchived | orchestration/campaign_data_service.py:223-231 | for every batch size, a bare archived key is paired with the canonical one when the combined map has both |
| Speedup.OrderIsIrrelevant | orchestration/campaign_data_service.py:223-260 | neither map's insertion order matters |
| Speedup.ComputeCumulativeSpeedup | orchestration/campaign_data_service.py:263-299 | the backward walk computes the specified value |
| Speedup.CumulativeIsLatest | orchestration/campaign_data_service.py:280-299 | it is the rounded answer of the latest round that has one, and 1.0 exactly when none has or that answer rounds to 1.0 |
| Speedup.LegacyMattersIff | orchestration/campaign_data_service.py:287-298 | what a round says depends on its legacy result if and only if round 1 has a usable bucket and the combined map shares none with it |
| SpeedupAnswers.SpeedupIsIff | orchestration/campaign_data_service.py:223-260 | the answer is x if and only if the least pair's combined average times x is its baseline average |
| SpeedupAnswers.FasterTakesLess | orchestration/campaign_data_service.py:259 | an answer is positive, and above 1 exactly when the combined average is the smaller one |
| SpeedupAnswers.ScalingScales | orchestration/campaign_data_service.py:223-260 | every baseline average times k gives the answer times k |
| SpeedupAnswers.ScalingKeepsAnswer | orchestration/campaign_data_service.py:223-260 | and neither makes nor loses an answer |
| SpeedupAnswers.RoundsToFourDecimals | orchestration/campaign_data_service.py:289-298 | rounding gives the nearest number with four decimals, of two the even one |
| SpeedupAnswers.RoundOffersIff | orchestration/campaign_data_service.py:287-298 | a round answers x if and only if its combined map gives x, or has no pair with round 1 and the legacy result gives x |
| SpeedupAnswers.AnchorIs | orchestration/campaign_data_service.py:263-279 | round 1 anchors the speedup if and only if its latency is a map with a key that parses |
| SpeedupAnswers.CumulativeMeans | orchestration/campaign_data_service.py:263-299 | the cumulative speedup is what the latest round that gives anything gives, in terms of averages, to four decimals; 1.0 when no round gives anything |
| NormalizerInPlace.StripKeys | orchestration/campaign_data_service.py:93-103 | rebuilding an entry, later keys overwriting earlier ones |
| NormalizerInPlace.JsonDict.StripLatencyMap | orchestration/campaign_data_service.py:106-115 | each entry is stripped once, keys and their order unchanged |
| NormalizerInPlace.JsonDict.NormalizeTrack | orchestration/campaign_data_service.py:202-220 | the kernel speedup is split and the end-to-end speedup flattened one level |
| NormalizerInPlace.NormalizeTracks | orchestration/campaign_data_service.py:171-180 | every dictionary among the tracks is normalized |
| NormalizerInPlace.NormalizeCandidates | orchestration/campaign_data_service.py:182-190 | every candidate's speedup is flattened one level |
| NormalizerInPlace.NormalizeBaseline | orchestration/campaign_data_service.py:140-153 | the baseline is filled from the legacy result and stripped |
| NormalizerInPlace.NormalizeIntegration | orchestration/campaign_data_service.py:155-199 | the integration is filled, flattened and stripped |
| NormalizerInPlace.NormalizeRound | orchestration/campaign_data_service.py:118-199 | a whole round |
| NormalizerInPlace.NormalizeE2eLatency | orchestration/campaign_data_service.py:302-333 | the whole rewrite equals the specified one, malformed parts left alone |
| NormalizerReads.IntegrationIsBackfilled | orchestration/campaign_data_service.py:155-190 | a missing combined latency reads the legacy opt_s, if that is a positive number, as average and median under the verdict tag, else the standalone opt_s; a present one, or one without either, is kept up to suffixes; nothing else but the candidates changes |
| NormalizerReads.BaselineIsBackfilled | orchestration/campaign_data_service.py:140-153 | the same of the baseline with latency_baseline_s; a missing verdict map is the legacy one |
| NormalizerReads.LegacyTagIs | orchestration/campaign_data_service.py:134-138 | the tag is the first verdict key in bucket order, or 1 |
| NormalizerReads.LatencyIsStripped | orchestration/campaign_data_service.py:93-115 | a stripped map has the same buckets in the same order, and under each key the value of the last key that strips to it |
| NormalizerReads.CandidatesAreFlattened | orchestration/campaign_data_service.py:182-190 | each candidate's speedup is its first truthy of speedup_x, measured and value; nothing else of it changes |
| NormalizerReads.TracksAreRewritten | orchestration/campaign_data_service.py:171-220 | each track's kernel speedup is the greatest variant that counts, or null, with the variants kept aside, its end-to-end speedup flattened, and nothing else changed |
| NormalizerReads.RoundIsRewritten | orchestration/campaign_data_service.py:118-199 | a round changes in its baseline, integration and tracks only |
| NormalizerReads.StateIsRewritten | orchestration/campaign_data_service.py:302-333 | a state changes in its rounds and its cumulative speedup only, which is computed from the rewritten rounds; without rounds not at all |
| NormalizerProof.StripIntoKeys | orchestration/campaign_data_service.py:93-103 | the keys of a rebuilt entry are exactly the stripped ones |
| NormalizerProof.StripEntryFixed | orchestration/campaign_data_service.py:93-115 | an entry is left alone if and only if no key ends in `_s` |
| NormalizerProof.MaxVariantIs | orchestration/campaign_data_service.py:204-214 | the scalar is the greatest positive number that is not a meta key, when there is one |
| NormalizerProof.OnePassOneLevel | orchestration/campaign_data_service.py:302-333 | one pass removes exactly one level of suffixes and nesting everywhere |
| NormalizerProof.SecondPass | orchestration/campaign_data_service.py:316 | a rewritten state is a fixed point if and only if no level is left |
| NormalizerProof.IdempotentIff | orchestration/campaign_data_service.py:316 | twice equals once if and only if the state is at most one level deep |
| NormalizerProof.OneLevelMeans | orchestration/campaign_data_service.py:93-115 | what one level means for each key and each selected speedup |
| NormalizerProof.DoublySuffixedKeyFails | orchestration/campaign_data_service.py:93-103 | on a state whose one latency entry has the key `avg_s_s`, twice is not once |
| NormalizerProof.NestedSpeedupFails | orchestration/campaign_data_service.py:217-220 | nor on a state whose one track has a speedup nested in a speedup |
| NormalizerProof.ManyPasses | orchestration/campaign_data_service.py:302-333 | k passes remove exactly k levels |
| NormalizerProof.FixedAfterIff | orchestration/campaign_data_service.py:302-333 | after k passes the state is fixed if and only if it was at most k levels deep |
| NormalizerProof.EveryStateSettles | orchestration/campaign_data_service.py:302-333 | every JSON state reaches a fixed point |
| TrackCounts.CountOnServer | orchestration/campaign_data_service.py:740-797 | the three counters are the sizes of the three classes of ids, each id classed by the first round that counts it |
| TrackCounts.CountOnDashboard | frontend/js/campaign-app.js:603-644 | the same for the dashboard's port |
| TrackCounts.CountRound | orchestration/campaign_data_service.py:770-796 | one round adds exactly its ids not counted before, in their classes |
| TrackCounts.CountedIff | orchestration/campaign_data_service.py:770-796 | an id is counted if and only if some round lists it as shipped or has a track of it that is decided or in the current round |
| TrackCounts.VerdictComesFirst | orchestration/campaign_data_service.py:757-760 | in both ports a verdict decides whatever the status, a status decides as the same verdict would, and a track with neither is open |
| TrackCounts.DecidingWords | frontend/js/campaign-app.js:810-827 | which words ship or fail a track in either port, and that SHIPPED does so in the server only |
| TrackCounts.CountsPartition | orchestration/campaign_data_service.py:740-797 | the three counts add up to the number of counted ids |
| TrackCounts.TotalIgnoresOrder | orchestration/campaign_data_service.py:770-796 | the total depends neither on the order of rounds nor on repeats |
| TrackCounts.EarlierRoundStands | orchestration/campaign_data_service.py:781-784 | later rounds never change how an id was counted |
| TrackCounts.SplitIgnoresOrderIff | orchestration/campaign_data_service.py:770-796 | the split is the same in every order if and only if no two rounds count an id differently |
| TrackCounts.TrackAgreesIff | frontend/js/campaign-app.js:810-827 | exactly when the two ports class a track alike |
| TrackCounts.CountersAgree | frontend/js/campaign-app.js:603-644 | on every well-formed state the two ports return the same three numbers |
| TrackCounts.VerdictsAgreeIff | frontend/js/campaign-app.js:625-641 | where no id comes up in two rounds, two counters class every id alike if and only if they count every id of every round alike |
| TrackCounts.RootTracksAgreeIff | orchestration/campaign_data_service.py:761-768 | with tracks at the root only they agree if and only if there are none |
| ArtifactPath.NormalizeArtifactPath | frontend/js/campaign-app.js:217-230 | the loop computes the fold of the segments over a stack |
| ArtifactPath.FoldIsNormal | frontend/js/campaign-app.js:220-228 | from any normal stack the result has no `.` and `..` only as a leading run |
| ArtifactPath.ResultIsNormal | frontend/js/campaign-app.js:217-230 | the segments of the resulting string, for every path, are what is left on the stack, with no `.` and `..` only as a leading run |
| ArtifactPath.NormalizeIsIdempotent | frontend/js/campaign-app.js:217-230 | normalizing twice is normalizing once, on every string |
| ArtifactPath.PrefixLawIff | frontend/js/campaign-app.js:217-230 | normalizing a prefix first never matters if and only if the prefix is empty or does not cancel out to nothing |
| ArtifactPath.CancelledPrefixFails | frontend/js/campaign-app.js:217-230 | every prefix that does cancel out is a counterexample |
| ArtifactPath.NameCancelsItself | frontend/js/campaign-app.js:222-224 | any name followed by `..` is such a prefix |
| ArtifactPath.SamePlaceIff | frontend/js/campaign-app.js:213-216 | for every path, the normal form denotes the same place if and only if no `..` meets an empty segment |
| ArtifactPath.NoEmptySegmentsSuffices | frontend/js/campaign-app.js:213-216 | a path without empty segments is such a path |
| ArtifactPath.DoubleSlashChangesThePlace | frontend/js/campaign-app.js:213-216 | a path on which the two disagree |
| TtlCache.ConfigCache.Get | shared/hf_model_config.py:230-239 | answers unexpired entries, drops an expired one from both maps and keeps every other one |
| TtlCache.ConfigCache.Put | shared/hf_model_config.py:241-248 | fails only when full with nothing to evict; otherwise evicts a key of minimal timestamp when full, and stores |
| TtlCache.ConfigCache.Clear | shared/hf_model_config.py:250-252 | both maps are empty |
| TtlCache.EveryRunIsFaithful | shared/hf_model_config.py:230-252 | over every run both maps have the same keys, within the size limit, and hold what was put last |
| TtlCache.HitIsLastPut | shared/hf_model_config.py:230-239 | a hit is the last put value, no older than the time to live |
| TtlCache.FewKeysAreExact | shared/hf_model_config.py:241-248 | with fewer different keys than the limit the cache answers the last put value exactly while it is no older than the time to live |
| TtlCache.PutAgainEvictsAnother | shared/hf_model_config.py:241-248 | at the limit, storing a present key evicts the oldest one and leaves the cache one short |
| TtlCache.EvictsLeastRecentlyUsedIff | shared/hf_model_config.py:204-209 | over every run, the key a full cache evicts is a least recently used one if and only if it was not hit since its last put or every other key was used since that hit |
| TtlCache.AHitDoesNotSaveAKey | shared/hf_model_config.py:241-248 | a run in which the key read last is the only one that may be evicted |
| TensorParallel.SuggestionFitsIff | shared/hf_model_config.py:117-140 | the weights fit in the suggested number of GPUs if and only if they need at most 8 and at most the total |
| TensorParallel.NoSmallerSizeFits | shared/hf_model_config.py:135-136 | no smaller valid size fits |
| TensorParallel.SuggestionIsMonotone | shared/hf_model_config.py:117-140 | more parameters never suggest fewer GPUs, larger GPUs never more |
| TensorParallel.SuggestionIsValidIff | shared/hf_model_config.py:138-140 | the suggestion is a valid size if and only if it was not clamped to a total that is none |
| TensorParallel.BillionWeighs | shared/constants.py:53-61 | 2^30 parameters weigh 4, 2, 1 or 0.5 GiB by data type |
| TensorParallel.UnknownSize | shared/hf_model_config.py:126-133 | without a known size: 1, or for a mixture of experts the GPUs there are, up to 8; without usable memory: 1 |
| TensorParallel.ThreeIsSuggested | shared/hf_model_config.py:138-140 | 3 GiB of weights on three GPUs of 1.25 GB: the suggestion is 3 |

## Left out

- Checkpointing: uploads without a guard (prepare_download, ensure_session_synced), uploads that succeed only in part, deletion from S3, and a failed read-back after a successful upload, which records the local clock instead of LastModified.
- Checkpointing: extracting over a left-over directory is taken to give the archive's tree; each host runs one operation on a session at a time.
- CheckpointManager.Manager.PauseSync: covers the upload part of pause_session only; SessionManager.Manager.PauseSession covers the rest.
- Checkpointing: LastModified is taken to grow strictly with every upload, although the store's timestamps have a resolution of one second.
- GPU locks: the contents of lock files, stale-lock cleanup, and the synchronous `acquire`/`acquire_any` loops, which take part as other lock holders.
- Lifecycle: S3 storage is off; pause, resume and discovery through S3 are in the checkpoint files.
- Lifecycle: each call is one transition; overlapping calls on one session, a cancelled lifecycle call, a file that cannot be written, and a failure after the build task was spawned are not modelled.
- SessionManager.Manager.CleanupOldSessions: does not return the number of sessions removed, which the server ignores; a directory that cannot be removed is left out of `stale`.
- SessionManager.Manager.CreateSession: takes a generated session id to be one never used before.
- Lifecycle: who owns a session is kept only for the limit; ownership checks, terminal ports, process ids, timestamps and the inactivity monitor are not modelled.
- Process sweep: groups that change while a scan runs, recorded cli and ttyd pids and their forced kill, and a server whose own group cannot be read.
- Bucket tags: Unicode digits, and the dashboard's limit to safe integers.
- Numbers are exact rationals: floating-point rounding, infinities and NaN are not modelled; rounding to four decimals is done on the exact ratio.
- Normalizer: a nested dictionary is changed by writing it back into its parent, so one object shared by two parents is not modelled (a parsed JSON document has none).
- NormalizerInPlace.NormalizeE2eLatency: takes documents in which no dictionary repeats a key, as every parsed one.
- ArtifactPath.SamePlaceIff: artifact paths are relative to a directory, so a leading slash counts as an empty segment and not as the root.
- TrackCounts: ids and tokens are strings; letter case is ASCII.
- TtlCache.ConfigCache.Put: which of several keys with the same oldest timestamp goes is left open.
- Everything around this core: HTTP routes, authentication, the WebSocket proxy, tmux, ttyd, git, worktree and AWS commands, the dashboard's rendering, fork base removal, dtype selection and the HuggingFace client.
