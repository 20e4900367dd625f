# Kiroku, modelled and proved in Dafny

Kiroku backs up the configurations of network devices. A dispatcher opens a batch with one run per device and
publishes one job message per run on Redis streams; workers turn a job into a result message; the recorder counts
results, writes files into a git working tree and commits them when a batch is complete; a reaper and two web
handlers may close a batch from the side. This project models that protocol as a transition system over every
interleaving, proves its handlers (classes that change their fields in place) against the system's step functions,
and proves exact specifications of the algorithms around it: the git store, the diff view, the scheduler's tick,
compliance evaluation, search context, text normalisation, the policy form and the CSV import.

`dafny verify dfyconfig.toml` checks everything. A predicate compared with `true` in a contract is not unfolded where the
contract is used, which keeps the proofs small.

## How it is laid out

| file | what it holds |
|---|---|
| `Ledger.dfy` | the tables and, as functions on them, what one recorder, reaper, cancel or purge handler does, including where an exception leaves it |
| `Books.dfy`, `Staging.dfy` | what each handler keeps: counters against statuses, dirty files against the staging list |
| `Lifecycle.dfy`, `Safety.dfy`, `Executions.dfy` | the whole system's steps, its inductive invariant, and how states evolve |
| `Guarantees.dfy`, `Backups.dfy` | what holds in every execution: of runs, counters and messages; of files, staging lists and shas |
| `OneRun.dfy`, `LateResult.dfy`, `LostFile.dfy` | two concrete executions: one counts a run twice, one leaves a captured file behind |
| `StreamTokens.dfy` | operations on a Redis stream, matched by steps of the whole system |
| `Recorder.dfy`, `WebRuns.dfy`, `Dispatch.dfy`, `WorkerPool.dfy`, `JobQueue.dfy` | the code of the actors, in place, each method tied to a ledger or stream function |
| `BackPressure.dfy` | the pre-flight pressure: what it tells, and exactly when an accepted batch can lose a job |
| `Filing.dfy`, `Outcomes.dfy` | what a handler leaves, spelled out: where a capture is filed, and every column of the rows touched |
| `GitStore.dfy`, `SearchIndex.dfy`, `Compliance.dfy` | the file store, the search index that must agree with it, and policy evaluation |
| `DiffRows.dfy`, `Scheduler.dfy`, `SearchContext.dfy`, `Capture.dfy`, `CheckForm.dfy`, `ImportDevices.dfy`, `ImportCells.dfy` | the self-contained algorithms; the last spells out what an import writes, cell by cell |
| `Basics.dfy`, `Targeting.dfy`, `Lines.dfy`, `Decimal.dfy` | helpers: options, de-duplication, `splitlines`, numerals |

## Where the code and its own descriptions differ

The model follows the code.

- A result that arrives after the reaper failed its run is counted again (src/kiroku/recorder/runner.py:110 guards
  cancelled runs only). `failed` then exceeds the failed and cancelled runs by the number of such results;
  `LateResult` gives an execution, `Guarantees.CountersMatch` the exact identity.
- src/kiroku/recorder/git_store.py:59 says an unchanged file means identical content. The file is read with newline
  translation and the new text is hashed raw, so a text with a carriage return always counts as changed;
  `GitStore.RestageUnchanged` says exactly when the promise holds. `Capture.ConfigPlain` and `Capture.NormalizePlain`
  show that what workers send never contains one.
- src/kiroku/dispatch.py:130 logs through a name the module never imports, so the refusal path as written raises
  before it creates any row. `Dispatch.Session.FireJob` covers that (`logs` false) and the intended path of lines 140 to
  172 (`logs` true).
- The docstring at src/kiroku/queue.py:45 has the pressure count the entries not yet fetched. Messages that were
  acknowledged hide part of them; `BackPressure.AcceptedMayLose` says exactly when a batch that passes the check can
  lose an undelivered job.
- docs/schedules.md says instants missed while the scheduler is down are not replayed. The stored instant survives a
  restart, so the first tick afterwards fires once for all of them: `Scheduler.ConsumesExactly`.
- docs/runs.md calls the cancelled status reserved and the files `.txt`; the code writes the status and `.cfg`.
- src/kiroku/web/docs/compliance.md:151 says a failing `minor` check leaves a policy passing; the code fails it.
- docs/devices.md calls the group column optional and single; the code requires it and splits it at commas.
- tests/test_queue.py:92 expects a consumer group that starts at the end of the stream; the code starts at `0`.

## Model

| member | source | states |
|---|---|---|
| Guarantees.CountersMatch | src/kiroku/recorder/runner.py:110-125 | In every reachable state of every interleaving a batch has exactly `total` runs, `succeeded` is its successful runs, `failed` its failed and cancelled runs plus the late results; while it is open there are no late results and the sum stays within `total`; a finished batch has no pending run |
| Guarantees.LateOnlyAfterReaping | src/kiroku/recorder/runner.py:328-339 | The late counts move in one kind of step only: a result is persisted for a run that the reaper itself failed, in a batch already finished. Every other step leaves them all |
| LateResult.LateResultsExceedTotal | src/kiroku/recorder/runner.py:110-125 | From any initial state, the seven listed steps (dispatch, deliver, reap, late result) are an execution that ends with counters above `total`: the late term cannot be dropped |
| Guarantees.AtMostOneMessage | src/kiroku/queue.py:98-128 | In every reachable state a run owns at most one message, over job stream, workers and result stream together, and only a published run owns one |
| Guarantees.AtMostOneResult | src/kiroku/queue.py:98-128 | The recorder handles at most one result of a run in any execution |
| Guarantees.StatusesAreFinal | src/kiroku/recorder/runner.py:110-125 | Over any stretch of any execution a cancelled or successful run keeps its status, and a failed one changes only if the reaper had failed it |
| Guarantees.FinishedOnce | src/kiroku/recorder/runner.py:207-226 | Whoever finishes a batch first, its finishing time, its sha and the sha on every one of its runs never change afterwards, the shas agree, and none of its runs is pending |
| Guarantees.OpenMeansPending | src/kiroku/recorder/runner.py:207-211 | A batch with a published job is open exactly while one of its runs is pending |
| Guarantees.LastResultCloses | src/kiroku/recorder/runner.py:207-211 | While no message of a batch was lost, some pending run still owns a message, and the result of the last pending run closes the batch |
| Guarantees.CancelCloses | src/kiroku/web/routes/runs.py:193-210 | Cancelling an existing batch leaves it finished with no pending run, in every reachable state |
| Guarantees.PurgeCountsOnce | src/kiroku/web/routes/runs.py:160-182 | Snapshot, delete and cancellation are separate steps: whatever happened to a snapshotted run in between, a decided run keeps its status, a pending one becomes cancelled for good, and all batches still balance |
| Backups.NothingLoose | src/kiroku/recorder/runner.py:311-318 | Until a file write or a commit fails or the recorder restarts, no dirty path is let go and no staged path is dropped |
| Backups.DirtyIsListed | src/kiroku/recorder/git_store.py:56-84 | Without such a step every path whose text differs from HEAD is in some batch's staging list, also when two batches share a path; once all lists are empty HEAD is the working tree |
| Backups.PathsConserved | src/kiroku/recorder/runner.py:134-141 | Counted with multiplicity, the paths ever appended for a batch are those handed to a commit that went through, those dropped (the commit raised, or a restart) and those still held, each in one place; without a failing write or commit and without a restart, none is dropped |
| Backups.CommittedReachesHead | src/kiroku/recorder/runner.py:207-226 | In every execution, whenever a path is counted as committed HEAD holds the text the path then has on disk |
| Backups.CommitStampsRuns | src/kiroku/recorder/runner.py:212-226 | When the commit that closes a batch, by the last result or by the reaper, returns a sha, the batch is finished and it and every one of its runs carry that sha, in the next and in every later state |
| Backups.AllFinishedMeansClean | src/kiroku/recorder/runner.py:207-226 | Without cancels, purges, late results, failing writes or commits and restarts, only open batches hold staged paths, and whenever every batch is finished HEAD is the working tree |
| Safety.StepInv | src/kiroku/recorder/runner.py:96-347 | The inductive invariant (tokens, runs against batches, uncommitted dispatches, staging) survives each of the nineteen kinds of step, crashes included |
| Executions.StepEvolves | src/kiroku/recorder/runner.py:96-347 | From one state to the next, statuses, messages and finished batches evolve only as the guarantees allow |
| Books.PersistKeeps | src/kiroku/recorder/runner.py:96-237 | A whole persist keeps every batch balanced, adding one to the late count exactly when it counts a failed run |
| Books.ReapKeeps | src/kiroku/recorder/runner.py:310-347 | Reaping keeps every batch balanced, finishes the batch and leaves none of its runs pending |
| Books.CancelKeeps | src/kiroku/web/routes/runs.py:193-210 | Cancelling keeps every batch balanced and, on an open batch, finishes it |
| Books.PurgeKeeps | src/kiroku/web/routes/runs.py:164-182 | Cancelling an arbitrary set of runs keeps every batch balanced |
| Books.PurgeFinishes | src/kiroku/web/routes/runs.py:175-180 | A batch that loses runs to a purge is afterwards open exactly while one of its runs is pending |
| Staging.PersistCovered | src/kiroku/recorder/runner.py:127-226 | A persist, for a run with or without a batch, and the commit it may trigger, leave every dirty path listed or already loose |
| Staging.CrashedCovered | src/kiroku/recorder/runner.py:96-237 | The same when the handler raises at any of five points; at most the written path (a failing write) or the popped paths (a failing commit) become loose |
| Staging.CommitLostLeaves | src/kiroku/recorder/runner.py:207-226 | Exactly what a raising commit leaves dirty and unlisted: of the popped paths, those that differ from HEAD and that no other batch lists |
| Staging.BrokenWriteLeaves | src/kiroku/recorder/git_store.py:56-73 | A raising file write leaves its path dirty and unlisted exactly when what it wrote differs from HEAD and no batch lists the path; no other path is affected |
| Staging.WriteCrashLeaves | src/kiroku/recorder/runner.py:127-141 | And that is what a persist does that raises in the write: the partial text is in the file, tables and lists are as before |
| LostFile.RaisingCommitLosesFile | src/kiroku/recorder/runner.py:207-226 | From any initial state, the listed steps (dispatch, deliver, a commit that raises, reap) are an execution after which every batch is finished and a captured file differs from HEAD and is in no list |
| Recorder.Process.Persist | src/kiroku/recorder/runner.py:96-237 | The method over runs, batches, devices, index, results, staging dictionary and store ends in the ledger's state for that result |
| Recorder.Process.CaptureConfig | src/kiroku/recorder/runner.py:127-176 | Stages in a batch or commits at once without one, and updates run, device and index as the ledger says; `Filing` spells out where |
| Filing.CaptureInPlace | src/kiroku/recorder/runner.py:127-176 | One capture: the file `<slug of the device's first group>/<slug of its name>.cfg`, or under `ungrouped/` for a device without groups or not in the table, reads as the text; the device points at it with the result's time, the index holds the text, and every other file, row and device is as before |
| Filing.LastCaptureInPlace | src/kiroku/recorder/runner.py:127-176 | After any list of results, with one device per path, each device's last capture is in that place |
| Filing.CaptureListed | src/kiroku/recorder/runner.py:134-226 | In an open batch the path joins the batch's list exactly when the file is missing or reads differently; a batch that closes commits its list and has none left; no other list changes |
| Filing.CaptureCommitted | src/kiroku/recorder/runner.py:142-152 | Without a batch a new text is committed at once and the run carries that sha; an old one makes no commit |
| Filing.NothingCaptured | src/kiroku/recorder/runner.py:127-176 | A failed result, or one of another kind or without a text, changes no file, index row or device |
| Outcomes.DiscardedResult | src/kiroku/recorder/runner.py:96-111 | A result for an unknown or cancelled run changes nothing |
| Outcomes.PersistedRows | src/kiroku/recorder/runner.py:110-237 | Any other result, column by column: status by success, the result's time if it has one, the digest of a captured text; one counter moves; the batch finishes exactly when it was open and this was the last count, at the result's time or else the recorder's; other runs change in their sha at most |
| Outcomes.ReapedRows | src/kiroku/recorder/runner.py:310-347 | Reaping: exactly the pending runs fail, at the time of reaping, and are counted; batch and runs get the sha of the commit |
| Outcomes.CancelledRows | src/kiroku/web/routes/runs.py:193-210 | Cancelling an open batch: exactly its pending runs become cancelled and are counted, and it is finished, all at that time |
| Outcomes.PurgedRows | src/kiroku/web/routes/runs.py:164-182 | Purging: exactly the listed pending runs become cancelled and are counted; the batch is finished exactly when it lost some and none is left pending |
| Recorder.Process.CloseBatch | src/kiroku/recorder/runner.py:207-237 | Commits the popped paths, stamps batch and runs with the sha if there is one, and evaluates policies for a backup |
| Recorder.Process.StampRuns | src/kiroku/recorder/runner.py:222-226 | Every run of the batch carries the sha; when the reaper stamps, runs that have one keep it |
| Recorder.Process.ReapStaleBatches | src/kiroku/recorder/runner.py:285-347 | Reaps exactly the open batches older than the cutoff, each once |
| Recorder.Process.ReapBatch | src/kiroku/recorder/runner.py:310-347 | One reaped batch: commit, finish, fail open runs with their count, stamp |
| Recorder.Process.CommitStaged | src/kiroku/recorder/runner.py:311-318 | Pops the batch's list and commits exactly it |
| Recorder.Process.FailOpenRuns | src/kiroku/recorder/runner.py:328-339 | Fails exactly the open runs and adds their number to `failed` |
| WebRuns.Session.CancelBatch | src/kiroku/web/routes/runs.py:193-210 | The handler's loop ends in the ledger's cancelled state, for any database around the two tables |
| WebRuns.Session.PurgeQueue | src/kiroku/web/routes/runs.py:164-182 | The two loops, per run and per batch, end in the ledger's purged state |
| GitStore.FilePathInjective | src/kiroku/recorder/git_store.py:14-54 | Two named groups share a path for two devices exactly when both slugs agree |
| GitStore.Slugify | src/kiroku/recorder/git_store.py:14-16 | Same length, only kept characters; each character stays or, exactly when it may not, becomes an underscore; the identity on names made of kept ones. Letters and digits beyond ASCII are whichever `isalnum` accepts |
| GitStore.SlugCharacters | src/kiroku/recorder/git_store.py:14-16 | Within ASCII exactly the letters, the digits and "-", "_", "." are kept |
| GitStore.StageStores | src/kiroku/recorder/git_store.py:56-73 | After `stage` the file reads as the given text up to newline translation, and holds it exactly unless the write was skipped over a file with carriage returns |
| GitStore.RestageUnchanged | src/kiroku/recorder/git_store.py:56-73 | Staging the same text again reports no change if and only if it has no carriage return |
| GitStore.StageDirties | src/kiroku/recorder/git_store.py:56-73 | Staging dirties at most its own path, and only when it reports a change |
| GitStore.CommitCleans | src/kiroku/recorder/git_store.py:75-84 | A commit keeps the tree and leaves HEAD holding the text of each of its own paths, whether or not it returns a sha; no other path becomes dirty, but for those an earlier failure left in the index |
| GitStore.CommitSha | src/kiroku/recorder/git_store.py:75-84 | A commit is made exactly when paths are listed and the index with their files differs from HEAD; it becomes HEAD under a number no earlier commit had |
| GitStore.Store.StageFile | src/kiroku/recorder/git_store.py:56-73 | The method against the stage function: new repository, changed flag, digest |
| GitStore.Store.CommitBatch | src/kiroku/recorder/git_store.py:75-84 | The method against the commit function, with no sha when nothing differs from HEAD |
| GitStore.Store.WriteFile | src/kiroku/recorder/git_store.py:218-232 | Stage and commit in one call; no commit when unchanged |
| SearchIndex.CaptureAgrees | src/kiroku/recorder/runner.py:127-176 | After one capture the index row is the text, the device points at the file, and the file equals the row exactly when it was written or had no carriage return; which file that is, `Filing.CaptureInPlace` says |
| SearchIndex.IndexReads | src/kiroku/recorder/runner.py:127-176 | After any list of results with any texts, and one device per path, each captured device is indexed with its last captured text and its file reads the same up to newline translation; it holds exactly that text if and only if the last capture wrote it or skipped a file without carriage returns |
| SearchIndex.IndexAgrees | src/kiroku/recorder/runner.py:127-176 | After any list of results, with one device per path and whatever workers send (CLI outputs or a NETCONF reply, normalised), each captured device is indexed with its last captured text and its file holds exactly that text, provided the files at those paths held no carriage return to begin with |
| SearchIndex.OthersKept | src/kiroku/recorder/runner.py:127-176 | A result that is not captured, or is captured for another device at another path, changes nothing of this device's row, recorded path and file, whatever they were |
| SearchIndex.ClosingEvaluates | src/kiroku/recorder/runner.py:207-237 | When a persist closes a backup batch, each enabled auto-evaluate policy holds a fresh verdict for every device it lists that has a run in the batch: "skip" without a stored text, "error" when it does not parse, else "pass" or "fail" by its checks, with one outcome per check; all other result rows are as before |
| SearchIndex.OtherwiseNotEvaluated | src/kiroku/recorder/runner.py:207-237 | A persist that closes no backup batch leaves every result row alone |
| JobQueue.StepFollows | src/kiroku/queue.py:70-136 | Publish with trimming, read and delete keep the stream well formed with a cursor that only rises |
| JobQueue.DeliveredOnce | src/kiroku/queue.py:98-112 | Over any operations no two reads hand out one message |
| JobQueue.PurgedNeverDelivered | src/kiroku/queue.py:156-200 | A deleted message is never handed out later, however old the snapshot |
| BackPressure.PressureBound | src/kiroku/queue.py:44-67 | The pressure never exceeds the true backlog, so each refusal is justified; it equals it exactly when nothing waits or no message that was read has gone |
| BackPressure.AcceptedBatchFits | src/kiroku/dispatch.py:120-138 | With exact pressure and a ratio of at most 1, an accepted batch stays within the high-water mark amid any reads and deletes, and trimming drops no waiting message |
| BackPressure.LossIff | src/kiroku/queue.py:70-75 | Some history with at most `incoming` publishes and any reads and deletes, trimming no more than it may, drops an undelivered message if and only if `incoming` is at least 1 and waiting plus incoming exceed the stream's limit |
| BackPressure.LossHappens | src/kiroku/queue.py:70-75 | Then the publishes alone, with no read or delete among them, already do |
| BackPressure.AcceptedIff | src/kiroku/dispatch.py:113-138 | The pre-flight check passes if and only if the batch fits below the mark by itself and waiting plus incoming stay within the mark plus the messages that were read and are gone |
| BackPressure.AcceptedMayLose | src/kiroku/dispatch.py:113-138 | So a batch passes and can still lose an undelivered job if and only if it fits by itself and waiting plus incoming exceed the limit but not the mark plus those gone |
| BackPressure.BlindPressureLosesJobs | src/kiroku/queue.py:67-75 | A concrete history of five operations from an empty stream: acknowledged messages hide the backlog, the batch is accepted, and trimming drops an unseen message |
| JobQueue.Channel.ReadJobs | src/kiroku/queue.py:98-112 | Takes the oldest waiting messages, up to the count, and nothing else |
| JobQueue.Channel.Acknowledge | src/kiroku/queue.py:131-136 | Exactly the one message is gone, wherever it was; a message already handed out is gone without touching the waiting ones; cursor and counters stay |
| JobQueue.Channel.PurgeUndelivered | src/kiroku/queue.py:156-200 | Reads the oldest waiting messages up to the limit and returns the runs of those that decode; then, whatever other operations came between, exactly these messages are gone, read or waiting, and the cursor is theirs |
| JobQueue.DeleteSnapshot | src/kiroku/queue.py:156-200 | Undisturbed, that leaves the read messages, the younger waiting ones and the cursor |
| StreamTokens.ReadDelivers | src/kiroku/queue.py:98-112 | A read of a stream is, in the whole system, one delivery for each message it hands out that decodes, and nothing else |
| StreamTokens.PublishAndTrim | src/kiroku/queue.py:70-95 | A publish is the dispatcher's step followed by one loss for each waiting message its trimming drops |
| StreamTokens.PurgeDeletes | src/kiroku/queue.py:156-200 | The delete of a purge is the system's delete step, when of the waiting runs the snapshot lists those of the deleted messages |
| StreamTokens.AckIsSilent | src/kiroku/queue.py:131-136 | Acknowledging a message that was read changes nothing in the system's bag of jobs |
| StreamTokens.HandleIsStep | src/kiroku/worker/runner.py:40-93 | A worker's subprocess, wherever it dies, is one step of the system: a crash before its result is out, else a publish |
| WorkerPool.Handle | src/kiroku/worker/runner.py:40-93 | Wherever the subprocess dies: at most one result, success only if the device run reported it, and the job leaves the stream only after its result is out |
| WorkerPool.Pool.Turn | src/kiroku/worker/runner.py:112-143 | Never more jobs than slots; the jobs taken are the oldest that wait, each new to the pool; a full pool or a failed read takes nothing |
| Dispatch.TargetDevices | src/kiroku/dispatch.py:96-109 | The loops with their `seen` set compute the taken list |
| Dispatch.CandidatesInOrder | src/kiroku/dispatch.py:96-109 | The candidates are each group's devices in order, paired with that group, then the direct devices without one |
| Dispatch.TakenIsFirst | src/kiroku/dispatch.py:96-109 | No device twice, every enabled candidate, each with the first group that targets it |
| Dispatch.FiredIdsMatchScope | src/kiroku/compliance.py:143-156 | The ids fired at are the enabled ones of the compliance scope over the same groups and devices, in the same order |
| Dispatch.PreflightExact | src/kiroku/dispatch.py:113-118 | Per stream, the pre-flight count is the jobs later published there plus the runs without a credential |
| Dispatch.PreflightIsMessages | src/kiroku/dispatch.py:113-118 | The stream a target is counted on is the one its message goes to, by the device's pool, else the group's, else the base stream |
| Dispatch.Session.CheckCapacity | src/kiroku/dispatch.py:113-138 | Refuses if and only if some used stream has too little room |
| Dispatch.CrowdedIsRefused | src/kiroku/dispatch.py:120-138 | With the pressures of the streams, too little room means that the mark refuses what the batch would put on that stream; `BackPressure.AcceptedMayLose` says what then can still go wrong |
| Dispatch.Session.CreateRows | src/kiroku/dispatch.py:140-161 | One pending run per target under a batch with the exact total |
| Dispatch.Session.RefuseAll | src/kiroku/dispatch.py:163-172 | Every run failed, all counted, the batch finished |
| Dispatch.Session.PublishAdmitted | src/kiroku/dispatch.py:174-184 | The publishing loop of an admitted batch: a run is failed, counted and in no message exactly when device, targeting group and system have no credential; any other is pending and in one message, in run order, to the stream of the device's pool, else the group's, else the base stream, with the device's own credential, else the group's, else the default |
| Dispatch.Session.FireJob | src/kiroku/dispatch.py:81-188 | The whole function is the protocol's dispatch over its own targets: refused if and only if some used stream lacks room, and then every run failed and the batch finished; else one run and one message per target as `PublishAdmitted` states. A refusal whose logging raises, as line 130 does as written, leaves no row and no message |
| Compliance.CheckPasses | src/kiroku/compliance.py:73-112 | A check passes if and only if its mode holds of the rows, the empty list included, and a failing check lists exactly the rows that do not satisfy it |
| Compliance.PolicyStatus | src/kiroku/compliance.py:115-140 | The status is "pass", "fail" or "error": error exactly when the text does not parse, pass exactly when it parses and every check that is not `info` holds, fail exactly when some such check does not |
| Compliance.PolicyEvaluation | src/kiroku/compliance.py:115-140 | With the detail: one outcome per check, in order, with its id and severity, "pass" exactly when the check holds, and otherwise the rows that fall short, in order |
| Compliance.ParsedRows | src/kiroku/compliance.py:127-131 | The rows evaluated are the dicts of a parsed list, in order, or the one dict; anything else has none |
| Compliance.ScopedDeviceIds | src/kiroku/compliance.py:143-156 | The scope: groups first, then direct devices, each id once at its first place |
| Compliance.RunPolicyForDevices | src/kiroku/compliance.py:175-200 | One verdict per pair in order, each what a fresh verdict says of its text, `skip` without one |
| Compliance.UpsertComplianceResults | src/kiroku/compliance.py:159-172 | The table after one insert-or-update per result |
| Compliance.UpsertStores | src/kiroku/compliance.py:159-172 | Each listed device of the policy holds its verdict; every other row is untouched |
| Compliance.AutoEvaluate | src/kiroku/recorder/runner.py:240-270 | The loop over policies against the function on the table |
| Compliance.AutoEvaluateFresh | src/kiroku/recorder/runner.py:240-270 | Afterwards exactly the rows of policies that are enabled and evaluate by themselves, for devices they list that are in the batch, hold fresh verdicts, whatever they held before |
| DiffRows.DiffCommits | src/kiroku/recorder/git_store.py:170-216 | The loop over diff lines yields the automaton's rows |
| DiffRows.DiffLine | src/kiroku/recorder/git_store.py:173-215 | One line: its row and the counters after it |
| DiffRows.RowPerLine | src/kiroku/recorder/git_store.py:173-215 | One row per line, in place: a header row is a file or hunk line, word for word; any other row shows its line without end and tag |
| DiffRows.OddHunkLine | src/kiroku/recorder/git_store.py:174-181 | A hunk line whose numbers do not parse leaves the counters alone from the first such number on |
| DiffRows.HeaderKind | src/kiroku/recorder/git_store.py:174-181 | Parsing a generated hunk header gives back the numbers of the hunk's first lines |
| DiffRows.DiffNumbersLines | src/kiroku/recorder/git_store.py:153-216 | The rows that are not headers are the deserved ones, with the right numbers, if and only if no removed line starts with "--" and no added one with "++" |
| DiffRows.DiffTruthful | src/kiroku/recorder/git_store.py:153-216 | Then each row carries the text its numbers name, and replaying the rows alone over the old version rebuilds the new one |
| DiffRows.MaskedLineMisnumbers | src/kiroku/recorder/git_store.py:182-185 | A two-line diff where a removed "--" line is taken for a file line: the next row is misnumbered and the replay keeps a removed line |
| Scheduler.FireDue | src/kiroku/scheduler/runner.py:71-125 | Each schedule object takes its own tick whatever `fire_job` does; the return value sums what the firing schedules queued |
| Scheduler.Schedule.Turn | src/kiroku/scheduler/runner.py:76-123 | One schedule: initialise, wait, skip, find no job, or fire, with the columns each case leaves |
| Scheduler.Schedule.Update | src/kiroku/web/routes/schedules.py:85-108 | An edit drops the stored instant exactly when expression or zone change |
| Scheduler.Schedule.ToggleSkip | src/kiroku/web/routes/schedules.py:127-132 | The button flips the flag and nothing else |
| Scheduler.CacheCoherent | src/kiroku/scheduler/runner.py:71-125 | Over every history of ticks, edits and skips the stored instant is the first one after the schedule was last looked at, and is missing exactly when it was not |
| Scheduler.TickRefreshes | src/kiroku/scheduler/runner.py:71-125 | After a tick on an enabled schedule it is the first instant after that tick |
| Scheduler.ConsumesExactly | src/kiroku/scheduler/runner.py:77-98 | A tick takes the turn if and only if an instant lies after the last look and not after the tick; several coalesce into one |
| Scheduler.EveryInstantCovered | src/kiroku/scheduler/runner.py:71-125 | No instant is lost: some tick takes its turn once a later tick finds the schedule enabled |
| Scheduler.CoveredOnce | src/kiroku/scheduler/runner.py:83-98 | No instant is taken twice while the expression stays |
| Scheduler.SkipTakesOneTurn | src/kiroku/scheduler/runner.py:87-92 | The skip flag stays up until the first turn after it and is down from then on |
| Scheduler.FiresUnlessSkipped | src/kiroku/scheduler/runner.py:87-123 | With a job, every turn fires except the one a pending skip eats; without one none does |
| Scheduler.LastRunIsLastTurn | src/kiroku/scheduler/runner.py:87-123 | `last_run_at` is the time of the last turn taken, skipped and jobless ones included, and untouched while none was |
| Scheduler.QueuedStep | src/kiroku/scheduler/runner.py:100-125 | What a tick counts as queued: for each schedule that is due, not skipped and has a job, the devices of its batch less the failed ones, unless firing raised |
| SearchContext.ExtractContext | src/kiroku/web/routes/search.py:32-77 | Exactly the lines within `context` of a hit, in maximal consecutive blocks, with true numbers, texts and flags, each block with a hit, all hits flagged once; nothing without text or terms, or with a negative `context` |
| SearchContext.HitIs | src/kiroku/web/routes/search.py:43-51 | A hit: the regular expression's word for it, or without one some term that, in lower case, stands at some offset of the line in lower case |
| SearchContext.SplitRuns | src/kiroku/web/routes/search.py:58-66 | Ascending numbers split into runs, consecutive inside and apart, nothing lost or reordered |
| Capture.NormalizeConfig | src/kiroku/worker/scrapli_runner.py:45-57 | The method with its popping loop computes the normal form |
| Capture.LineStageIdempotent | src/kiroku/worker/scrapli_runner.py:53-57 | Normalising lines twice is normalising once |
| Capture.LineStageCanonical | src/kiroku/worker/scrapli_runner.py:53-57 | Two texts normalise equal if and only if their lines agree up to trailing white space and trailing blank lines |
| Capture.NormalizeIdempotent | src/kiroku/worker/scrapli_runner.py:29-57 | The whole function is idempotent on a text if and only if one removal of control sequences leaves none |
| Capture.NoEscapeNoSequence | src/kiroku/worker/scrapli_runner.py:29-29 | Which is so whenever no ESC is left |
| Capture.NestedSequence | src/kiroku/worker/scrapli_runner.py:29-52 | A text in which removing the inner sequence completes an outer one |
| Capture.SequenceIs | src/kiroku/worker/scrapli_runner.py:29-29 | What is measured at the head of a text is a whole control sequence, and no other head of it is one |
| Capture.StripsSequences | src/kiroku/worker/scrapli_runner.py:29-52 | The removal drops a sequence where one begins and keeps a character where none does |
| Capture.OutputLines | src/kiroku/worker/scrapli_runner.py:32-42 | The kept output is the normal form's lines, all of them but an echoed command at the top, and is itself normal |
| Capture.ConfigPieces | src/kiroku/worker/scrapli_runner.py:150-241 | The backed-up text holds every command's output whole, in order, at the offset that the ones before it and their newlines give, with nothing else |
| Capture.OneOutputChanges | src/kiroku/worker/scrapli_runner.py:150-241 | Two captures that differ in what is kept of one command alone give different texts, and the second is staged |
| Capture.ConfigPlain | src/kiroku/worker/scrapli_runner.py:150-241 | The backed-up text of any list of commands contains no carriage return |
| Capture.NormalizePlain | src/kiroku/worker/scrapli_runner.py:45-57 | Nor does any normalised text, such as a NETCONF reply |
| Capture.RecaptureUnchanged | src/kiroku/worker/scrapli_runner.py:45-57 | Capturing alike output again gives the same text, and staging it reports no change |
| Capture.ChangeStaged | src/kiroku/recorder/git_store.py:61-73 | A different captured text is always staged |
| CheckForm.Policy.ApplyForm | src/kiroku/web/routes/compliance.py:62-104 | Known checks named by a row keep their object and take its values, unnamed ones are removed, other rows become new objects in order |
| CheckForm.Policy.ApplyRow | src/kiroku/web/routes/compliance.py:77-98 | One row: skipped when blank, else an existing object rewritten or a new one appended |
| CheckForm.Policy.Remove | src/kiroku/web/routes/compliance.py:100-104 | The removal loop leaves the kept checks in order and the new ones after them |
| CheckForm.KeptIffMentioned | src/kiroku/web/routes/compliance.py:84-104 | A check survives if and only if a filled row names it |
| CheckForm.OutcomeIs | src/kiroku/web/routes/compliance.py:77-104 | What is stored is, for each named check, the last row about it, and the rows that named none |
| CheckForm.StoredShowsRows | src/kiroku/web/routes/compliance.py:91-98 | Every stored check shows one filled row, field by field: the column each field comes from, trimmed or not, and the default for a short column |
| CheckForm.EntryIs | src/kiroku/web/routes/compliance.py:77-90 | A filled row changes the check whose key its id cell spells, if the policy has it, and otherwise makes one |
| CheckForm.FormRoundTrip | src/kiroku/web/routes/compliance.py:62-104 | Loading by `sort_order` returns exactly the filled rows in order if and only if no two of them are about the same check |
| CheckForm.ShownIdRead | src/kiroku/web/routes/compliance.py:81-82 | A key printed in the form is read back as the same key, 0 excepted |
| ImportDevices.Database.ImportCsv | src/kiroku/web/import_devices.py:79-247 | Refuses missing columns; otherwise reports every row and commits the import of all rows or nothing, also when the commit itself raises |
| ImportDevices.Database.ImportRow | src/kiroku/web/import_devices.py:112-231 | One row on the session's objects: an error, a change in place, or a pending new device; `ImportCells.StoredCells` spells out the change |
| ImportDevices.ImportExact | src/kiroku/web/import_devices.py:79-247 | All or nothing, with the exact condition of each outcome: rejected if and only if a row is bad or a name comes twice; else refused by the key of src/kiroku/models/membership.py if and only if each entry is inserted and some row names twice a group its device is not in; else every named device is its row's update or creation, each group once, every other is as before, and the counts are exact |
| ImportCells.StoredCells | src/kiroku/web/import_devices.py:117-215 | After a file that was stored, each row's device, column by column: the hostname is the cell; every other column the cell if it is not blank, else what was stored, for a new device nothing, and `enabled` true; the groups are those it was in, then those the cell names, each once |
| ImportCells.UnnamedAsStored | src/kiroku/web/import_devices.py:117-215 | A device that no row names is as it was, however the import ends |
| ImportCells.CellIs | src/kiroku/web/import_devices.py:67-78 | A cell comes from the last column whose header means the key, up to case and blanks around it, trimmed; a short row has it blank |
| ImportCells.RowAccepted | src/kiroku/web/import_devices.py:117-152 | A row passes exactly when name and hostname are filled, a group is named and all are known, and port, credential, transport, driver and flag are blank or usable |
| ImportCells.RowRefused | src/kiroku/web/import_devices.py:117-152 | A row refused for a reason has that defect |
| ImportCells.ResultsAre | src/kiroku/web/import_devices.py:112-231 | Each row's result: its line, update or creation by whether the device was stored, and as its error a name taken above or its own defect |
| ImportDevices.ImportTwice | src/kiroku/web/import_devices.py:144-231 | Importing a file that was stored once more changes nothing, creates none and updates every row |
| ImportDevices.ImportPermuted | src/kiroku/web/import_devices.py:112-231 | The order of the rows changes neither inventory nor outcome nor counts, good file or bad |
| ImportDevices.LinesPermuted | src/kiroku/web/import_devices.py:112-116 | Reordering a file's lines only reorders its rows |
| ImportDevices.GroupsGrow | src/kiroku/web/import_devices.py:174-178 | No device leaves the inventory or a group, however the import ends; when it is stored, each row's device is in the row's groups |
| ImportDevices.ResultsExact | src/kiroku/web/import_devices.py:112-231 | A row is reported good if and only if its own checks pass and no good row above it has its name |

## Left out

- Redis, PostgreSQL, git and scrapli themselves: streams are their entries and a cursor, tables are maps, git is a working tree, an index, HEAD and a commit counter. In the protocol a stream is a bag of messages; `JobQueue` models one stream with order, ids and trimming, and `StreamTokens` matches its operations with steps on the bag.
- Concurrency inside a handler: each handler is one atomic transaction and there is one recorder process; a dispatch and a purge, whose effects outside the database happen earlier, are split into steps.
- SHA-256 is taken to be collision-free, and commit ids are counters.
- Digits are ASCII; so is the case folding of CSV headers and booleans. Which letters and digits outside ASCII `isalnum` accepts is left open.
- A path given to `index.add` is always in the working tree; the invariant that staged paths exist makes the failing case unreachable.
- Row deletion and its cascades, which break `total` against runs; the RUNNING and TIMEOUT statuses, which no code writes, though the model has them and `CountersMatch` shows them unused.
- Of a job message the stream, the run, the device and the credential are modelled; address, platform, commands and timeouts are not.
- Columns that no property reads: a run's error, start, byte count and parsed data; CVE scan results; credential contents.
- The eventual commit of files staged by a late result, or under a batch closed by cancel or purge, or held across a restart: the code does not guarantee it.
- Staging a file whose text has undecodable bytes (`errors="replace"`).
- Which commit the git view diffs, the author note and the commit message; `read_at`, history and search over history.
- `difflib` is not modelled as an algorithm: `DiffRows` takes any hunk list that leads from one version to the other, each hunk with at least one line, in difflib's own line format.
- croniter and time zones: any function that gives the least instant strictly after a time; an invalid expression, which aborts the tick outside its `try`, is left out.
- The scheduler's advisory lock: whether two schedulers exclude each other is not decided by this code.
- The search's regular expressions and `str.lower` on lines are parameters; HTTP, paging and ranking are left out.
- Parser engines and the operator cases of a single compliance row are parameters of `Compliance`; so is the float coercion.
- The driver calls around a capture, CLI or NETCONF.
- Scheduler.FireDue: a database error inside `fire_job` is swallowed by the tick, but leaves the session unusable, so that the tick's own commit raises and the columns set in this tick are lost; here `fire_job` fails, if it does, without touching the session.
- ImportDevices.Database.ImportCsv: whether the mapper writes one insert for each list entry or for each group is a parameter; the theorems hold for both. CSV quoting, database length limits and device ids are left out; port, transport and driver names are parsed by parameters.
- CheckForm.Policy.ApplyForm: the policy's own columns and its group and device lists, which the handler overwrites, are left out; digits that are not ASCII, on which `int` raises, too.
- The recorder's read loop is the order in which `Lifecycle` takes its persist, raise and reap steps; a result whose handler raised is never acknowledged and never read again.
- Web authentication, templates, credentials storage, OIDC, migrations and logging.
