# CC Switch usage reporting: a verified model

A desktop client reads the request log of CC Switch, folds it into daily buckets, and reports the
buckets that changed to a sidecar, which upserts them into the table `external_usage_daily`. This
project models that path, the scheduler that starts the runs, and two pieces of the ent layer of
the backend, and proves what they keep over all inputs, runs and interleavings. `dafny verify
dfyconfig.toml` checks all of it.

| file | models |
|---|---|
| `Options.dfy`, `Text.dfy` | optional values; decimal rendering, fields joined by a bar, trimming, string order |
| `UsageLog.dfy` | `database.py`: the dictionary fold, the sort, signatures and keys |
| `Sidecar.dfy` | `main.go`: validation, normalisation, the generated statement, the upsert |
| `Client.dfy` | the client's configuration, payloads, the comparison with the state file |
| `Reporter.dfy` | `reporter.py` and `state.py` as classes and methods, each proved equal to a specification function |
| `Protocol.dfy` | reporting as a state machine: append, load, read, send, commit, lost answer, give up, late delivery, mark, save, finish, crash, loss of the state file; its inductive invariant |
| `Exactness.dfy` | the exact condition for skip safety, and runs that break it without that condition |
| `Convergence.dfy` | the methods refine the state machine; progress, acceptance and convergence of a run |
| `Acceptance.dfy` | acceptance and convergence told by the rows of the log and the settings |
| `LateDelivery.dfy` | exactly when a request that arrives late does harm |
| `LockedProcesses.dfy` | any number of processes on one state file |
| `Fleet.dfy` | several machines on one table |
| `Schedule.dfy`, `Scheduler.dfy` | `scheduler.py`: times of day, the next run, the thread and its flags |
| `Wakes.dfy` | exactly what `wake()` does to that thread |
| `EagerLoading.dfy` | `account_query.go`: the edge loaders as index joins over mutable accounts |
| `BulkCreate.dfy` | `account_create.go`: the chained mutators of a bulk create |

## What is promised, and when

The centre is the skip cache. A bucket whose signature equals the stored one is not sent, so a
stored signature must never hide a stale row. The invariant behind this is a sandwich for every
bucket: the value acknowledged under the stored signature is at most the stored row, and the stored
row is at most the current aggregate, all three being prefixes of one growing history (an
acknowledged value that is outdated can hide nothing and may be ahead of its row). It holds in every
state that is reachable by any interleaving of the machine's steps, for every map the state file
ever held, under two conditions, each shown to be exact.

- Requests that arrive late are harmless. The upsert has no version guard;
  `LateDeliveryBreaksSkipSafety` is a run in which a late request leaves a stale row that is skipped.
  `LateDeliveryExactly` says of every state when a delivery does that: exactly if the sidecar takes
  the chunk and one of its valid buckets has since been reported, or is about to be marked, with a newer
  value. `LateHistoriesExactly` says it of whole histories. `SkipSafety` and what follows from it are
  stated for histories whose late deliveries are harmless, as all are whose deliveries come in order
  of the values they carry (`OnTimeHistoryIsHarmless`).
- No two buckets of the log share a slot of the state file or a row of the table.
  `SkipSafetyExactly` shows that this is not only sufficient but necessary, and
  `WellFormedLogsAreSeparate` that logs with plain names meet it.

Whether a run brings the table in step with the log depends, once late deliveries were harmless, on
the log and the settings alone: `EveryHistoryConverges` gives a sufficient condition after such a
history, `LostStateConvergesExactly` shows that no weaker one will do, and
`WellFormedHistoryConverges` that for logs as CC Switch writes them only the settings are left to
check. After a harmful delivery a run with the old state file leaves the stale row as long as its
bucket does not grow; deleting the state file is the recovery, after any history whatever over a log
without clashes (`RecoveryExactly`). Several machines may
share a table; `SourcesExactly` shows that they leave each other alone if and only if no two share a
user and a source, which is why the documentation asks for distinct sources
(`cc_usage_reporter/README.md:92-96`).

What the code does where its own comments suggest otherwise:

- `database.py:22` says that the request model falls back to the model. In the query at
  `database.py:93-94` the fallback is the raw column, so an empty model gives the model `unknown` and
  an empty request model (`RequestModelFallsBackExactly`); the sidecar then falls back once more.
- A missing application and the application `unknown` are two buckets of the dictionary
  (`database.py:120`) with one state key and one row (`MissingAppClashes`); a bar inside a model name
  can make two state keys equal (`BarInModelClashes`).
- The state file's comments call the upsert idempotent. A replayed batch is (`ReplayIsNoOp`); a
  delayed one is not harmless.
- One bucket that the sidecar rejects stops every later chunk of every later run
  (`InvalidBucketBlocks`).
- `wake()` (`scheduler.py:84-85`), which nothing in the repository calls, can make the thread run its
  slot early exactly if it comes before the end of a wait that ends before the slot
  (`WakeRunsEarlyExactly`): the wait clears the flag itself, so the thread goes on to `run_once` and
  not into the branch at `scheduler.py:159-161`. Such a slot can run again when it comes, exactly if it
  was planned more than 30 seconds ahead (`RunsTwiceExactly`). The branch can be taken exactly if
  the wake comes outside the wait and the test after it (`WakePassesExactly`), and the slot it settles
  is lost for good exactly if it has come (`WakeLosesSlotExactly`). A wake that comes before a slot is
  planned stays pending until one is, unless the test after a pause clears it first
  (`WakeBeforePlanExactly`, `WakeStaysPending`).
- `start()` while the old thread is still ending does nothing (`StartWhileAlive`,
  `StartLeavesEndingThreadExactly`).
- `AccountCreateBulk.Save` ignores the error of `defaults()`; the missing field is then found by the
  check: an account that passes it has all its required fields, and none of its defaults was needed
  and missing (`AcceptedAccountIsComplete`).

Assumptions of the model: the log is append-only and the filters are fixed; one state file serves
one fixed user and sidecar, as the state key (`reporter.py:77`) holds neither; the clock never goes
back; a signature determines the counters it is computed from; costs are exact integers of
micro-dollars; a statement that would touch a row twice, or has more than 65535 parameters, or a
count beyond its INTEGER column, fails without effect.

## Model

| member | source | states |
|---|---|---|
| UsageLog.ReadDailyModelUsage | cc_usage_reporter/cc_usage_reporter/database.py:109-151 | The dictionary loop yields, for each key in the order first seen, the total of exactly the qualifying rows of that key, sorted by date, application and model |
| UsageLog.RowsOfExactly | cc_usage_reporter/cc_usage_reporter/database.py:76-120 | A row counts for a key, as often as it is in the log, exactly if it has a timestamp, its application is among the configured ones if there are any, its status is between 200 and 299 if only successes are wanted, and the key is the row's |
| UsageLog.KeyOfExactly | cc_usage_reporter/cc_usage_reporter/database.py:89-120 | The key of a row, column by column: UTC day, application as it is, model or unknown, request model or raw model |
| UsageLog.IdOfExactly | cc_usage_reporter/cc_usage_reporter/database.py:123-127 | A finished bucket carries the fields of its key, with unknown for a missing or empty application |
| UsageLog.TotalCounts | cc_usage_reporter/cc_usage_reporter/database.py:138-145 | The request count is the number of rows, the success count that of rows with a status between 200 and 299, and the cost the sum of the rows' costs |
| UsageLog.SortLeExactly | cc_usage_reporter/cc_usage_reporter/database.py:147 | The order is by day, then application, then model |
| Text.TextLeExactly | cc_usage_reporter/cc_usage_reporter/database.py:147 | Names are ordered by the first character in which they differ, a prefix first |
| UsageLog.BucketsContents | cc_usage_reporter/cc_usage_reporter/database.py:109-147 | A bucket is in the result exactly when it is the total of the rows of some key that occurs; there are as many buckets as keys |
| UsageLog.Conservation | cc_usage_reporter/cc_usage_reporter/database.py:138-145 | The counters and the cost over all buckets sum to those of all qualifying rows |
| UsageLog.AppendHomomorphism | cc_usage_reporter/cc_usage_reporter/database.py:110-145 | The aggregate of a log and its continuation is the sum of the two aggregates, key by key |
| UsageLog.RowOrderIrrelevant | cc_usage_reporter/cc_usage_reporter/database.py:109-147 | The multiset of buckets does not depend on the order of the rows |
| UsageLog.SortedIsStableSort | cc_usage_reporter/cc_usage_reporter/database.py:147 | The output is in order of date, application and model, and buckets that tie keep their order, so it is the stable permutation |
| UsageLog.SignatureText | cc_usage_reporter/cc_usage_reporter/reporter.py:14-20 | The text that is signed: the seven counters in the source's order |
| UsageLog.SignatureInjective | cc_usage_reporter/cc_usage_reporter/reporter.py:14-20 | The text that is signed determines all seven counters |
| UsageLog.SignatureTracksGrowth | cc_usage_reporter/cc_usage_reporter/reporter.py:14-20 | A bucket's signature changes exactly when a qualifying row of its key was appended, and then the request count has grown, so it never returns |
| UsageLog.RequestModelFallsBackExactly | cc_usage_reporter/cc_usage_reporter/database.py:93-94 | A row without a request model is counted under its model's name exactly if its raw model is not empty |
| UsageLog.StateKeyText | cc_usage_reporter/cc_usage_reporter/database.py:150 | The state key: source, day, application, model and request model in this order, None for a missing request model |
| UsageLog.StateKeyInjective | cc_usage_reporter/cc_usage_reporter/reporter.py:74-78 | Whenever source, application and model have no bar, two state keys are equal exactly when source, day, application, model and the request model as printed are; a missing request model prints as the text None |
| Sidecar.AcceptableExactly | sidecar/main.go:364-402 | An item normalises exactly when it has a model and consistent non-negative counts; the row it gives |
| Sidecar.RejectedExactly | sidecar/main.go:364-378 | The reasons for which an item is rejected, and no others |
| Sidecar.NormalizedExactly | sidecar/main.go:379-408 | The row of an item, column by column: names trimmed, unknown for a blank application, the model for a blank request model, no negative cost |
| Sidecar.NewConfigExactly | sidecar/main.go:231-240 | The allow list holds the configured names, trimmed, without blank ones |
| Sidecar.ColumnOrder | sidecar/main.go:426-447 | The arguments of a row come in the order of the columns the statement names |
| Sidecar.NormalizeAll | sidecar/main.go:294-303 | The loop keeps the normalised rows in order and counts the others as rejected |
| Sidecar.PlaceholderLayout | sidecar/main.go:416-441 | Binding the arguments to the generated tuples gives back exactly the rows; column j of row i is parameter 13i+j+1, each used once |
| Sidecar.Server.UpsertBatch | sidecar/main.go:411-463 | The loops build a statement whose execution stores all rows, or changes nothing and reports failure |
| Sidecar.Server.HandleReport | sidecar/main.go:252-314 | The response and the new table are those of the specification `Serve` for every report, with each refusal in the source's order |
| Sidecar.AnswerExactly | sidecar/main.go:264-314 | The answer to every report, cause by cause, with the exact numbers accepted and rejected |
| Sidecar.SourcesListedExactly | sidecar/main.go:279-286 | A report from a source that is not listed is refused and stores nothing; a listed source, or an empty list, is never a reason to refuse one |
| Text.TrimDropsSpaces | sidecar/main.go:365-383 | Trimming drops white space at both ends and nothing else |
| Text.TrimIs | sidecar/main.go:365-383 | What is left is the only part of the text of which that can be said |
| Sidecar.FullyAcceptedExactly | sidecar/main.go:264-314 | When, and only when, a decoded report is accepted completely: the exact conditions on the request, the items and their keys |
| Sidecar.ExecutableExactly | sidecar/main.go:416-458 | The statement runs exactly when there are at most 5041 rows, the counts fit, and no two items normalise to one key |
| Sidecar.StoredExactly | sidecar/main.go:294-313 | A refused report leaves the table as it was, whatever the reason; after an accepted one the row of every valid item holds that item's value and every other row is unchanged |
| Sidecar.RejectedItemIsMissing | sidecar/main.go:296-303 | One invalid item makes the accepted count fall short of the number sent |
| Sidecar.LastDeliveryWins | sidecar/main.go:449-458 | After any sequence of batches, with refused ones, duplicates and retries, each row is the last stored value of its key |
| Sidecar.ReplayIsNoOp | sidecar/main.go:449-458 | Storing a batch again at once changes nothing |
| Sidecar.DisjointBatchesCommute | sidecar/main.go:449-458 | Batches without a common key may be stored in either order |
| Client.PendingContents | cc_usage_reporter/cc_usage_reporter/reporter.py:72-80 | A bucket is pending exactly when its slot does not hold its signature |
| Client.ServedEntries | sidecar/main.go:294-313 | Whatever the response, a row is as before or holds the value of some bucket of the chunk with that key |
| Client.AcceptedEntries | cc_usage_reporter/cc_usage_reporter/reporter.py:116-123 | After a fully accepted chunk every one of its buckets is stored with its value |
| Reporter.Compare | cc_usage_reporter/cc_usage_reporter/reporter.py:71-80 | The loop computes the pending buckets in order and the signatures of all buckets |
| Reporter.MarkChunk | cc_usage_reporter/cc_usage_reporter/reporter.py:127-130 | The loop marks exactly the slots of the chunk |
| Reporter.SendPending | cc_usage_reporter/cc_usage_reporter/reporter.py:113-131 | The sending loop ends in the memory, file, table, counts and outcome of the specification `SendAll`, for every behaviour of the network |
| Reporter.RunLocked | cc_usage_reporter/cc_usage_reporter/reporter.py:56-136 | A whole run ends in the state and the summary of `RunSpec`, for dry runs, empty runs, every batch size and every failure; a dry run sends, marks and saves nothing |
| Reporter.RunsThatSendNothing | cc_usage_reporter/cc_usage_reporter/reporter.py:87-113 | A dry run leaves everything as it is; a run without pending buckets still writes the state file; a batch size of zero is an error, a negative one makes no chunk |
| Reporter.Run | cc_usage_reporter/cc_usage_reporter/reporter.py:44-53 | The state file is read again before the run, so the run starts from what is on disk, or from what was read before if that cannot be read |
| Protocol.StepKeepsInv | cc_usage_reporter/cc_usage_reporter/reporter.py:56-136 | Every step of the machine keeps the sandwich invariant over a log without clashes, if a late delivery is on time |
| LateDelivery.HarmlessStepKeepsInv | cc_usage_reporter/cc_usage_reporter/reporter.py:56-136 | The same if a late delivery is harmless |
| Protocol.TroubleIsAlwaysPossible | cc_usage_reporter/cc_usage_reporter/state.py:25-41 | In every state requests can be logged, the state file lost or replaced by any it ever was, a request given up on can arrive, and a run can end |
| LateDelivery.SkipSafety | cc_usage_reporter/cc_usage_reporter/reporter.py:71-82 | After any history whose late deliveries were harmless, over a log without clashes: for the map in memory and every map ever saved, a slot that holds the signature of the current aggregate has that aggregate as its row |
| LateDelivery.StaleStateFilesStaySound | cc_usage_reporter/cc_usage_reporter/state.py:25-41 | In such a history a map saved at any time is still skip safe at the end, so an old, empty or corrupt file only causes re-sends |
| Exactness.SkipSafetyExactly | cc_usage_reporter/cc_usage_reporter/reporter.py:74-80 | All runs with harmless late deliveries over logs with a given set of bucket keys are skip safe if and only if no two of the keys clash |
| Exactness.SlotClashHidesBucket | cc_usage_reporter/cc_usage_reporter/reporter.py:77-80 | Two buckets that share a slot: a run after which one of them counts as reported while its row is missing |
| Exactness.RowClashOverwrites | sidecar/main.go:379-386 | Two buckets that share a row: a run after which the row holds the value of the other one |
| Exactness.LateDeliveryBreaksSkipSafety | sidecar/main.go:449-458 | Without a version guard a late request leaves a stale row that is skipped |
| LateDelivery.LateDeliveryExactly | sidecar/main.go:449-458 | In any state of the invariant, the state after a late delivery is secure (skip safe, also once an acknowledged chunk has been marked) if and only if the chunk is turned away or none of its valid buckets has been reported with a newer value, both of which can be told before |
| LateDelivery.LateHistoriesExactly | sidecar/main.go:449-458 | Over a log without clashes a history is secure from start to end if and only if every late delivery in it is harmless when it happens |
| LateDelivery.OnTimeHistoryIsHarmless | sidecar/main.go:449-458 | A history whose late requests carry no older value than their rows is one whose late deliveries are harmless |
| LateDelivery.TurnedAwayWhen | sidecar/main.go:252-314 | A chunk is turned away exactly when the request is refused, no bucket is valid, or the rows of the valid ones cannot be stored in one statement |
| LateDelivery.LateAfterConvergence | sidecar/main.go:449-458 | When nothing is pending, a late delivery is harmless if and only if the chunk is turned away or all its valid buckets are still current |
| LateDelivery.ValidBucketStored | sidecar/main.go:294-313 | Every valid bucket of a chunk that is not turned away is in its row afterwards, whatever the table held |
| Exactness.WellFormedLogsAreSeparate | cc_usage_reporter/cc_usage_reporter/database.py:119-150 | Logs with plain names and a source without a bar have no clashing buckets and none without a model |
| Exactness.BarInModelClashes | cc_usage_reporter/cc_usage_reporter/database.py:150 | A bar inside a model name makes two different buckets share a slot |
| Exactness.MissingAppClashes | cc_usage_reporter/cc_usage_reporter/database.py:120-125 | A missing application clashes with the application called unknown |
| Convergence.ChunksCover | cc_usage_reporter/cc_usage_reporter/reporter.py:113-114 | The chunks put together are the pending list; each has 1 to batch_size buckets and only the last may be short |
| Convergence.PrefixProgress | cc_usage_reporter/cc_usage_reporter/reporter.py:113-134 | However a run ends, it has marked and saved exactly the buckets of its completed chunks; what is pending afterwards is exactly the remaining suffix in the same order; the counts are exact |
| Convergence.InvalidBucketBlocks | cc_usage_reporter/cc_usage_reporter/reporter.py:119-123 | A pending bucket the sidecar cannot store makes every run fail before it |
| Convergence.RunRefinesProtocol | cc_usage_reporter/cc_usage_reporter/reporter.py:44-136 | Every run of the methods is a history of the state machine with the same file and table |
| Acceptance.BucketFitsExactly | sidecar/main.go:364-402 | The bucket of a key passes validation and fits the columns exactly when the model is not blank, each token column adds up to at least zero and the rows can be counted by an INTEGER |
| Acceptance.ChunkAcceptedExactly | cc_usage_reporter/cc_usage_reporter/reporter.py:116-123 | Distinct buckets of one log are accepted as a whole if and only if the sidecar takes chunks of that size and the rows behind each bucket can be sent |
| Acceptance.WellFormedChunkAccepted | cc_usage_reporter/cc_usage_reporter/reporter.py:116-123 | Every chunk built from well-formed rows is accepted as a whole, so the partial-failure branch is not taken |
| Convergence.ConvergesExactly | cc_usage_reporter/cc_usage_reporter/reporter.py:56-136 | From any state of the invariant, a run without network errors leaves the rows exactly the aggregate of the log, none missing, stale or extra, with nothing pending, if and only if the pending buckets are reportable |
| Acceptance.EveryHistoryConverges | cc_usage_reporter/cc_usage_reporter/reporter.py:56-136 | After any history whose late deliveries were harmless, over a log without clashes that suits the settings, one clean run brings the table in step with the log and the next run sends nothing |
| Acceptance.RecoveryExactly | cc_usage_reporter/cc_usage_reporter/reporter.py:56-136 | After any history whatever, harmful late deliveries included, over a log without clashes: a clean run without the state file converges if and only if the log suits the settings |
| Acceptance.LostStateConvergesExactly | cc_usage_reporter/cc_usage_reporter/reporter.py:56-136 | Without a state file a clean run converges if and only if the log suits the settings: no weaker condition on log, client and sidecar will do |
| Acceptance.WellFormedHistoryConverges | cc_usage_reporter/cc_usage_reporter/reporter.py:56-136 | After any history whose late deliveries were harmless, over well-formed rows and with settings the sidecar takes, one clean run converges |
| LockedProcesses.LockSerialises | cc_usage_reporter/cc_usage_reporter/reporter.py:50-53 | Any interleaving of any number of processes is a serial history of one process with the same state, only one of them is ever inside, and if its late deliveries are harmless so are those of the serial history |
| LockedProcesses.SharedSkipSafety | cc_usage_reporter/cc_usage_reporter/state.py:58-89 | With several processes, over a log without clashes and if late deliveries are harmless, every map any of them holds or has saved is skip safe |
| LockedProcesses.SaveOnlyAdds | cc_usage_reporter/cc_usage_reporter/reporter.py:50-53 | Because of the reload under the lock, a save erases no mark another process has saved and changes only slots of its own chunk |
| Fleet.NonInterference | sidecar/main.go:443-458 | With pairwise distinct sources each machine's rows are those of the same machine running alone, for every interleaving |
| Fleet.SourcesExactly | sidecar/main.go:443-458 | For machines that can report at all: each is as if alone in every interleaving if and only if no two share a user and a source |
| Fleet.ReportedIsSettled | sidecar/main.go:443-458 | A machine whose own late deliveries were harmless, over a log without clashes and with buckets of non-negative cost, and with nothing pending against its state file, has the aggregate of its log as its rows, whatever the other machines do |
| Fleet.UserTotal | sidecar/main.go:443-458 | When every machine is such a machine, a user's rows sum to the usage in the logs of that user's machines |
| Fleet.SharedSourceOverwrites | sidecar/main.go:449-458 | Two machines with one source: a row that misses requests and is skipped |
| Schedule.AcceptsExactly | cc_usage_reporter/cc_usage_reporter/scheduler.py:35-40 | A time is accepted exactly when it is an hour below 24 and a minute below 60, each with or without a leading zero, joined by a colon |
| Schedule.WrittenClock | cc_usage_reporter/cc_usage_reporter/scheduler.py:48-49 | Splitting and reading an accepted time gives back its hour and minute |
| Schedule.JoinSplit | cc_usage_reporter/cc_usage_reporter/scheduler.py:29-48 | Splitting is the inverse of joining, and no part holds the separator |
| Schedule.ParseScheduleTimes | cc_usage_reporter/cc_usage_reporter/scheduler.py:23-41 | The result is all non-blank trimmed items if there are some and all are accepted; otherwise the error of the empty schedule or of the first item that is not |
| Schedule.NonBlankConcat | cc_usage_reporter/cc_usage_reporter/scheduler.py:26-29 | Items are kept one by one, in order |
| Schedule.NonBlankOne | cc_usage_reporter/cc_usage_reporter/scheduler.py:26-29 | An item of white space is dropped, any other is trimmed |
| Schedule.TwoTimesOnALine | cc_usage_reporter/cc_usage_reporter/scheduler.py:29-41 | Two accepted times separated by a comma and a space are both found |
| Schedule.DefaultSchedule | cc_usage_reporter/cc_usage_reporter/scheduler.py:13-25 | A missing setting gives 10:00 and 18:00 |
| Schedule.IntOfDigits | cc_usage_reporter/cc_usage_reporter/scheduler.py:48 | Reading a number, with or without a sign |
| Schedule.GroupedDigits | cc_usage_reporter/cc_usage_reporter/scheduler.py:48 | A single underscore may group the digits of a number |
| Schedule.NotGrouped | cc_usage_reporter/cc_usage_reporter/scheduler.py:48 | An empty text, an underscore at an end or two in a row make it no number |
| Schedule.ClockOfExactly | cc_usage_reporter/cc_usage_reporter/scheduler.py:48-49 | A time of day is read exactly from two numbers in range with one colon between them |
| Schedule.ParsedTimesAreReadable | cc_usage_reporter/cc_usage_reporter/scheduler.py:44-53 | A schedule that was accepted never makes compute_next_run fail |
| Schedule.ComputeNextRun | cc_usage_reporter/cc_usage_reporter/scheduler.py:44-53 | It fails exactly on an empty or unreadable schedule; otherwise the result is the least instant strictly after now whose time of day is scheduled |
| Schedule.NextWithinADay | cc_usage_reporter/cc_usage_reporter/scheduler.py:44-53 | The next run is unique and at most 24 hours away |
| Scheduler.NoRunIsEarly | cc_usage_reporter/cc_usage_reporter/scheduler.py:148-163 | In every history a run starts before its slot only if a wake ended the wait; without wake() never |
| Scheduler.FiresInOrder | cc_usage_reporter/cc_usage_reporter/scheduler.py:119-163 | In every history what is planned after a run lies after that run's start, so a slot not run early is not run again |
| Scheduler.SameSlotExactly | cc_usage_reporter/cc_usage_reporter/scheduler.py:44-53 | With one schedule a slot is planned again exactly when the later computation still came before it |
| Scheduler.QuietRuns | cc_usage_reporter/cc_usage_reporter/scheduler.py:119-163 | Without wake(): the slots run strictly increase, a thread runs every slot it plans before planning another, and skipped slots had passed at that time |
| Scheduler.PlansFollowTheConfiguration | cc_usage_reporter/cc_usage_reporter/scheduler.py:120-146 | In every history the times of every plan are those of a schedule that was loaded with the switch on |
| Scheduler.SwitchedOffNeverRuns | cc_usage_reporter/cc_usage_reporter/scheduler.py:130-134 | A history in which the switch is never on makes no plan and starts no run |
| Scheduler.UnusableConfigurationRests | cc_usage_reporter/cc_usage_reporter/scheduler.py:121-143 | A thread does not load the configuration again within 10 s when switched off, and 30 s when it cannot be read or its times cannot |
| Scheduler.DueSlotRuns | cc_usage_reporter/cc_usage_reporter/scheduler.py:148-163 | Once the slot has come the thread's own steps, without waiting, lead into the run |
| Scheduler.StopEndsLoop | cc_usage_reporter/cc_usage_reporter/scheduler.py:80-82 | After stop() begins, at any point, the thread takes at most six more steps and starts at most one more run, and that only between its last two tests |
| Scheduler.StopSetsBothFlags | cc_usage_reporter/cc_usage_reporter/scheduler.py:80-82 | stop() sets the flag that ends the loop and the one that ends its wait |
| Scheduler.StoppingThreadMoves | cc_usage_reporter/cc_usage_reporter/scheduler.py:119-173 | Until it has ended, a stopped thread always has a step to take |
| Scheduler.StartWhileAlive | cc_usage_reporter/cc_usage_reporter/scheduler.py:72-78 | start() before the stopped thread has ended neither saves nor replaces it |
| Scheduler.StartLeavesEndingThreadExactly | cc_usage_reporter/cc_usage_reporter/scheduler.py:72-78 | After start() the thread is bound to end within six steps if and only if the old one was told to stop and had not ended; otherwise it can go on without end |
| Wakes.WakeRunsEarlyExactly | cc_usage_reporter/cc_usage_reporter/scheduler.py:148-173 | From any point of the loop with a slot still to be decided and the flag clear, some undisturbed continuation after wake() runs the slot early if and only if the thread is in, or can enter, a wait that ends before the slot |
| Wakes.PendingRunsEarlyExactly | cc_usage_reporter/cc_usage_reporter/scheduler.py:148-173 | The same for a wake that is pending already, however long |
| Wakes.WakeBeforePlanExactly | cc_usage_reporter/cc_usage_reporter/scheduler.py:145-163 | A wake that comes before the slot is planned is pending when it is; the slot can then be run early if and only if it is more than 30 seconds away, and can be passed over |
| Wakes.RunsTwiceExactly | cc_usage_reporter/cc_usage_reporter/scheduler.py:119-173 | A thread about to plan a slot has some continuation, of any events, that runs the slot twice if and only if the slot is more than 30 seconds away |
| Wakes.WakeRunsSlotTwice | cc_usage_reporter/cc_usage_reporter/scheduler.py:165-173 | The history in which a slot more than 30 seconds away is run early and again when it comes |
| Wakes.WakePassesExactly | cc_usage_reporter/cc_usage_reporter/scheduler.py:148-161 | From any such point, some undisturbed continuation after wake() passes the slot over if and only if the thread is outside the wait and the test after it |
| Wakes.PendingPassesExactly | cc_usage_reporter/cc_usage_reporter/scheduler.py:148-161 | The same for a wake that is pending already |
| Wakes.WakeLosesSlotExactly | cc_usage_reporter/cc_usage_reporter/scheduler.py:159-161 | A slot settled without a run by a wake at the last test is never planned again if and only if it has come |
| Wakes.WakeStaysPending | cc_usage_reporter/cc_usage_reporter/scheduler.py:119-173 | With no slot planned a wake stays set, but for the two steps that clear it |
| Wakes.PauseEnds | cc_usage_reporter/cc_usage_reporter/scheduler.py:126-143 | The test after a pause clears a wake; the pause after an unreadable file has no such test |
| Wakes.WakeAndConfiguration | cc_usage_reporter/cc_usage_reporter/scheduler.py:121-134 | A wake outlives a configuration that cannot be read, and not a switch that is off |
| EagerLoading.LoadGroups | sub2api/backend/ent/account_query.go:542-602 | The edges are the nested-loop join up to the first group in trouble, and the outcome is that trouble; a failed query leaves the edges empty; the other edges are untouched |
| EagerLoading.TroubleExactly | sub2api/backend/ent/account_query.go:592-599 | A group is unexpected exactly if no row had it, and follows a nil pointer exactly if one of its rows names an account not asked for |
| EagerLoading.FoundInOrder | sub2api/backend/ent/account_query.go:576-585 | The groups are in the order of the rows |
| EagerLoading.JoinedInOrder | sub2api/backend/ent/account_query.go:592-599 | An account's groups are in the order in which they were returned |
| EagerLoading.EveryJoinedGroupOnce | sub2api/backend/ent/account_query.go:576-601 | For rows keyed inside the requested ids no error occurs, and each account has each joined group exactly once and no other |
| EagerLoading.LoadProxy | sub2api/backend/ent/account_query.go:603-634 | Every account with a foreign key points to the last returned proxy of that id, or stays as it was; the outcome is a failed query or names the first id not asked for |
| EagerLoading.EveryProxyFound | sub2api/backend/ent/account_query.go:620-632 | For distinct proxies keyed inside the requested ids no error occurs and an account points to a proxy exactly when it was returned and its key says so |
| EagerLoading.KeysExactly | sub2api/backend/ent/account_query.go:604-615 | The ids asked for are exactly the foreign keys present, each once |
| EagerLoading.LoadUsageLogs | sub2api/backend/ent/account_query.go:635-664 | The children are the nested-loop join up to the first child of an unknown parent, whose key is the outcome; a failed query leaves them empty |
| EagerLoading.EveryChildLands | sub2api/backend/ent/account_query.go:654-662 | For children keyed inside the requested ids no error occurs and each lands on exactly its parent, in order |
| EagerLoading.ChildrenExactly | sub2api/backend/ent/account_query.go:654-662 | A parent gets each of its children as often as it was returned and nobody else's |
| EagerLoading.ChildrenInOrder | sub2api/backend/ent/account_query.go:655-662 | And in the order in which they were returned |
| EagerLoading.LoadEdges | sub2api/backend/ent/account_query.go:509-539 | The loaders in turn end with the outcome of the first that fails, and without a failure every edge is its join |
| BulkCreate.AcceptedExactly | sub2api/backend/ent/account_create.go:465-588 | A builder passes its check exactly when every required field is set or has a default that is reached, and every value is valid; the defaults need not all have values |
| BulkCreate.ReachedExactly | sub2api/backend/ent/account_create.go:465-519 | Setting the defaults stops exactly at the first one that has no value and whose field neither the caller nor an earlier default set |
| BulkCreate.MissingDefaultRejected | sub2api/backend/ent/account_create.go:521-588 | A needed default without a value makes the check fail if its field is required |
| BulkCreate.AccountDefaultsExactly | sub2api/backend/ent/account_create.go:465-519 | Four defaults come from generators that may be missing, the other six are constants |
| BulkCreate.AcceptedAccountIsComplete | sub2api/backend/ent/account_create.go:465-588 | An account that passes its check has all thirteen required fields, and none of its ten defaults was needed and missing |
| BulkCreate.AccountPassesExactly | sub2api/backend/ent/account_create.go:521-588 | An account passes its check exactly if its thirteen required fields are there and name, platform, type, status and, if set, session_window_status satisfy their validators |
| BulkCreate.CheckExactly | sub2api/backend/ent/account_create.go:521-588 | The error is that of the first broken rule: missing, or refused by its validator |
| BulkCreate.ChainExactly | sub2api/backend/ent/account_create.go:1930-1955 | The statement is made exactly when all checks pass; otherwise the error is that of the first failing builder |
| BulkCreate.Mutate | sub2api/backend/ent/account_create.go:1930-1963 | The recursive chain from builder i: one statement with the rows in order or none, and after it all builders from i on are done with their nodes or none is touched |
| BulkCreate.Save | sub2api/backend/ent/account_create.go:1919-1976 | The statement is made exactly once if there is a builder and all checks pass, otherwise never; either all builders are done and their nodes carry values and ids, or none is and the error is returned |

## Left out

- HTTP, TLS, JSON transport, login and the bearer token: a batch is a message that is answered, answered without the answer arriving, or not delivered.
- The text of the generated statement: placeholders are their numbers, and the database's reading of a tuple is a function.
- `ResolveUserID`: the user of a report is a parameter, absent where the query finds none.
- The client's date text: a day number stands for it, as rendering and parsing a date are library code. Years before 1000 and the sidecar's date check for texts that are not dates are therefore not covered.
- SHA-1 and its truncation to 16 digits: a signature is the text that is hashed, which assumes that no two different texts of a run collide.
- Floating-point cost: integer micro-dollars; rounding to six and formatting to ten decimals are not modelled.
- Sidecar.FullyAcceptedExactly: does not model the limit of 16 MiB on a request's body (`sidecar/main.go:260`), because a report is modelled decoded, nor texts the database refuses (NUL characters, names too long for the index), because the engine is not part of the model.
- Acceptance.ChunkAcceptedExactly: leaves out the same limits.
- Acceptance.WellFormedChunkAccepted: leaves out the same limits.
- Acceptance.EveryHistoryConverges: leaves out the same limits.
- Acceptance.WellFormedHistoryConverges: leaves out the same limits.
- Acceptance.LostStateConvergesExactly: leaves out the same limits.
- Acceptance.RecoveryExactly: leaves out the same limits.
- Convergence.ConvergesExactly: leaves out the same limits.
- BIGINT and NUMERIC limits of the columns and the 64-bit range of JSON numbers; the INTEGER columns are modelled.
- SQLite's `immutable=1`: a read of the log is one consistent snapshot.
- `last_max_created_at` and `since_epoch`: the run always reads the full log, and nothing reads the watermark.
- State files with unusual JSON shapes or undecodable bytes: a file is unreadable, or holds a bucket map.
- Python's `strip` and Go's `TrimSpace` share one definition of white space, Go's; Python also strips four control characters.
- Digits beyond ASCII in times of day, calendar limits (year 9999), and the limit on the length of integer texts.
- Log messages, the configuration errors `run_once` catches, and its lock against manual runs.
- The scheduler's controlling thread is one thread: stop() and wake() come at any point of the loop, but a stop() and a start() by different threads do not overlap.
- `Event.wait` is a step that ends when the flag is set or at any time after its deadline; how late a thread is woken is not bounded.
- EagerLoading.LoadGroups: says nothing about the edges after a nil pointer is followed, because the map's iteration order decides them.
- EagerLoading: groups, proxies and children are values, so that two accounts share one object is not captured; `loadAccountGroups` is the loop of `loadUsageLogs` on another field.
- BulkCreate.Save: hooks are the identity, as their code is not part of the repository's logic; field values are texts, and the validators and the values of defaults are parameters.
- Fleet.UserTotal: is stated for buckets of non-negative cost, because the sidecar stores a negative one as zero.
- The state file is replaced in one step, and the batch insert fails as a whole: both are taken from the file system and the database.
- The choice of columns in the loaders' queries: the key columns are always read.
- `backend_patch`, the rest of the ent layer, the GUI, packaging and the audit script: they repeat the members above or are single lookups.
