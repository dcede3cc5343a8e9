# easy-transcoder: a verified model of the task orchestration core

easy-transcoder is a small web service that re-encodes video files with ffmpeg.
A user submits a file (or a directory, in a batch) together with a named encoding
profile. The processor queues a task for each file and runs the encoder on a
temporary copy, following its progress through a `-progress` socket. The task
then waits for the user's resolution: keep the original, or replace it with the
transcoded file.

This project models that core in Dafny and proves its behaviour:

- `Tasks` (task.go): the task record and its status machine. The `Mark*` transitions set
  the status whatever it was before. `replacing` is added, because resolve.go uses it.
- `Queue` (queue.go, process.go): the first registry. It is a slice of task values with an id
  counter, a worker that claims the first pending task, `updateTask`, and `processTask` split
  at the points where cancellations and progress reports can interleave.
- `Engine` (processor.go, task_state.go, the state changes of resolve.go): the second
  registry. It is a map of shared task records with a `cancelled` flag, an id counter, and a
  channel of capacity 100. It also holds the snapshot queries and the synchronous and
  background halves of `ResolveTask`.
- `Progress` (ffmpeg.go, process.go): the progress-text parser, the listener's read loop, and
  `probeDuration`.
- `Resolve` (resolve.go): `replaceFile` and `resolveTask` over a filesystem modelled as a map
  from path to file (bytes and mode). Each system call's possible failure is a parameter.
- `Config`, `Transcoding`, `LegacyProfile`: configuration lookup and validation,
  codec-filter matching, and the two encoder argument builders.
- `Server` (main.go): the auto-reject size policy and its scan of waiting tasks, the batch
  submission walk, `mapTaskState`, and the id checks of the resolver page.
- `Text`, `Paths`, `Numbers`: the parts of Go's `strings`, `path/filepath` and `strconv` that
  the core relies on, with their own round-trip lemmas.

Goroutines, locks, atomics and channels are flattened into sequential calls. A
caller can interleave those calls the way the goroutines could. Clocks,
`os.TempDir`, `MkdirTemp` names, probe output and read outcomes are parameters.
Progress is an exact real, not an IEEE double.

## Model

| member | source | states |
|---|---|---|
| Tasks.NewTask | internal/processor/task.go:58-67 | A new task has the given id, input, preset and creation time. It is pending, with progress 0, no error, no command and no temp file. |
| Tasks.Task.MarkProcessing | internal/processor/task.go:70-73 | Whatever the prior status, the task becomes processing and its start time is now. Error, progress, end time, identity and command are kept. |
| Tasks.Task.MarkWaitingForResolution | internal/processor/task.go:76-79 | Unconditionally waiting for resolution, with end time now. All else is kept. |
| Tasks.Task.MarkCompleted | internal/processor/task.go:82-86 | Unconditionally completed, with progress exactly 1 and end time now. Error, start time, identity and command are kept. |
| Tasks.Task.MarkFailed | internal/processor/task.go:89-93 | Unconditionally failed, with the given error recorded and end time now. Progress, start time, identity and command are kept. |
| Tasks.Task.MarkCancelled | internal/processor/task.go:96-99 | Unconditionally cancelled, with end time now. Error and progress are kept. |
| Tasks.Task.MarkStatusReplacing | internal/processor/resolve.go:25 | The task becomes replacing, a status the enumeration lacks. Every other field is kept. |
| Tasks.StatusPredicates | internal/processor/task.go:102-116 | `IsFinished` holds exactly for completed, failed or cancelled, `IsActive` exactly for processing, and `IsPending` exactly for pending. No two of them hold at once. |
| Tasks.Task.SetProgress | internal/processor/task.go:119-127 | The stored progress is the input clamped to [0, 1]: in-range values are kept exactly, below 0 gives 0 and above 1 gives 1. Nothing else changes. |
| Tasks.Task.SetCommand | internal/processor/task.go:130-132 | Only the command changes. |
| Tasks.Task.Duration | internal/processor/task.go:135-145 | 0 while pending. `endedAt - startedAt` once finished. Time since start otherwise. |
| Tasks.OnlyMarkFailedWritesError | internal/processor/task.go:70-99 | No transition other than `MarkFailed` changes the task's error, and neither does setting progress. |
| Tasks.FinishedIsTerminal | internal/processor/task.go:112-116 | No edge of the caller-enforced life cycle leaves a finished status. |
| Tasks.StatusTextInjective | internal/processor/task.go:14-33 | Distinct statuses have distinct texts. |
| Queue.QueueProcessor.constructor | internal/processor/queue.go:25-30 | A new processor has no tasks and the counter at 0. |
| Queue.QueueProcessor.AddTask | internal/processor/queue.go:62-69 | The counter rises by exactly one. One pending task with the new counter as its id is appended. Earlier tasks are unchanged, so the registry keeps the life cycle. |
| Queue.IdsDistinctAscending | internal/processor/queue.go:62-69 | Since ids are handed out 1..n in order, they are non-zero, distinct and ascend in list order. |
| Seqs.FirstWhere | internal/processor/queue.go:84-90 | The index of the first element that satisfies the test, or the length when none does: the search loop every lookup by id or name runs. |
| Queue.IndexOf | internal/processor/queue.go:84-90 | The position of the first task with the id, or the length when none has it. |
| Queue.IndexOfOneToN | internal/processor/queue.go:80-93 | With ids 1..n, the task with id k sits at position k-1, and every other id is absent. |
| Queue.QueueProcessor.GetQueue | internal/processor/queue.go:72-77 | The copy equals the task list element by element. Nothing changes. |
| Queue.QueueProcessor.GetTask | internal/processor/queue.go:80-93 | Returns the first task with the id, or the zero task (id 0) when there is none. |
| Queue.QueueProcessor.CancelTask | internal/processor/queue.go:96-124 | A processing task is signalled when its command has started. If the signal fails, the task becomes failed and the error is returned. Otherwise a pending or processing task becomes cancelled and nil is returned. Any other status, or an unknown id, changes nothing and returns nil. Every status change is an edge of the life cycle. |
| Queue.QueueProcessor.ClaimNext | internal/processor/queue.go:43-54 | Only the first pending task in list order is marked processing, and its prior copy is returned. With none pending, nothing changes and the zero task comes back. Every status change is an edge of the life cycle. |
| Queue.OverwriteAdvances | internal/processor/process.go:18-27 | With ids 1..n, a write-back whose status stays or follows an edge from the registry's status keeps every task in place on the life cycle. |
| Queue.ProfileFor | internal/processor/queue.go:146-153 | The first profile with the name, or the zero profile when none has it. |
| Queue.QueueProcessor.GetProfile | internal/processor/queue.go:146-153 | The loop returns exactly the `ProfileFor` lookup. |
| Queue.TempFilePath | internal/processor/queue.go:127-143 | Either directory step's error is the result. Otherwise the path is the input's base inside the fresh directory under the temp root. |
| Queue.TempFileInFreshDir | internal/processor/queue.go:127-143 | A successful temp path has the input's base as its base. Its directory is the fresh one under the configured temp dir, or under `os.TempDir()/easy-transcoder` when none is configured. |
| Queue.QueueProcessor.UpdateTask | internal/processor/process.go:18-27 | Every entry with the task's id is replaced and every other entry is left as it was. The ids stay 1..n. |
| Queue.OverwriteKeepsIds | internal/processor/process.go:18-27 | Overwriting by id keeps the ids 1..n. |
| Queue.OverwriteTwice | internal/processor/process.go:18-27 | Two overwrites of the same id amount to the second one alone. |
| Queue.StartWritesAdvance | internal/processor/process.go:31-57 | From a registry holding the task as processing, the write-backs before the launch (processing, then possibly failed) keep the life cycle. |
| Queue.QueueProcessor.StartTask | internal/processor/process.go:29-72 | The task is first written back as processing. A probe or duration failure marks it failed before any temp path or launch, and a temp-path failure does the same before the launch. Otherwise the encoder invocation is the one the task's named profile (or the zero profile) compiles: the input, the temp path as output, exactly the profile's parameters, the progress socket, overwrite on. It runs with the probed duration. From a processing registry entry, the life cycle is kept. |
| Queue.QueueProcessor.ReportProgress | internal/processor/process.go:60-64 | The local copy gets the clamped progress and is written back whole. The life cycle is kept only when the registry's status stays or steps to the local copy's. |
| Queue.SettleAfterRun | internal/processor/process.go:85-99 | A cancelled task is left alone. Otherwise a run error fails the task with that error, and a clean exit sends it to resolution. All three cases are stated as if-and-only-if. |
| Queue.QueueProcessor.FinishTask | internal/processor/process.go:74-99 | The registry status read after the run decides how the local copy is settled. It is written back unless left as is. From a processing or cancelled registry entry, the life cycle is kept. |
| Queue.StartedAlone | internal/processor/process.go:29-64 | After a fresh queue adds, claims and starts one task, the registry holds that task (id 1) as processing without its command. The local copy is processing too. |
| Queue.CancelLostToProgress | internal/processor/process.go:60-99 | A cancel that lands after the launch and before the first progress report signals nothing. The report then turns the cancelled task back into processing, which is not an edge of the life cycle. The clean exit then sends it to resolution. |
| Progress.LastOutTime | internal/processor/ffmpeg.go:43-48 | None exactly when there is no `out_time_ms=` match. Otherwise the digits captured at the last match, read as a number and capped at MaxInt64 as `Atoi` does. |
| Progress.MatchesDoNotOverlap | internal/processor/ffmpeg.go:43 | Two matches never overlap: a later match starts after the earlier one's key and digits. |
| Progress.ParseProgress | internal/processor/ffmpeg.go:42-53 | 1 once the text holds `progress=end`. Otherwise 0 with no match, else the last match ÷ duration ÷ 10⁶. |
| Progress.EndSentinelSticks | internal/processor/ffmpeg.go:50-53 | Once the end sentinel has arrived, every later report is exactly 1. |
| Progress.RatioMonotone | internal/processor/ffmpeg.go:47 | For a positive duration, a later out-time never gives a smaller ratio. |
| Progress.AccumulatedGrows | internal/processor/ffmpeg.go:33-42 | The accumulated text only grows: earlier text is a prefix of later text. |
| Progress.ListenProgress | internal/processor/ffmpeg.go:25-56 | A failed accept reports nothing. Otherwise there is one report per successful read up to the first failed one, each the parse of the text accumulated so far. |
| Progress.ProbeDuration | internal/processor/ffmpeg.go:70-83 | The decoder's error for malformed output. Otherwise `ParseFloat` of `format.duration`. |
| Progress.ProbeDurationDecimal | internal/processor/process.go:148-159 | A duration written `w.f` yields exactly w + 0.f seconds. |
| Progress.ProbeDurationMissing | internal/processor/ffmpeg.go:77-80 | A report with no duration field fails. |
| Numbers.ParseFloatWhole | internal/processor/ffmpeg.go:77 | A plain decimal integer parses to its value. |
| Numbers.AtoiItoa | cmd/easy-transcoder/main.go:404 | `Atoi` inverts `Itoa` on every int64, with no error. |
| Numbers.AtoiSyntax | cmd/easy-transcoder/main.go:404-409 | A syntax error comes exactly from text that is not an optionally signed run of digits, unless the leading digits already overflow uint64. |
| Numbers.OverflowBeforeJunk | cmd/easy-transcoder/main.go:404-409 | Digits above 2⁶⁴-1 give a range error clamped by the sign, whatever follows them, because the scan stops at the overflow. |
| Numbers.AtoiOfDigits | internal/processor/ffmpeg.go:45-47 | Unsigned digit text reads as its value when that fits int64. Otherwise it gives MaxInt64 with a range error. |
| Resolve.SiblingIsNotDst | internal/processor/resolve.go:99 | The staging path `dir(dst)/.tmp_base(dst)` is never the destination itself. |
| Resolve.ReplaceVia | internal/processor/resolve.go:101-177 | A failure before the staging file exists changes nothing. The call succeeds exactly when open, stat and create succeed and copy, close and rename do too. Preallocation and chmod failures are not fatal. |
| Resolve.FailureOnlyTouchesStaging | internal/processor/resolve.go:101-173 | On any failure, every path other than the staging one is as it was. When the staging file was created and its removal works, the result is the old files minus the staging path. |
| Resolve.DstUntouchedOnFailure | internal/processor/resolve.go:101-173 | Whenever `replaceFile` fails, the destination is exactly as before: present with the same bytes and mode, or absent. |
| Resolve.FailureRemovesSibling | internal/processor/resolve.go:142-173 | A copy, close or rename failure removes the sibling and leaves everything else unchanged. |
| Resolve.SuccessMovesSourceBytes | internal/processor/resolve.go:130-177 | On success the destination holds the source's bytes, with the old destination's mode when chmod applied. The sibling is gone and every other path is unchanged. |
| Resolve.RemoveAllSpec | internal/processor/resolve.go:56 | Removing a directory deletes exactly the paths at or below it. |
| Resolve.ReplaceFile | internal/processor/resolve.go:93-178 | The step-by-step calls on the filesystem object leave exactly the files and error of the `replaceFile` specification. |
| Resolve.ResolveFilesSpec | internal/processor/resolve.go:44-89 | Keeping the original: with no temp file, nothing happens. Otherwise only the temp file's directory is removed and its removal error is returned. Replacing: a `replaceFile` error is returned with no cleanup, and a failed cleanup after success is not an error. |
| Resolve.ResolveFiles | internal/processor/resolve.go:44-89 | The imperative `resolveTask` produces exactly the specified files and error. |
| Engine.SharedTask.constructor | internal/processor/processor.go:95-96 | A new shared record holds the task with the `cancelled` flag clear. |
| Engine.StateOf | internal/processor/task_state.go:28-44 | Every field of the snapshot is the task's field of the same name. |
| Engine.Processor.constructor | internal/processor/processor.go:31-64 | No tasks, an empty channel, the counter at 0. |
| Engine.FFmpegPath | internal/processor/processor.go:36-54 | The custom binary is chosen exactly when the URL is http(s) and its download succeeded. Otherwise the choice is "ffmpeg". |
| Engine.Processor.AddTask | internal/processor/processor.go:90-102 | The new id is the old counter + 1 and is unused. A pending task is stored under it and sent to the channel. The counter rises by one and no stored task changes. |
| Engine.Processor.HasTask | internal/processor/processor.go:77-87 | True exactly when some stored task has this input and preset and is not cancelled. |
| Engine.Processor.CancelTask | internal/processor/processor.go:105-113 | Sets the flag and leaves the record alone. It signals exactly when a command exists and always returns nil. |
| Engine.Processor.GetProfile | internal/processor/processor.go:116-124 | The profile the configuration lookup finds, or the zero profile. |
| Engine.Processor.Dequeue | internal/processor/processor.go:66-75 | The worker receives the oldest queued task, whose id is below every id still queued. The channel never holds more than 100. |
| Engine.InsertById | internal/processor/task_state.go:21-23 | Inserting into an id-sorted snapshot list keeps it sorted and adds exactly the new element. |
| Engine.Processor.GetTask | internal/processor/task_state.go:9-12 | The snapshot of the task stored under the id. |
| Engine.Processor.GetQueue | internal/processor/task_state.go:14-26 | Exactly one snapshot per stored task, in ascending id order. |
| Engine.Processor.ResolveTask | internal/processor/resolve.go:13-26 | Accepted exactly when the task is waiting for resolution, in which case it becomes replacing at once, an edge of the life cycle. Otherwise it is unchanged. |
| Engine.ResolveAcceptsOnce | internal/processor/resolve.go:20-25 | After an accepted resolution the task is no longer waiting, so a second call is refused. The step is a legal edge. |
| Engine.Processor.FinishResolution | internal/processor/resolve.go:27-38 | After `resolveTask` the task is failed with its error, or completed. From replacing, that is an edge of the life cycle. |
| Config.GetLogLevel | internal/config/config.go:38-52 | Ignoring case: debug, warn or warning, and error map to their levels, and anything else maps to info. Each mapping is an if-and-only-if. |
| Config.LogLevelIgnoresCase | internal/config/config.go:39 | Levels equal up to case give the same level. |
| Config.GetProfile | internal/config/config.go:54-61 | The first profile with the name, or none exactly when no profile has it. |
| Config.ValidateConfig | internal/config/config.go:94-114 | Valid exactly when niceness is in [-20, 19] and the temp dir is empty or an existing directory. Each failure gives its own message, in the source's order. |
| Config.NicenessBounds | internal/config/config.go:95-97 | -20 and 19 are accepted; -21 and 20 are refused. |
| Config.CleanEnvVar | internal/config/config.go:116-118 | The prefix is dropped, then each character is lower-cased, or turned into `.` when it is `_`. The key has no `_`. |
| Transcoding.VideoExtensionsWellFormed | internal/transcoding/filter.go:11-13 | Every extension is lower-case, starts with `.` and has a name after it. |
| Transcoding.Probe | internal/transcoding/filter.go:74-85 | An external failure or undecodable output is an error wrapped with its own prefix. Otherwise the decoded data. |
| Transcoding.Matches | internal/transcoding/filter.go:19-33 | A probe failure gives false with the error wrapped again. Otherwise the filter matches exactly when some stream's codec name contains some configured codec. |
| Transcoding.EmptyFilterNeverMatches | internal/transcoding/filter.go:24-32 | A filter with no codecs never matches. |
| Transcoding.MatchIgnoresOrder | internal/transcoding/filter.go:24-30 | Reordering streams or codecs does not change the match. |
| Text.ContainsIff | internal/transcoding/filter.go:26 | Substring containment holds exactly when the needle occurs at some position. |
| Transcoding.Compile | internal/transcoding/profile.go:15-30 | Input and output pass through. The argument keys are the profile's plus "map", with every profile value unchanged and "map" set to "0" unless the profile sets it. The global args are `-progress unix://sock`, and output is overwritten. |
| LegacyProfile.Compile | internal/profile/profile.go:15-28 | The argument map is exactly the profile's parameters. Input, output and the progress global args pass through. |
| FFmpegCmd.ProgressArgs | internal/transcoding/profile.go:25 | Exactly `-progress` followed by `unix://` and the socket path. |
| Server.GetFileSize | cmd/easy-transcoder/main.go:663-674 | An empty path is an error. The size is returned exactly when the path is non-empty and exists. |
| Server.AutoReject | cmd/easy-transcoder/main.go:625-660 | The task is rejected exactly when auto-reject is on, both sizes are readable and the result is strictly larger. |
| Server.EqualSizeIsKept | cmd/easy-transcoder/main.go:649-659 | A result of equal size is kept. |
| Server.Rejections | cmd/easy-transcoder/main.go:682-687 | Only waiting tasks that the policy rejects are listed. |
| Server.RejectionsComplete | cmd/easy-transcoder/main.go:682-687 | Every waiting task that the policy rejects is listed. |
| Server.RejectionsInOrder | cmd/easy-transcoder/main.go:682-687 | The listed ids belong to rejected snapshots at strictly ascending queue positions, one for one, so the list keeps the order of the `GetQueue` snapshot. |
| Server.ListedCons | cmd/easy-transcoder/main.go:682-687 | A rejected first snapshot is listed ahead of everything the rest of the queue lists. |
| Server.ListedSkip | cmd/easy-transcoder/main.go:682-687 | A first snapshot that is not rejected leaves the rest's listing unchanged. |
| Server.ScanFront | cmd/easy-transcoder/main.go:682-687 | The scan handles the first snapshot, then the rest: it counts it when it is waiting and lists its id when it is rejected. |
| Server.NoWaitingNoRejections | cmd/easy-transcoder/main.go:682-687 | With no waiting task, nothing is rejected and the count is 0. |
| Server.Server.ProcessExistingWaitingTasks | cmd/easy-transcoder/main.go:678-692 | Walks the snapshot first to last and counts the waiting tasks. When auto-reject is on, the ids it rejects are exactly the rejected waiting tasks, in queue order. When it is off, it rejects none. |
| Server.Server.SubmitAutoRejectSetting | cmd/easy-transcoder/main.go:583-606 | The switch is on exactly when the checkbox value is "on". Switching it on scans the waiting tasks. |
| Server.MapTaskState | cmd/easy-transcoder/main.go:232-249 | The view carries a non-empty decimal id and the input's base as file name. Its error is "" exactly when there is no error. |
| Server.PageResolver | cmd/easy-transcoder/main.go:402-425 | An unparsable id is a bad request and id 0 is not found. Otherwise the first snapshot with that id is shown, or an empty view when there is none. |
| Server.ResolverFindsMappedTask | cmd/easy-transcoder/main.go:411-425 | The id a view shows leads the resolver page back to that task. |
| Server.PassesFilters | cmd/easy-transcoder/main.go:477-493 | A file passes exactly when its lower-cased extension is a video extension and the exclude filter neither errs nor matches. |
| Server.BatchAddsAdmitted | cmd/easy-transcoder/main.go:476-504 | Every queued path came from the walk and passed the extension and exclude filters on its own probe. It had no live task and is queued once. Conversely, every walked path that passes the filters and had no live task is queued. |
| Server.BatchAddsSound | cmd/easy-transcoder/main.go:477-501 | Every queued path is a walked path that passed the filters on its own probe and had no live task before the walk. |
| Server.BatchAddsDistinct | cmd/easy-transcoder/main.go:495-501 | No path is queued twice in one walk. |
| Server.BatchAddsComplete | cmd/easy-transcoder/main.go:477-501 | Every walked path that passes the filters and had no live task before the walk is queued. |
| Server.QueuedWhenEligible | cmd/easy-transcoder/main.go:477-501 | One walked path that passes the filters and had no live task before the walk is queued. |
| Server.BatchAddsKeeps | cmd/easy-transcoder/main.go:495-501 | Visiting the last path keeps a path that was queued before it. |
| Server.BatchAddsQueuesLast | cmd/easy-transcoder/main.go:477-501 | Visiting the last path queues it when it passes the filters and had no live task before the walk. |
| Server.BatchAdd | cmd/easy-transcoder/main.go:500-501 | Queuing one path through `AddTask` stores a live pending task for it under the next id and appends that task to the channel. Nothing else in the map or the channel changes, so the channel still holds its old contents followed by the batch tasks in id order. |
| Server.BatchVisit | cmd/easy-transcoder/main.go:476-503 | One callback visit applies the file checks, then `HasTask`. An admitted path gets a new stored task under the next id, appended to the channel. Otherwise neither the task map nor the channel changes. The channel keeps holding its old contents followed by the batch's tasks in id order. |
| Server.SentOneMore | internal/processor/processor.go:96-101 | Storing a task under the next id and sending it extends the channel's run of batch tasks by that task. |
| Server.RunOneMore | internal/processor/processor.go:96-101 | A run of tasks stored under consecutive ids extends by the task stored under the next id. |
| Server.SentRecords | cmd/easy-transcoder/main.go:476-503 | After the old contents, the channel holds one live pending task per queued path, in walk order, under consecutive ids. |
| Server.HasTaskInBatch | cmd/easy-transcoder/main.go:495-498 | During the walk, `HasTask` is true exactly for paths that had a live task before the walk or were queued by it. |
| Server.WalkBatch | cmd/easy-transcoder/main.go:476-504 | The paths the walk queues are exactly the batch-admission function of the walk. The channel ends with its old contents followed by their tasks, in walk order. |
| Server.SubmitTaskBatch | cmd/easy-transcoder/main.go:453-510 | An unknown profile is refused: the task map and the channel are unchanged. Otherwise the admitted paths get new live pending tasks under consecutive new ids, and every earlier task is kept. No other id appears. The channel keeps its old contents, followed by exactly those new tasks in walk order. |

## Left out

- Tasks.Task.String (internal/processor/task.go:148-151) is not modelled: it only formats text for logs.
- Progress.Ratio: with a zero duration Go produces +Inf or NaN. The model gives 1 for a positive out-time and 0 otherwise, and the division rule of `ParseProgress` is stated only for a non-zero duration.
- Numbers.ParseFloat: only decimal notation with an optional sign, digits and a fraction is accepted, as an exact real. Exponents, hex floats, `inf`/`nan`, underscores and rounding to float64 are not modelled.
- Numbers.Quote: the error text of `Atoi` and `ParseFloat` wraps the input in plain double quotes. `strconv.Quote`'s escaping of quotes, backslashes and non-printable characters is not modelled.
- Text.ToLower: only ASCII letters are lower-cased; Unicode case folding is not modelled.
- Paths.Base, Paths.Dir, Paths.Join: `Clean` is applied only as far as removing trailing separators. `..` and `.` elements and doubled separators are taken as already clean.
- Engine.Processor.AddTask requires room in the channel. The source blocks on a full channel (while holding the lock), which a sequential model cannot express.
- Server.SubmitTaskBatch requires room in the channel for the whole walk, for the same reason. The walk is given as a list of paths with one probe outcome per path, and all tasks of one batch share one creation time.
- Engine.Processor.CancelTask, Engine.Processor.GetTask, Engine.Processor.ResolveTask require a known id, because the source dereferences nil for an unknown one. CancelTask also requires that an existing command has started, as `cmd.Process.Signal` would otherwise dereference nil.
- Queue.QueueProcessor.CancelTask takes the outcome of the SIGTERM signal as a parameter; the process itself is not modelled. Engine.Processor.CancelTask ignores the signal's result and always returns nil, as processor.go:108-110 does, so it only reports whether it signalled.
- The worker loops (`StartWorker` in queue.go and processor.go) are modelled as their single steps (`ClaimNext`, `Dequeue`). The one-second polling sleep and the endless loop are not modelled.
- Concurrency is not modelled: goroutines, mutexes, atomics and channel blocking become sequential calls. Race behaviours of the source are not claimed as properties:
  - a progress write-back can overwrite a concurrent cancellation (process.go:60-64). Queue.CancelLostToProgress exhibits one such interleaving; the write-back is modelled as the source has it, not corrected;
  - `GetQueue` reads the map without its lock (task_state.go:17);
  - `CancelTask` and `ResolveTask` read the map without a lock.
- Socket listen and accept, random socket names, `os.TempDir`, `MkdirTemp`, the clock, and ffprobe/ffmpeg runs are parameters or oracles. The listen panic and `log.Fatal` on a failed accept in process.go are not modelled; a failed accept there is treated like ffmpeg.go's return.
- Each read of the 16-byte socket buffer appends the whole buffer, stale bytes included. The model appends abstract chunks instead.
- JSON decoding is abstract: a probe's output is either malformed (with a message) or the decoded fields the core reads. The exact texts of decoder and ffprobe errors are not modelled.
- Resolve: `Fallocate` and `Chmod` failures are logged and ignored. A partial copy is modelled as writing nothing before the staging file is removed. A failed `RemoveAll` is modelled as removing nothing. Every `os.Remove` of the staging file shares one success flag.
- Resolve.SuccessMovesSourceBytes requires that the source is not the staging path itself. In that case the source is truncated before it is copied.
- Task ids and the `taskAI` counters are unbounded naturals; uint64 wrap-around after 2⁶⁴ tasks is not modelled.
- `ParseConfig` (koanf loading and merging), `config/default.go`, `custom_ffmpeg.go` (download and archive extraction), `transcoding/quality.go` (external quality scoring), HTTP routing, templates and logging are not part of this model.
- `cleanEnvVar` turns every `_` into the key delimiter. An environment variable therefore cannot reach a key that itself contains `_`, such as `transcoding_niceness`. This is stated by Config.CleanEnvVar, not corrected.
