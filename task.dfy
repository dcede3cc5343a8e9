/**
 * The task record and its state machine (internal/processor/task.go).
 *
 * Go's `Task` is a struct that the registry stores and hands out by value, so it is a
 * datatype here; a pointer-receiver call `t.MarkFailed(err)` on a variable becomes
 * `t := t.MarkFailed(err, now)`. Clock readings are passed in as `now`.
 */
module Tasks {
  import opened Wrappers

  /** A clock reading in nanoseconds; `ZeroTime` is Go's zero `time.Time`. */
  type Time = int
  const ZeroTime: Time := 0

  /**
   * `TaskStatus`. `Replacing` is the status the resolver sets, which task.go does not
   * declare; `Unset` is the empty string, the status of Go's zero `Task`.
   */
  datatype TaskStatus =
    | Unset
    | Pending
    | Processing
    | WaitingForResolution
    | Replacing
    | Completed
    | Cancelled
    | Failed

  /** The string value of each status constant. */
  function StatusText(s: TaskStatus): string {
    match s
    case Unset => ""
    case Pending => "pending"
    case Processing => "processing"
    case WaitingForResolution => "waiting_for_resolution"
    case Replacing => "replacing"
    case Completed => "completed"
    case Cancelled => "cancelled"
    case Failed => "failed"
  }

  lemma StatusTextInjective(a: TaskStatus, b: TaskStatus)
    requires StatusText(a) == StatusText(b)
    ensures a == b
  {
  }

  /** The `*exec.Cmd` a task may hold; `started` is `cmd.Process != nil`. */
  datatype Command = Command(started: bool)

  datatype Task = Task(
    id: nat,
    createdAt: Time,
    input: string,
    preset: string,
    tempFile: string,
    status: TaskStatus,
    progress: real,
    error: Option<string>,
    cmd: Option<Command>,
    startedAt: Time,
    endedAt: Time)
  {
    /** The task is running (`IsActive`). */
    predicate IsActive() { status == Processing }

    /** The task is waiting to start (`IsPending`). */
    predicate IsPending() { status == Pending }

    /** The task reached a terminal status (`IsFinished`). */
    predicate IsFinished() { status == Completed || status == Failed || status == Cancelled }

    /** `MarkProcessing`: sets the status and the start time, whatever the current status is. */
    function MarkProcessing(now: Time): (r: Task)
      ensures r.status == Processing && r.startedAt == now
      ensures r.error == error && r.progress == progress && r.endedAt == endedAt
      ensures SameJob(r, this) && r.cmd == cmd
    {
      this.(status := Processing, startedAt := now)
    }

    /** `MarkWaitingForResolution`: sets the status and the end time. */
    function MarkWaitingForResolution(now: Time): (r: Task)
      ensures r.status == WaitingForResolution && r.endedAt == now
      ensures r.error == error && r.progress == progress && r.startedAt == startedAt
      ensures SameJob(r, this) && r.cmd == cmd
    {
      this.(status := WaitingForResolution, endedAt := now)
    }

    /** `MarkCompleted`: sets the status, progress exactly 1 and the end time. */
    function MarkCompleted(now: Time): (r: Task)
      ensures r.status == Completed && r.progress == 1.0 && r.endedAt == now
      ensures r.error == error && r.startedAt == startedAt
      ensures SameJob(r, this) && r.cmd == cmd
    {
      this.(status := Completed, progress := 1.0, endedAt := now)
    }

    /** `MarkFailed`: sets the status, records the error and the end time. */
    function MarkFailed(err: string, now: Time): (r: Task)
      ensures r.status == Failed && r.error == Some(err) && r.endedAt == now
      ensures r.progress == progress && r.startedAt == startedAt
      ensures SameJob(r, this) && r.cmd == cmd
    {
      this.(status := Failed, error := Some(err), endedAt := now)
    }

    /** `MarkCancelled`: sets the status and the end time. */
    function MarkCancelled(now: Time): (r: Task)
      ensures r.status == Cancelled && r.endedAt == now
      ensures r.error == error && r.progress == progress && r.startedAt == startedAt
      ensures SameJob(r, this) && r.cmd == cmd
    {
      this.(status := Cancelled, endedAt := now)
    }

    /** `MarkStatusReplacing`, used by the resolver: sets the status only. */
    function MarkStatusReplacing(): (r: Task)
      ensures r.status == Replacing
      ensures r.error == error && r.progress == progress
      ensures r.startedAt == startedAt && r.endedAt == endedAt
      ensures SameJob(r, this) && r.cmd == cmd
    {
      this.(status := Replacing)
    }

    /** `SetProgress`: stores `p` clamped to [0, 1] and changes nothing else. */
    function SetProgress(p: real): (r: Task)
      ensures 0.0 <= r.progress <= 1.0
      ensures 0.0 <= p <= 1.0 ==> r.progress == p
      ensures p < 0.0 ==> r.progress == 0.0
      ensures p > 1.0 ==> r.progress == 1.0
      ensures r == this.(progress := r.progress)
    {
      var q := if p < 0.0 then 0.0 else if p > 1.0 then 1.0 else p;
      this.(progress := q)
    }

    /** `SetCommand`. */
    function SetCommand(c: Command): (r: Task)
      ensures r.cmd == Some(c) && r == this.(cmd := r.cmd)
    {
      this.(cmd := Some(c))
    }

    /**
     * `Duration`: 0 while pending, the start-to-end span once finished, and the time
     * since the start otherwise (`now` stands for `time.Since`'s clock reading).
     */
    function Duration(now: Time): (d: int)
      ensures IsPending() ==> d == 0
      ensures IsFinished() ==> d == endedAt - startedAt
      ensures !IsPending() && !IsFinished() ==> d == now - startedAt
    {
      if status == Pending then 0
      else if IsFinished() then endedAt - startedAt
      else now - startedAt
    }
  }

  /** Two snapshots describe the same submission: same id, input, preset, creation time and temp file. */
  predicate SameJob(a: Task, b: Task) {
    a.id == b.id && a.input == b.input && a.preset == b.preset
    && a.createdAt == b.createdAt && a.tempFile == b.tempFile
  }

  /** `NewTask`: a pending task with no progress, no error and no command. */
  function NewTask(id: nat, input: string, preset: string, now: Time): (t: Task)
    ensures t.id == id && t.input == input && t.preset == preset && t.createdAt == now
    ensures t.IsPending() && t.progress == 0.0 && t.error == None && t.cmd == None
    ensures t.tempFile == "" && t.startedAt == ZeroTime && t.endedAt == ZeroTime
  {
    Task(id, now, input, preset, "", Pending, 0.0, None, None, ZeroTime, ZeroTime)
  }

  /** Go's zero `Task`: what a failed lookup hands back. */
  const ZeroTask: Task := Task(0, ZeroTime, "", "", "", Unset, 0.0, None, None, ZeroTime, ZeroTime)

  /**
   * The lifecycle the callers follow (task.go itself checks none of it):
   * pending -> processing -> {waiting_for_resolution | failed | cancelled},
   * waiting_for_resolution -> replacing -> {completed | failed}; pending may also be cancelled.
   */
  predicate LegalEdge(from: TaskStatus, to: TaskStatus) {
    match from
    case Pending => to == Processing || to == Cancelled
    case Processing => to == WaitingForResolution || to == Failed || to == Cancelled
    case WaitingForResolution => to == Replacing
    case Replacing => to == Completed || to == Failed
    case _ => false
  }

  /** The three status predicates are mutually exclusive, and each is exactly its status set. */
  lemma StatusPredicates(t: Task)
    ensures t.IsFinished() <==> t.status in {Completed, Failed, Cancelled}
    ensures t.IsActive() <==> t.status == Processing
    ensures t.IsPending() <==> t.status == Pending
    ensures !(t.IsActive() && t.IsPending())
    ensures !(t.IsActive() && t.IsFinished())
    ensures !(t.IsPending() && t.IsFinished())
  {
  }

  /** No legal edge leaves a finished task. */
  lemma FinishedIsTerminal(t: Task, to: TaskStatus)
    requires t.IsFinished()
    ensures !LegalEdge(t.status, to)
  {
  }

  /**
   * Only `MarkFailed` writes the error: every other transition keeps it, from any status.
   */
  lemma OnlyMarkFailedWritesError(t: Task, now: Time, p: real)
    ensures t.MarkProcessing(now).error == t.error
    ensures t.MarkWaitingForResolution(now).error == t.error
    ensures t.MarkCompleted(now).error == t.error
    ensures t.MarkCancelled(now).error == t.error
    ensures t.MarkStatusReplacing().error == t.error
    ensures t.SetProgress(p).error == t.error
  {
  }
}
