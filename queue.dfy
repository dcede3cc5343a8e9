/**
 * The first registry and scheduler (internal/processor/queue.go and process.go): a
 * slice of task values behind a mutex, an id counter `taskAI`, a polling worker that
 * claims the first pending task, and `processTask`, which drives one task through
 * probing, launching the encoder and classifying how it ended.
 *
 * Locks are flattened: each method is one critical section. `processTask` runs in the
 * worker goroutine while cancellations and progress reports arrive, so it is split at
 * the points where other calls can interleave: `StartTask` (up to the encoder launch),
 * `ReportProgress` (the progress callback) and `FinishTask` (after the encoder exits).
 */
module Queue {
  import opened Wrappers
  import opened Seqs
  import opened Tasks
  import opened Paths
  import opened FFProbe
  import opened FFmpegCmd
  import Progress
  import LegacyProfile

  /** Index of the first task with id `id`, or `|tasks|` when there is none. */
  function IndexOf(tasks: seq<Task>, id: nat): (k: nat)
    ensures k <= |tasks|
    ensures k < |tasks| ==> tasks[k].id == id
    ensures forall i :: 0 <= i < k ==> tasks[i].id != id
  {
    FirstWhere(tasks, (t: Task) => t.id == id)
  }

  /** Index of the first pending task, or `|tasks|` when there is none. */
  function FirstPending(tasks: seq<Task>): (k: nat)
    ensures k <= |tasks|
    ensures k < |tasks| ==> tasks[k].IsPending()
    ensures forall i :: 0 <= i < k ==> !tasks[i].IsPending()
  {
    FirstWhere(tasks, (t: Task) => t.IsPending())
  }

  /** The registry after `updateTask(t)`: every entry with `t`'s id replaced by `t`. */
  function Overwrite(tasks: seq<Task>, t: Task): (r: seq<Task>)
    ensures |r| == |tasks|
    ensures forall i :: 0 <= i < |tasks| ==> r[i] == (if tasks[i].id == t.id then t else tasks[i])
  {
    if tasks == [] then []
    else [if tasks[0].id == t.id then t else tasks[0]] + Overwrite(tasks[1..], t)
  }

  /** The ids are 1..n in list order, as `taskAI` hands them out. */
  predicate IdsAreOneToN(tasks: seq<Task>) {
    forall i :: 0 <= i < |tasks| ==> tasks[i].id == i + 1
  }

  /** Ids that are 1..n are distinct, ascending, and never 0. */
  lemma IdsDistinctAscending(tasks: seq<Task>)
    requires IdsAreOneToN(tasks)
    ensures forall i, j :: 0 <= i < j < |tasks| ==> tasks[i].id < tasks[j].id
    ensures forall i :: 0 <= i < |tasks| ==> tasks[i].id != 0
  {
  }

  /** With ids 1..n, task `id` sits at index `id - 1`, and any other id is absent. */
  lemma IndexOfOneToN(tasks: seq<Task>, id: nat)
    requires IdsAreOneToN(tasks)
    ensures IndexOf(tasks, id) == if 1 <= id <= |tasks| then id - 1 else |tasks|
  {
    if 1 <= id <= |tasks| {
      assert tasks[id - 1].id == id;
    }
  }

  /** Overwriting keeps every id, so it keeps ids 1..n. */
  lemma OverwriteKeepsIds(tasks: seq<Task>, t: Task)
    requires IdsAreOneToN(tasks)
    ensures IdsAreOneToN(Overwrite(tasks, t))
  {
  }

  /** Writing the same task twice is writing it once; a later write of the same id wins. */
  lemma {:induction false} OverwriteTwice(tasks: seq<Task>, t: Task, u: Task)
    requires t.id == u.id
    ensures Overwrite(Overwrite(tasks, t), u) == Overwrite(tasks, u)
  {
    var a := Overwrite(Overwrite(tasks, t), u);
    var b := Overwrite(tasks, u);
    assert |a| == |b|;
    forall i | 0 <= i < |a| ensures a[i] == b[i] {
    }
  }

  /** The status the registry holds for `id`, or the zero status when it holds none. */
  function StatusOf(tasks: seq<Task>, id: nat): TaskStatus {
    var k := IndexOf(tasks, id);
    if k < |tasks| then tasks[k].status else Unset
  }

  /** A status is kept, or changes along one edge of the life cycle. */
  predicate StaysOrSteps(from: TaskStatus, to: TaskStatus) {
    from == to || LegalEdge(from, to)
  }

  /**
   * Every task of `before` is still in place in `after` with its id, and its status
   * stayed or took one edge of the life cycle; `after` may hold new tasks at the end.
   */
  predicate KeepsOrAdvances(before: seq<Task>, after: seq<Task>) {
    && |before| <= |after|
    && forall i :: 0 <= i < |before| ==>
         after[i].id == before[i].id && StaysOrSteps(before[i].status, after[i].status)
  }

  /** With ids 1..n, a write whose status follows the life cycle from the registry's keeps it. */
  lemma OverwriteAdvances(tasks: seq<Task>, t: Task)
    requires IdsAreOneToN(tasks)
    requires IndexOf(tasks, t.id) < |tasks| ==> StaysOrSteps(StatusOf(tasks, t.id), t.status)
    ensures KeepsOrAdvances(tasks, Overwrite(tasks, t))
  {
    IndexOfOneToN(tasks, t.id);
  }

  /**
   * `processTask`'s writes before the launch: processing, then possibly failed. From a
   * registry that holds the task as processing, both keep the life cycle.
   */
  lemma StartWritesAdvance(tasks: seq<Task>, started: Task, local: Task)
    requires IdsAreOneToN(tasks) && started.id == local.id
    requires StatusOf(tasks, local.id) == Processing
    requires started.status == Processing && local.status in {Processing, Failed}
    ensures KeepsOrAdvances(tasks, Overwrite(tasks, started))
    ensures KeepsOrAdvances(tasks, Overwrite(Overwrite(tasks, started), local))
  {
    OverwriteAdvances(tasks, started);
    OverwriteTwice(tasks, started, local);
    OverwriteAdvances(tasks, local);
  }

  /** `getProfile`'s answer: the first profile called `name`, or the zero profile when none is. */
  function ProfileFor(profiles: seq<LegacyProfile.Profile>, name: string): (p: LegacyProfile.Profile)
    ensures (exists i :: 0 <= i < |profiles| && profiles[i].name == name) ==>
              exists k :: 0 <= k < |profiles| && p == profiles[k] && p.name == name
                && forall i :: 0 <= i < k ==> profiles[i].name != name
    ensures (forall i :: 0 <= i < |profiles| ==> profiles[i].name != name) ==>
              p == LegacyProfile.Profile("", map[])
  {
    var k := FirstWhere(profiles, (q: LegacyProfile.Profile) => q.name == name);
    if k < |profiles| then profiles[k] else LegacyProfile.Profile("", map[])
  }

  /** What `os.MkdirAll` and `os.MkdirTemp` do when `tempFile` runs. */
  datatype TempDirEffects = TempDirEffects(mkdirAll: Option<string>, mkdirTemp: Result<string>)

  /** The directory `tempFile` creates its per-task directory in. */
  function TempRoot(configTempDir: string, osTempDir: string): string {
    if configTempDir == "" then Join(osTempDir, "easy-transcoder") else configTempDir
  }

  /**
   * `tempFile`: a path named like the input's base, inside a fresh directory (whose
   * name `MkdirTemp` picks) under the temp root; either directory step's error fails it.
   */
  function TempFilePath(configTempDir: string, osTempDir: string, filename: string,
                        fx: TempDirEffects): (r: Result<string>)
    ensures fx.mkdirAll.Some? ==> r == Err(fx.mkdirAll.value)
    ensures fx.mkdirAll.None? && fx.mkdirTemp.Err? ==> r == Err(fx.mkdirTemp.msg)
    ensures fx.mkdirAll.None? && fx.mkdirTemp.Ok? ==>
              r == Ok(Join(Join(TempRoot(configTempDir, osTempDir), fx.mkdirTemp.value), Base(filename)))
  {
    if fx.mkdirAll.Some? then Err(fx.mkdirAll.value)
    else match fx.mkdirTemp
      case Err(e) => Err(e)
      case Ok(name) => Ok(Join(Join(TempRoot(configTempDir, osTempDir), name), Base(filename)))
  }

  /**
   * A successful `tempFile` names the input's base inside the fresh directory under the
   * configured temp dir, or under `os.TempDir()/easy-transcoder` when none is configured.
   */
  lemma TempFileInFreshDir(configTempDir: string, osTempDir: string, filename: string, tmpName: string)
    requires tmpName != [] && tmpName != "." && NoSep(tmpName) && Base(filename) != [Sep]
    ensures var r := TempFilePath(configTempDir, osTempDir, filename, TempDirEffects(None, Ok(tmpName)));
            var root := if configTempDir == "" then Join(osTempDir, "easy-transcoder") else configTempDir;
            r.Ok? && Base(r.value) == Base(filename) && Dir(r.value) == Join(root, tmpName)
  {
    var dir := Join(TempRoot(configTempDir, osTempDir), tmpName);
    JoinKeepsLast(TempRoot(configTempDir, osTempDir), tmpName);
    var r := TempFilePath(configTempDir, osTempDir, filename, TempDirEffects(None, Ok(tmpName)));
    assert r == Ok(Join(dir, Base(filename)));
    BaseOfJoin(dir, Base(filename));
  }

  /** Joining onto a separator-free element other than "." ends in that element and is not ".". */
  lemma JoinKeepsLast(a: string, b: string)
    requires b != [] && b != "." && NoSep(b)
    ensures var j := Join(a, b); j != [] && j != "." && j[|j| - 1] == b[|b| - 1] && j[|j| - 1] != Sep
  {
  }

  /** What the encoder launch in `processTask` is given. */
  datatype Launch = Launch(inv: Invocation, totalDuration: real)

  /** How `processTask` settles a task once the encoder has exited. */
  datatype Settle = LeaveAsIs | SettleFailed(err: string) | SettleWaiting

  /**
   * The decision after the encoder exits, from the status the registry holds then and
   * the run's error: a cancelled task is left alone; otherwise an error fails it and a
   * clean exit sends it to resolution.
   */
  function SettleAfterRun(registryStatus: TaskStatus, runErr: Option<string>): (s: Settle)
    ensures registryStatus == Cancelled <==> s == LeaveAsIs
    ensures registryStatus != Cancelled && runErr.Some? <==> s.SettleFailed?
    ensures s.SettleFailed? ==> runErr == Some(s.err)
    ensures s == SettleWaiting <==> registryStatus != Cancelled && runErr.None?
  {
    if runErr.Some? && registryStatus != Cancelled then SettleFailed(runErr.value)
    else if registryStatus == Cancelled then LeaveAsIs
    else SettleWaiting
  }

  class QueueProcessor {
    const tempDir: string
    const profiles: seq<LegacyProfile.Profile>
    var taskAI: nat
    var tasks: seq<Task>

    ghost predicate Valid()
      reads this
    {
      taskAI == |tasks| && IdsAreOneToN(tasks)
    }

    /** `NewQueue`. */
    constructor (tempDir: string, profiles: seq<LegacyProfile.Profile>)
      ensures Valid() && this.tempDir == tempDir && this.profiles == profiles
      ensures taskAI == 0 && tasks == []
    {
      this.tempDir := tempDir;
      this.profiles := profiles;
      taskAI := 0;
      tasks := [];
    }

    /** `AddTask`: the counter rises by one and a pending task with that id is appended. */
    method AddTask(path: string, preset: string, now: Time)
      requires Valid()
      modifies this
      ensures Valid()
      ensures taskAI == old(taskAI) + 1
      ensures tasks == old(tasks) + [NewTask(taskAI, path, preset, now)]
      ensures KeepsOrAdvances(old(tasks), tasks)
    {
      taskAI := taskAI + 1;
      var task := NewTask(taskAI, path, preset, now);
      tasks := tasks + [task];
    }

    /** `GetQueue`: a copy of the registry. */
    method GetQueue() returns (snapshot: seq<Task>)
      ensures snapshot == tasks
    {
      snapshot := tasks;
    }

    /** `GetTask`: the first task with the id, or the zero `Task` (whose id is 0) when none has it. */
    method GetTask(id: nat) returns (t: Task)
      ensures IndexOf(tasks, id) < |tasks| ==> t == tasks[IndexOf(tasks, id)]
      ensures IndexOf(tasks, id) == |tasks| ==> t == ZeroTask
    {
      t := ZeroTask;
      var i := 0;
      while i < |tasks|
        invariant 0 <= i <= |tasks|
        invariant forall j :: 0 <= j < i ==> tasks[j].id != id
      {
        if tasks[i].id == id {
          t := tasks[i];
          return;
        }
        i := i + 1;
      }
    }

    /**
     * `CancelTask`. A running task whose process has started is sent SIGTERM; if that
     * fails the task is failed with the error, which is returned. Otherwise a running
     * or pending task is cancelled. Any other status, or an unknown id, changes nothing.
     * `signalErr` is what signalling the process would return.
     */
    method CancelTask(id: nat, signalErr: Option<string>, now: Time) returns (err: Option<string>, signalled: bool)
      requires Valid()
      modifies this
      ensures Valid() && taskAI == old(taskAI)
      ensures var k := IndexOf(old(tasks), id);
              k == |old(tasks)| ==> tasks == old(tasks) && err == None && !signalled
      ensures var k := IndexOf(old(tasks), id);
              k < |old(tasks)| ==>
                var t := old(tasks)[k];
                && signalled == (t.IsActive() && t.cmd.Some? && t.cmd.value.started)
                && (if signalled && signalErr.Some? then
                      tasks == old(tasks)[k := t.MarkFailed(signalErr.value, now)] && err == signalErr
                    else if t.IsActive() || t.IsPending() then
                      tasks == old(tasks)[k := t.MarkCancelled(now)] && err == None
                    else
                      tasks == old(tasks) && err == None)
      ensures KeepsOrAdvances(old(tasks), tasks)
    {
      err, signalled := None, false;
      var i := 0;
      while i < |tasks|
        invariant 0 <= i <= |tasks|
        invariant forall j :: 0 <= j < i ==> tasks[j].id != id
        invariant tasks == old(tasks)
      {
        if tasks[i].id == id {
          var t := tasks[i];
          if t.IsActive() {
            if t.cmd.Some? && t.cmd.value.started {
              signalled := true;
              if signalErr.Some? {
                tasks := tasks[i := t.MarkFailed(signalErr.value, now)];
                err := signalErr;
                return;
              }
            }
          } else if t.IsPending() {
          } else {
            return;
          }
          tasks := tasks[i := t.MarkCancelled(now)];
          return;
        }
        i := i + 1;
      }
    }

    /**
     * One tick of `StartWorker`: the first pending task in list order is marked
     * processing and its prior copy returned; with none pending nothing changes and the
     * zero task (id 0) comes back, on which the worker skips the tick.
     */
    method ClaimNext(now: Time) returns (claimed: Task)
      requires Valid()
      modifies this
      ensures Valid() && taskAI == old(taskAI)
      ensures var k := FirstPending(old(tasks));
              if k < |old(tasks)| then
                claimed == old(tasks)[k] && tasks == old(tasks)[k := old(tasks)[k].MarkProcessing(now)]
              else
                claimed == ZeroTask && tasks == old(tasks)
      ensures claimed.id == 0 <==> FirstPending(old(tasks)) == |old(tasks)|
      ensures KeepsOrAdvances(old(tasks), tasks)
    {
      claimed := ZeroTask;
      if |tasks| == 0 {
        return;
      }
      var i := 0;
      while i < |tasks|
        invariant 0 <= i <= |tasks|
        invariant forall j :: 0 <= j < i ==> !tasks[j].IsPending()
        invariant tasks == old(tasks)
      {
        if tasks[i].IsPending() {
          claimed := tasks[i];
          tasks := tasks[i := tasks[i].MarkProcessing(now)];
          return;
        }
        i := i + 1;
      }
    }

    /** `updateTask`: every entry whose id equals `task.id` becomes `task`. */
    method UpdateTask(task: Task)
      requires Valid()
      modifies this
      ensures Valid() && taskAI == old(taskAI)
      ensures tasks == Overwrite(old(tasks), task)
    {
      var i := 0;
      while i < |tasks|
        invariant 0 <= i <= |tasks| && |tasks| == |old(tasks)| && taskAI == old(taskAI)
        invariant forall j :: 0 <= j < i ==> tasks[j] == Overwrite(old(tasks), task)[j]
        invariant forall j :: i <= j < |tasks| ==> tasks[j] == old(tasks)[j]
      {
        if tasks[i].id == task.id {
          tasks := tasks[i := task];
        }
        i := i + 1;
      }
      OverwriteKeepsIds(old(tasks), task);
    }

    /** `getProfile`: the first profile with the name, or the zero profile. */
    method GetProfile(name: string) returns (p: LegacyProfile.Profile)
      ensures p == ProfileFor(profiles, name)
    {
      var i := 0;
      while i < |profiles|
        invariant 0 <= i <= |profiles|
        invariant forall j :: 0 <= j < i ==> profiles[j].name != name
      {
        if profiles[i].name == name {
          assert FirstWhere(profiles, (q: LegacyProfile.Profile) => q.name == name) == i;
          return profiles[i];
        }
        i := i + 1;
      }
      return LegacyProfile.Profile("", map[]);
    }

    /**
     * `processTask` up to the encoder launch. The task is marked processing in the
     * registry first. A probe failure, an unreadable duration or a temp-path failure
     * marks it failed, writes it back and stops: nothing is launched. Otherwise the
     * encoder invocation for the task's profile is built with the temp output and the
     * progress socket `sock`, and the task's local copy holds the temp path and the
     * command; it reaches the registry only with the next write.
     */
    method StartTask(task: Task, probe: Result<ProbeJson>, osTempDir: string, fx: TempDirEffects,
                     sock: string, now: Time)
      returns (local: Task, launch: Option<Launch>)
      requires Valid()
      modifies this
      ensures Valid() && taskAI == old(taskAI)
      ensures local.id == task.id && local.input == task.input && local.preset == task.preset
      ensures var started := task.MarkProcessing(now);
              var duration := if probe.Err? then Err(probe.msg) else Progress.ProbeDuration(probe.value);
              var temp := TempFilePath(tempDir, osTempDir, task.input, fx);
              && (duration.Err? ==>
                    local == started.MarkFailed(duration.msg, now) && launch.None?
                    && tasks == Overwrite(Overwrite(old(tasks), started), local))
              && (duration.Ok? && temp.Err? ==>
                    local == started.(tempFile := "").MarkFailed(temp.msg, now) && launch.None?
                    && tasks == Overwrite(Overwrite(old(tasks), started), local))
              && (duration.Ok? && temp.Ok? ==>
                    local == started.(tempFile := temp.value).SetCommand(Command(true))
                    && launch.Some? && launch.value.totalDuration == duration.value
                    && launch.value.inv == Invocation(task.input, temp.value, ProfileFor(profiles, task.preset).params,
                                                      ProgressArgs(sock), true)
                    && tasks == Overwrite(old(tasks), started))
      ensures StatusOf(old(tasks), task.id) == Processing ==> KeepsOrAdvances(old(tasks), tasks)
    {
      local := task.MarkProcessing(now);
      UpdateTask(local);

      var duration: Result<real>;
      if probe.Err? {
        duration := Err(probe.msg);
      } else {
        duration := Progress.ProbeDuration(probe.value);
      }
      if duration.Err? {
        local := local.MarkFailed(duration.msg, now);
        UpdateTask(local);
        if StatusOf(old(tasks), task.id) == Processing {
          StartWritesAdvance(old(tasks), task.MarkProcessing(now), local);
        }
        return local, None;
      }

      var preset := GetProfile(local.preset);

      var temp := TempFilePath(tempDir, osTempDir, local.input, fx);
      if temp.Err? {
        local := local.(tempFile := "").MarkFailed(temp.msg, now);
        UpdateTask(local);
        if StatusOf(old(tasks), task.id) == Processing {
          StartWritesAdvance(old(tasks), task.MarkProcessing(now), local);
        }
        return local, None;
      }
      local := local.(tempFile := temp.value);

      var inv := LegacyProfile.Compile(preset, local.input, local.tempFile, sock);
      assert inv.args == preset.params;
      local := local.SetCommand(Command(true));
      launch := Some(Launch(inv, duration.value));
      if StatusOf(old(tasks), task.id) == Processing {
        StartWritesAdvance(old(tasks), task.MarkProcessing(now), task.MarkProcessing(now));
      }
    }

    /**
     * The progress callback: the local copy gets the clamped progress and is written
     * back whole, status included.
     */
    method ReportProgress(local: Task, p: real) returns (local': Task)
      requires Valid()
      modifies this
      ensures Valid() && taskAI == old(taskAI)
      ensures local' == local.SetProgress(p)
      ensures tasks == Overwrite(old(tasks), local')
      ensures StaysOrSteps(StatusOf(old(tasks), local.id), local.status) ==> KeepsOrAdvances(old(tasks), tasks)
    {
      local' := local.SetProgress(p);
      UpdateTask(local');
      if StaysOrSteps(StatusOf(old(tasks), local.id), local.status) {
        OverwriteAdvances(old(tasks), local');
      }
    }

    /**
     * `processTask` after the encoder exits with `runErr`: reads the status the registry
     * holds for the task (the zero status if it holds none) and settles the task by
     * `SettleAfterRun`, writing the local copy back unless it is left as is.
     */
    method FinishTask(local: Task, runErr: Option<string>, now: Time) returns (local': Task)
      requires Valid()
      modifies this
      ensures Valid() && taskAI == old(taskAI)
      ensures var k := IndexOf(old(tasks), local.id);
              var current := if k < |old(tasks)| then old(tasks)[k].status else Unset;
              match SettleAfterRun(current, runErr)
              case LeaveAsIs => local' == local && tasks == old(tasks)
              case SettleFailed(e) => local' == local.MarkFailed(e, now) && tasks == Overwrite(old(tasks), local')
              case SettleWaiting =>
                local' == local.MarkWaitingForResolution(now) && tasks == Overwrite(old(tasks), local')
      ensures StatusOf(old(tasks), local.id) in {Processing, Cancelled} ==> KeepsOrAdvances(old(tasks), tasks)
    {
      var current := Unset;
      var i := 0;
      while i < |tasks|
        invariant 0 <= i <= |tasks|
        invariant forall j :: 0 <= j < i ==> tasks[j].id != local.id
      {
        if tasks[i].id == local.id {
          current := tasks[i].status;
          break;
        }
        i := i + 1;
      }

      assert current == StatusOf(tasks, local.id);

      local' := local;
      if runErr.Some? && current != Cancelled {
        local' := local.MarkFailed(runErr.value, now);
        UpdateTask(local');
        if current == Processing {
          OverwriteAdvances(old(tasks), local');
        }
        return;
      }
      if current == Cancelled {
        return;
      }
      local' := local.MarkWaitingForResolution(now);
      UpdateTask(local');
      if current == Processing {
        OverwriteAdvances(old(tasks), local');
      }
    }
  }

  /**
   * An interleaving `processTask` allows. A cancellation that lands after the launch but
   * before the first progress report finds no command in the registry, since the command
   * lives only in the worker's local copy: nothing is signalled and the task is marked
   * cancelled. The report then writes the local copy back as processing, an edge the
   * life cycle does not have, and the clean exit sends the task to resolution as if it
   * had never been cancelled.
   */
  method CancelLostToProgress(input: string, preset: string, probe: ProbeJson, fx: TempDirEffects, now: Time)
    returns (signalled: bool, afterCancel: TaskStatus, afterReport: TaskStatus, final: TaskStatus)
    requires Progress.ProbeDuration(probe).Ok?
    requires fx.mkdirAll.None? && fx.mkdirTemp.Ok?
    ensures !signalled && afterCancel == Cancelled && afterReport == Processing && final == WaitingForResolution
    ensures !LegalEdge(afterCancel, afterReport)
  {
    var q, local := StartedAlone(input, preset, probe, fx, now);
    ghost var registered := q.tasks[0];
    var err;
    err, signalled := q.CancelTask(1, None, now);
    SingleOverwrite(registered, registered.MarkCancelled(now));
    afterCancel := q.tasks[0].status;
    local := q.ReportProgress(local, 0.5);
    SingleOverwrite(registered.MarkCancelled(now), local);
    afterReport := q.tasks[0].status;
    local := q.FinishTask(local, None, now);
    final := q.tasks[0].status;
  }

  /**
   * The first half of that run: a fresh queue, one task added, claimed and started. The
   * registry holds the task as processing but without its command.
   */
  method StartedAlone(input: string, preset: string, probe: ProbeJson, fx: TempDirEffects, now: Time)
    returns (q: QueueProcessor, local: Task)
    requires Progress.ProbeDuration(probe).Ok?
    requires fx.mkdirAll.None? && fx.mkdirTemp.Ok?
    ensures fresh(q) && q.Valid()
    ensures |q.tasks| == 1 && q.tasks[0].id == 1 && q.tasks[0].status == Processing && q.tasks[0].cmd == None
    ensures local.id == 1 && local.status == Processing
  {
    q := new QueueProcessor("", []);
    q.AddTask(input, preset, now);
    var claimed := q.ClaimNext(now);
    ghost var registered := q.tasks[0];
    var launch;
    local, launch := q.StartTask(claimed, Ok(probe), "", fx, "", now);
    SingleOverwrite(registered, claimed.MarkProcessing(now));
  }

  /** Writing back a task with the same id replaces a one-task registry. */
  lemma SingleOverwrite(t: Task, u: Task)
    requires t.id == u.id
    ensures Overwrite([t], u) == [u]
  {
  }
}
