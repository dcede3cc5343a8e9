/**
 * The second registry and scheduler (internal/processor/processor.go, task_state.go
 * and the state changes of resolve.go): tasks are shared by pointer in a map keyed by
 * id, an atomic counter hands out ids, a channel of capacity 100 feeds the worker, and
 * each task carries a `cancelled` flag.
 *
 * Locks and atomics are flattened: each method is one step. A send on the full
 * channel would block, so `AddTask` requires room; indexing the map with an unknown id
 * dereferences nil in the source, so the methods that do so require a known id.
 */
module Engine {
  import opened Wrappers
  import opened Text
  import opened Tasks
  import Config
  import Transcoding
  import Resolve

  /** The capacity of the task channel. */
  const QueueCapacity: nat := 100

  /** A `*task`: the task record, changed in place through the pointer, and its `cancelled` flag. */
  class SharedTask {
    var task: Task
    var cancelled: bool

    /** `newTask`: the record with the flag clear. */
    constructor (task: Task)
      ensures this.task == task && !cancelled
    {
      this.task := task;
      this.cancelled := false;
    }
  }

  /** `TaskState`: the snapshot `State()` copies out of a task. */
  datatype TaskState = TaskState(
    id: nat,
    createAt: Time,
    startedAt: Time,
    endedAt: Time,
    input: string,
    preset: string,
    tempFile: string,
    status: TaskStatus,
    progress: real,
    error: Option<string>)

  /** `State()`: every field of the snapshot is the task's field of the same name. */
  function StateOf(t: Task): (s: TaskState)
    ensures s.id == t.id && s.createAt == t.createdAt && s.startedAt == t.startedAt && s.endedAt == t.endedAt
    ensures s.input == t.input && s.preset == t.preset && s.tempFile == t.tempFile
    ensures s.status == t.status && s.progress == t.progress && s.error == t.error
  {
    TaskState(t.id, t.createdAt, t.startedAt, t.endedAt, t.input, t.preset, t.tempFile,
              t.status, t.progress, t.error)
  }

  /** The ids of a snapshot list strictly ascend. */
  predicate Ascending(s: seq<TaskState>) {
    forall i, j :: 0 <= i < j < |s| ==> s[i].id < s[j].id
  }

  /** `s` with `x` inserted at the place its id takes in ascending order. */
  function InsertById(s: seq<TaskState>, x: TaskState): (r: seq<TaskState>)
    requires Ascending(s) && forall i :: 0 <= i < |s| ==> s[i].id != x.id
    ensures Ascending(r) && |r| == |s| + 1
    ensures forall y :: y in r <==> y in s || y == x
  {
    if s == [] then [x]
    else if x.id < s[0].id then [x] + s
    else
      var rest := InsertById(s[1..], x);
      HeadBelowRest(s, x, rest);
      [s[0]] + rest
  }

  /** The head of an ascending list is below every element of its tail and below a larger `x`. */
  lemma HeadBelowRest(s: seq<TaskState>, x: TaskState, rest: seq<TaskState>)
    requires Ascending(s) && s != [] && s[0].id < x.id
    requires forall y :: y in rest ==> y in s[1..] || y == x
    ensures forall k :: 0 <= k < |rest| ==> s[0].id < rest[k].id
  {
    forall k | 0 <= k < |rest| ensures s[0].id < rest[k].id {
      if rest[k] != x {
        assert rest[k] in s[1..];
        var j :| 0 <= j < |s| - 1 && s[1..][j] == rest[k];
        assert s[j + 1] == rest[k];
      }
    }
  }

  /** The profile `getProfile` returns when none is named so. */
  const ZeroProfile: Transcoding.Profile := Transcoding.Profile("", map[], None)

  /**
   * The binary `NewProcessor` settles on: the custom build's path when the configured
   * URL is http(s) and its download succeeded, and "ffmpeg" in every other case
   * (no URL, another scheme, a failed download).
   */
  function FFmpegPath(customURL: string, downloadOk: bool): (path: string)
    ensures path == "./custom-ffmpeg" || path == "ffmpeg"
    ensures path == "./custom-ffmpeg" <==>
              (HasPrefix(customURL, "https://") || HasPrefix(customURL, "http://")) && downloadOk
  {
    if customURL == "" then "ffmpeg"
    else if HasPrefix(customURL, "https://") || HasPrefix(customURL, "http://") then
      if downloadOk then "./custom-ffmpeg" else "ffmpeg"
    else "ffmpeg"
  }

  class Processor {
    const config: Config.Config
    var taskAI: nat
    var tasks: map<nat, SharedTask>
    var queue: seq<SharedTask>

    /**
     * Every task is stored under its own id, which the counter has already handed out;
     * the channel holds at most `QueueCapacity` stored tasks, in ascending id order.
     */
    ghost predicate Valid()
      reads this, tasks.Values
    {
      && (forall id :: id in tasks ==> 1 <= id <= taskAI && tasks[id].task.id == id)
      && |queue| <= QueueCapacity
      && (forall i :: 0 <= i < |queue| ==> queue[i] in tasks.Values)
      && (forall i, j :: 0 <= i < j < |queue| ==> queue[i].task.id < queue[j].task.id)
    }

    /** `NewProcessor`: no tasks, an empty channel, the counter at 0. */
    constructor (config: Config.Config)
      ensures Valid() && this.config == config
      ensures taskAI == 0 && tasks == map[] && queue == []
    {
      this.config := config;
      taskAI := 0;
      tasks := map[];
      queue := [];
    }

    /**
     * `AddTask`: the counter rises by one; a new pending task with that id is stored
     * under it and sent to the channel. No stored task changes.
     */
    method AddTask(path: string, preset: string, now: Time) returns (t: SharedTask)
      requires Valid() && |queue| < QueueCapacity
      modifies this
      ensures Valid()
      ensures taskAI == old(taskAI) + 1 && old(taskAI) + 1 !in old(tasks)
      ensures fresh(t) && t.task == NewTask(taskAI, path, preset, now) && !t.cancelled
      ensures tasks == old(tasks)[taskAI := t]
      ensures queue == old(queue) + [t]
    {
      taskAI := taskAI + 1;
      t := new SharedTask(NewTask(taskAI, path, preset, now));
      ghost var before := tasks;
      tasks := tasks[taskAI := t];
      queue := queue + [t];
      forall i | 0 <= i < |queue|
        ensures queue[i] in tasks.Values && (i < |queue| - 1 ==> queue[i].task.id < taskAI)
      {
        if i < |queue| - 1 {
          assert queue[i] == old(queue)[i] && old(queue)[i] in before.Values;
          var k :| k in before && before[k] == queue[i];
          assert tasks[k] == queue[i] && queue[i].task.id == k;
        } else {
          assert tasks[taskAI] == t;
        }
      }
    }

    /**
     * `HasTask`: whether some stored task has this input and preset and is not
     * cancelled. It changes nothing.
     */
    method HasTask(path: string, preset: string) returns (found: bool)
      ensures found <==> exists id :: id in tasks && tasks[id].task.input == path
                                      && tasks[id].task.preset == preset && !tasks[id].cancelled
    {
      var todo := tasks.Keys;
      while todo != {}
        invariant todo <= tasks.Keys
        invariant forall id :: id in tasks && id !in todo ==>
                    !(tasks[id].task.input == path && tasks[id].task.preset == preset && !tasks[id].cancelled)
        decreases todo
      {
        var id :| id in todo;
        var t := tasks[id];
        if t.task.input == path && t.task.preset == preset && !t.cancelled {
          return true;
        }
        todo := todo - {id};
      }
      return false;
    }

    /**
     * `CancelTask`: sets the task's `cancelled` flag and signals its process when it has
     * a command; the record itself is not changed and the result is always nil.
     */
    method CancelTask(id: nat) returns (err: Option<string>, signalled: bool)
      requires Valid() && id in tasks
      requires tasks[id].task.cmd.Some? ==> tasks[id].task.cmd.value.started
      modifies tasks[id]
      ensures Valid()
      ensures tasks[id].cancelled && tasks[id].task == old(tasks[id].task)
      ensures signalled <==> tasks[id].task.cmd.Some?
      ensures err == None
    {
      var t := tasks[id];
      t.cancelled := true;
      signalled := t.task.cmd.Some?;
      err := None;
    }

    /** `getProfile`: the profile `Config.GetProfile` finds, or the zero profile. */
    method GetProfile(name: string) returns (p: Transcoding.Profile)
      ensures p == match Config.GetProfile(config, name) case Some(q) => q case None => ZeroProfile
    {
      var i := 0;
      while i < |config.profiles|
        invariant 0 <= i <= |config.profiles|
        invariant forall j :: 0 <= j < i ==> config.profiles[j].name != name
      {
        if config.profiles[i].name == name {
          assert Config.FirstNamed(config.profiles, name) == i;
          return config.profiles[i];
        }
        i := i + 1;
      }
      return ZeroProfile;
    }

    /**
     * The worker's receive from the channel: tasks leave in the order they were sent,
     * which is ascending id order.
     */
    method Dequeue() returns (t: SharedTask)
      requires Valid() && |queue| > 0
      modifies this
      ensures Valid() && tasks == old(tasks) && taskAI == old(taskAI)
      ensures t == old(queue[0]) && queue == old(queue[1..])
      ensures forall i :: 0 <= i < |queue| ==> t.task.id < queue[i].task.id
    {
      t := queue[0];
      queue := queue[1..];
    }

    /** `GetTask`: the snapshot of the task stored under `id`. */
    method GetTask(id: nat) returns (s: TaskState)
      requires id in tasks
      ensures s == StateOf(tasks[id].task)
      ensures s.id == tasks[id].task.id && s.status == tasks[id].task.status
    {
      s := StateOf(tasks[id].task);
    }

    /**
     * `GetQueue`: one snapshot per stored task, in ascending id order. The snapshots are
     * collected in the map's order and then sorted by id.
     */
    method GetQueue() returns (snapshot: seq<TaskState>)
      requires Valid()
      ensures Ascending(snapshot)
      ensures forall id :: id in tasks ==> StateOf(tasks[id].task) in snapshot
      ensures forall s :: s in snapshot ==> s.id in tasks && s == StateOf(tasks[s.id].task)
    {
      var collected: seq<TaskState> := [];
      var todo := tasks.Keys;
      while todo != {}
        invariant todo <= tasks.Keys
        invariant forall id :: id in tasks && id !in todo ==> StateOf(tasks[id].task) in collected
        invariant forall s :: s in collected ==> s.id in tasks && s.id !in todo && s == StateOf(tasks[s.id].task)
        invariant forall i, j :: 0 <= i < j < |collected| ==> collected[i].id != collected[j].id
        decreases todo
      {
        var id :| id in todo;
        collected := collected + [StateOf(tasks[id].task)];
        todo := todo - {id};
      }

      snapshot := [];
      var i := 0;
      while i < |collected|
        invariant 0 <= i <= |collected|
        invariant Ascending(snapshot)
        invariant forall s :: s in snapshot <==> s in collected[..i]
      {
        assert forall s :: s in snapshot ==> s.id != collected[i].id by {
          forall s | s in snapshot ensures s.id != collected[i].id {
            var j :| 0 <= j < i && collected[j] == s;
          }
        }
        snapshot := InsertById(snapshot, collected[i]);
        assert collected[..i + 1] == collected[..i] + [collected[i]];
        i := i + 1;
      }
      assert collected[..i] == collected;
    }

    /**
     * The synchronous part of `ResolveTask`: a task waiting for resolution becomes
     * `replacing` at once, so a second call on it is refused; a task in any other status
     * is left unchanged.
     */
    method ResolveTask(id: nat) returns (accepted: bool)
      requires Valid() && id in tasks
      modifies tasks[id]
      ensures Valid()
      ensures accepted <==> old(tasks[id].task.status) == WaitingForResolution
      ensures tasks[id].task == if accepted then old(tasks[id].task).MarkStatusReplacing() else old(tasks[id].task)
      ensures tasks[id].cancelled == old(tasks[id].cancelled)
      ensures accepted ==> LegalEdge(old(tasks[id].task.status), tasks[id].task.status)
    {
      var t := tasks[id];
      if t.task.status != WaitingForResolution {
        return false;
      }
      t.task := t.task.MarkStatusReplacing();
      accepted := true;
    }

    /**
     * The background half of `ResolveTask`: `resolveTask` runs on the filesystem, then
     * the task is failed with its error, or completed.
     */
    method FinishResolution(t: SharedTask, fs: Resolve.FileSystem, replace: bool,
                            fx: Resolve.ResolveFaults, now: Time)
      returns (err: Option<string>)
      requires Valid() && t in tasks.Values
      modifies t, fs
      ensures Valid()
      ensures var out := Resolve.ResolveFilesSpec(old(fs.files), old(t.task), replace, fx);
              && fs.files == out.files && err == out.err
              && t.task == if err.Some? then old(t.task).MarkFailed(err.value, now) else old(t.task).MarkCompleted(now)
      ensures t.cancelled == old(t.cancelled)
      ensures old(t.task.status) == Replacing ==> LegalEdge(old(t.task.status), t.task.status)
    {
      err := Resolve.ResolveFiles(fs, t.task, replace, fx);
      if err.Some? {
        t.task := t.task.MarkFailed(err.value, now);
      } else {
        t.task := t.task.MarkCompleted(now);
      }
    }
  }

  /**
   * A resolution is accepted at most once: after the first call the task is `replacing`,
   * so a second call on the record it leaves is refused.
   */
  lemma ResolveAcceptsOnce(t: Task)
    requires t.status == WaitingForResolution
    ensures t.MarkStatusReplacing().status != WaitingForResolution
    ensures LegalEdge(t.status, t.MarkStatusReplacing().status)
  {
  }
}
