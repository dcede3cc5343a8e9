/**
 * The decisions the web server makes around the processor (cmd/easy-transcoder/main.go):
 * the auto-reject size policy and its scan of waiting tasks, the batch submission
 * filter and walk, the mapping of a task snapshot to its view, and the id checks of
 * the resolver page. HTTP, templates and logging are not modelled; each handler is
 * given its request values and returns what it decides.
 */
module Server {
  import opened Wrappers
  import opened Text
  import Seqs
  import opened Paths
  import opened Numbers
  import opened Tasks
  import opened FFProbe
  import Transcoding
  import Config
  import Engine
  import Resolve

  /** `getFileSize`: an empty path is refused before `os.Stat`; a missing file fails `os.Stat`. */
  function GetFileSize(files: Resolve.Files, path: string): (r: Result<nat>)
    ensures path == "" ==> r == Err("file path is empty")
    ensures path != "" && path in files ==> r == Ok(|files[path].data|)
    ensures r.Ok? <==> path != "" && path in files
  {
    if path == "" then Err("file path is empty")
    else if path !in files then Err(Resolve.NotExistError("stat", path))
    else Ok(|files[path].data|)
  }

  /**
   * `handleTaskWaitingForResolution`: with auto-reject on and both sizes readable, a
   * result strictly larger than the original is rejected (`ResolveTask(id, false)`);
   * otherwise nothing is resolved.
   */
  function AutoReject(enabled: bool, st: Engine.TaskState, files: Resolve.Files): (reject: Option<nat>)
    ensures reject.Some? ==> reject.value == st.id
    ensures reject.Some? <==>
              && enabled
              && GetFileSize(files, st.input).Ok?
              && GetFileSize(files, st.tempFile).Ok?
              && GetFileSize(files, st.tempFile).value > GetFileSize(files, st.input).value
  {
    if !enabled then None
    else
      var originalSize := GetFileSize(files, st.input);
      if originalSize.Err? then None
      else
        var resultSize := GetFileSize(files, st.tempFile);
        if resultSize.Err? then None
        else if resultSize.value > originalSize.value then Some(st.id)
        else None
  }

  /** A result of equal size is kept, like a smaller one. */
  lemma EqualSizeIsKept(st: Engine.TaskState, files: Resolve.Files)
    requires st.input in files && st.tempFile in files && st.input != "" && st.tempFile != ""
    requires |files[st.input].data| == |files[st.tempFile].data|
    ensures AutoReject(true, st, files) == None
  {
  }

  /** The ids the scan rejects: waiting tasks, in queue order, that the policy rejects. */
  function Rejections(queue: seq<Engine.TaskState>, files: Resolve.Files): (ids: seq<nat>)
    ensures |ids| <= |queue|
    ensures forall id :: id in ids ==>
              exists i :: 0 <= i < |queue| && queue[i].id == id && queue[i].status == WaitingForResolution
                          && AutoReject(true, queue[i], files) == Some(id)
  {
    if queue == [] then []
    else
      var rest := Rejections(queue[1..], files);
      if queue[0].status == WaitingForResolution && AutoReject(true, queue[0], files).Some? then
        [queue[0].id] + rest
      else rest
  }

  /** The scan rejects the snapshot: it is waiting, and the policy, switched on, rejects it. */
  predicate Rejected(st: Engine.TaskState, files: Resolve.Files) {
    st.status == WaitingForResolution && AutoReject(true, st, files).Some?
  }

  /** Every waiting task that the policy rejects is listed. */
  lemma {:induction false} RejectionsComplete(queue: seq<Engine.TaskState>, files: Resolve.Files)
    ensures forall i :: 0 <= i < |queue| && Rejected(queue[i], files) ==> queue[i].id in Rejections(queue, files)
    decreases |queue|
  {
    if queue != [] {
      RejectionsComplete(queue[1..], files);
      forall i | 0 <= i < |queue| && Rejected(queue[i], files)
        ensures queue[i].id in Rejections(queue, files)
      {
        if i > 0 {
          assert queue[1..][i - 1] == queue[i];
        }
      }
    }
  }

  /** The positions, counted from `offset`, of the snapshots the scan rejects, in queue order. */
  ghost function RejectedPositions(queue: seq<Engine.TaskState>, files: Resolve.Files, offset: nat): seq<nat>
    decreases |queue|
  {
    if queue == [] then []
    else (if Rejected(queue[0], files) then [offset] else []) + RejectedPositions(queue[1..], files, offset + 1)
  }

  /**
   * `pos` are ascending positions (counted from `offset`) of rejected snapshots of
   * `queue`, and `ids` lists those snapshots' ids, one for one.
   */
  ghost predicate ListedAt(queue: seq<Engine.TaskState>, files: Resolve.Files, offset: nat,
                           pos: seq<nat>, ids: seq<nat>) {
    && |pos| == |ids|
    && (forall a :: 0 <= a < |pos| ==>
          offset <= pos[a] < offset + |queue| && Rejected(queue[pos[a] - offset], files)
          && ids[a] == queue[pos[a] - offset].id)
    && (forall a, b :: 0 <= a < b < |pos| ==> pos[a] < pos[b])
  }

  /** The listed ids are those of rejected snapshots at strictly ascending positions: the list keeps queue order. */
  lemma {:induction false} RejectionsInOrder(queue: seq<Engine.TaskState>, files: Resolve.Files, offset: nat)
    ensures ListedAt(queue, files, offset, RejectedPositions(queue, files, offset), Rejections(queue, files))
    decreases |queue|
  {
    if queue != [] {
      RejectionsInOrder(queue[1..], files, offset + 1);
      var tail := RejectedPositions(queue[1..], files, offset + 1);
      var ids := Rejections(queue[1..], files);
      if Rejected(queue[0], files) {
        assert RejectedPositions(queue, files, offset) == [offset] + tail;
        assert Rejections(queue, files) == [queue[0].id] + ids;
        ListedCons(queue, files, offset, tail, ids);
      } else {
        assert RejectedPositions(queue, files, offset) == tail;
        assert Rejections(queue, files) == ids;
        ListedSkip(queue, files, offset, tail, ids);
      }
    }
  }

  /** A rejected head snapshot is listed first, ahead of the rest's listing. */
  lemma ListedCons(queue: seq<Engine.TaskState>, files: Resolve.Files, offset: nat, tail: seq<nat>, ids: seq<nat>)
    requires queue != [] && Rejected(queue[0], files)
    requires ListedAt(queue[1..], files, offset + 1, tail, ids)
    ensures ListedAt(queue, files, offset, [offset] + tail, [queue[0].id] + ids)
  {
    var pos := [offset] + tail;
    var all := [queue[0].id] + ids;
    forall a | 0 <= a < |pos|
      ensures offset <= pos[a] < offset + |queue| && Rejected(queue[pos[a] - offset], files)
              && all[a] == queue[pos[a] - offset].id
    {
      if a > 0 {
        assert pos[a] == tail[a - 1] && all[a] == ids[a - 1];
        assert queue[1..][tail[a - 1] - offset - 1] == queue[pos[a] - offset];
      }
    }
    forall a, b | 0 <= a < b < |pos| ensures pos[a] < pos[b] {
      assert pos[b] == tail[b - 1];
      if a > 0 {
        assert pos[a] == tail[a - 1];
      }
    }
  }

  /** A head snapshot that is not rejected leaves the rest's listing as it is. */
  lemma ListedSkip(queue: seq<Engine.TaskState>, files: Resolve.Files, offset: nat, tail: seq<nat>, ids: seq<nat>)
    requires queue != []
    requires ListedAt(queue[1..], files, offset + 1, tail, ids)
    ensures ListedAt(queue, files, offset, tail, ids)
  {
    forall a | 0 <= a < |tail|
      ensures queue[1..][tail[a] - offset - 1] == queue[tail[a] - offset]
    {
    }
  }

  /** How many snapshots are waiting for resolution. */
  function CountWaiting(queue: seq<Engine.TaskState>): nat {
    if queue == [] then 0
    else (if queue[0].status == WaitingForResolution then 1 else 0) + CountWaiting(queue[1..])
  }

  /** What the scan does with the first snapshot of a queue, and then the rest. */
  lemma ScanFront(queue: seq<Engine.TaskState>, files: Resolve.Files)
    requires queue != []
    ensures Rejections(queue, files)
            == (if Rejected(queue[0], files) then [queue[0].id] else []) + Rejections(queue[1..], files)
    ensures CountWaiting(queue)
            == (if queue[0].status == WaitingForResolution then 1 else 0) + CountWaiting(queue[1..])
  {
  }

  /** A queue with no waiting task yields no rejection, whatever the file sizes. */
  lemma {:induction false} NoWaitingNoRejections(queue: seq<Engine.TaskState>, files: Resolve.Files)
    requires forall i :: 0 <= i < |queue| ==> queue[i].status != WaitingForResolution
    ensures Rejections(queue, files) == [] && CountWaiting(queue) == 0
  {
    if queue != [] {
      NoWaitingNoRejections(queue[1..], files);
    }
  }

  /** A stand-in for `elements.TaskState`, the view of a task the pages render. */
  datatype ViewState = ViewState(
    id: string,
    preset: string,
    fileName: string,
    status: TaskStatus,
    progress: real,
    inputFile: string,
    tempFile: string,
    createdAt: Time,
    error: string)

  /** The zero `elements.TaskState`. */
  const EmptyView: ViewState := ViewState("", "", "", Unset, 0.0, "", "", ZeroTime, "")

  /**
   * `mapTaskState`: the id as `strconv.Itoa(int(id))`, the file name as the input's base,
   * and the error's message, or "" when there is no error.
   */
  function MapTaskState(st: Engine.TaskState): (v: ViewState)
    requires st.id < TwoTo64
    ensures v.fileName == Base(st.input) && v.inputFile == st.input && v.tempFile == st.tempFile
    ensures v.preset == st.preset && v.status == st.status && v.progress == st.progress
    ensures v.createdAt == st.createAt
    ensures st.error.None? ==> v.error == ""
    ensures st.error.Some? ==> v.error == st.error.value
    ensures v.id != ""
  {
    ViewState(Itoa(Int64OfUint64(st.id)), st.preset, Base(st.input), st.status, st.progress,
              st.input, st.tempFile, st.createAt, if st.error.Some? then st.error.value else "")
  }

  /** Go's conversion `uint64(i)` of an `int`: negative values wrap. */
  function Uint64OfInt(i: int): (r: nat)
    requires MinInt64 <= i <= MaxInt64
    ensures r < TwoTo64
    ensures r == i || r == i + TwoTo64
  {
    if i < 0 then i + TwoTo64 else i
  }

  /** The text of a `*strconv.NumError` from `Atoi`. */
  function AtoiErrorText(s: string, e: NumError): string {
    "strconv.Atoi: parsing " + Quote(s) + ": " + (if e == ErrSyntax then "invalid syntax" else "value out of range")
  }

  /** Index of the first snapshot with id `id`, or `|queue|` when there is none. */
  function FindId(queue: seq<Engine.TaskState>, id: nat): (k: nat)
    ensures k <= |queue|
    ensures k < |queue| ==> queue[k].id == id
    ensures forall i :: 0 <= i < k ==> queue[i].id != id
  {
    Seqs.FirstWhere(queue, (t: Engine.TaskState) => t.id == id)
  }

  datatype ResolverResponse =
    | BadRequest(msg: string)
    | NotFound(msg: string)
    | ResolverPage(state: ViewState)

  /**
   * `pageResolver`: a task id that does not parse is a bad request, id 0 is not found;
   * otherwise the page shows the first snapshot with that id (as `uint64`), or an empty
   * view when there is none.
   */
  function PageResolver(taskIdS: string, queue: seq<Engine.TaskState>): (r: ResolverResponse)
    requires forall i :: 0 <= i < |queue| ==> queue[i].id < TwoTo64
    ensures r.BadRequest? <==> Atoi(taskIdS).err.Some?
    ensures r.BadRequest? ==> r.msg == AtoiErrorText(taskIdS, Atoi(taskIdS).err.value)
    ensures r.NotFound? <==> Atoi(taskIdS).err.None? && Atoi(taskIdS).value == 0
    ensures r.ResolverPage? ==>
              (r.state == EmptyView <==>
                 forall i :: 0 <= i < |queue| ==> queue[i].id != Uint64OfInt(Atoi(taskIdS).value))
    ensures r.ResolverPage? && r.state != EmptyView ==>
              exists i :: 0 <= i < |queue| && r.state == MapTaskState(queue[i])
                          && queue[i].id == Uint64OfInt(Atoi(taskIdS).value)
  {
    var parsed := Atoi(taskIdS);
    if parsed.err.Some? then BadRequest(AtoiErrorText(taskIdS, parsed.err.value))
    else if parsed.value == 0 then NotFound("Task ID not found")
    else
      var k := FindId(queue, Uint64OfInt(parsed.value));
      if k < |queue| then ResolverPage(MapTaskState(queue[k])) else ResolverPage(EmptyView)
  }

  /**
   * The id a view shows leads the resolver page back to that task: for every non-zero
   * `uint64` id, including those `int` shows as negative, the page parses the view's id
   * and finds the first snapshot with it.
   */
  lemma ResolverFindsMappedTask(queue: seq<Engine.TaskState>, k: nat)
    requires forall i :: 0 <= i < |queue| ==> queue[i].id < TwoTo64
    requires k < |queue| && queue[k].id != 0
    requires forall i :: 0 <= i < k ==> queue[i].id != queue[k].id
    ensures PageResolver(MapTaskState(queue[k]).id, queue) == ResolverPage(MapTaskState(queue[k]))
  {
    var v := Int64OfUint64(queue[k].id);
    AtoiItoa(v);
    assert Uint64OfInt(v) == queue[k].id;
    assert FindId(queue, queue[k].id) == k;
  }

  /**
   * The walk callback's file checks: the lower-cased extension is a video extension and
   * the profile's exclude filter (if any) neither fails nor matches.
   */
  function PassesFilters(path: string, profile: Transcoding.Profile, probe: Result<ProbeJson>): (ok: bool)
    ensures ok <==>
              && ToLower(Ext(path)) in Transcoding.VideoExtensions
              && (profile.batchExcludeFilter.Some? ==>
                    Transcoding.Matches(profile.batchExcludeFilter.value, probe) == Transcoding.MatchOutcome(false, None))
  {
    var ext := ToLower(Ext(path));
    if ext !in Transcoding.VideoExtensions then false
    else if profile.batchExcludeFilter.Some? then
      var m := Transcoding.Matches(profile.batchExcludeFilter.value, probe);
      if m.err.Some? then false
      else !m.matched
    else true
  }

  /** A walked path is queued when it passes the file checks and has no live task for the profile. */
  predicate Admit(path: string, profile: Transcoding.Profile, probe: Result<ProbeJson>, hasTask: bool) {
    PassesFilters(path, profile, probe) && !hasTask
  }

  /**
   * The paths a batch walk queues, in walk order. `known` holds the inputs that already
   * have a live task for the profile; each queued path is a live task for the next ones.
   */
  function BatchAdds(paths: seq<string>, probes: seq<Result<ProbeJson>>, profile: Transcoding.Profile,
                     known: set<string>): (adds: seq<string>)
    requires |probes| == |paths|
    ensures |adds| <= |paths|
    decreases |paths|
  {
    if paths == [] then []
    else
      var n := |paths| - 1;
      var before := BatchAdds(paths[..n], probes[..n], profile, known);
      if Admit(paths[n], profile, probes[n], paths[n] in known || paths[n] in before) then before + [paths[n]]
      else before
  }

  /**
   * Every queued path was visited and passed the extension and exclude filters against
   * its own probe; none already had a live task, and none is queued twice. Conversely,
   * every visited path that passes the filters and had no live task is queued.
   */
  lemma BatchAddsAdmitted(paths: seq<string>, probes: seq<Result<ProbeJson>>,
                          profile: Transcoding.Profile, known: set<string>)
    requires |probes| == |paths|
    ensures var adds := BatchAdds(paths, probes, profile, known);
            && (forall a :: a in adds ==>
                  a !in known && exists i :: 0 <= i < |paths| && paths[i] == a && PassesFilters(a, profile, probes[i]))
            && Seqs.NoRepeats(adds)
            && (forall i :: 0 <= i < |paths| && paths[i] !in known && PassesFilters(paths[i], profile, probes[i])
                  ==> paths[i] in adds)
  {
    BatchAddsSound(paths, probes, profile, known);
    BatchAddsDistinct(paths, probes, profile, known);
    BatchAddsComplete(paths, probes, profile, known);
  }

  /** Each queued path was visited, passed the filters against its own probe and had no live task. */
  lemma {:induction false} BatchAddsSound(paths: seq<string>, probes: seq<Result<ProbeJson>>,
                                          profile: Transcoding.Profile, known: set<string>)
    requires |probes| == |paths|
    ensures forall a :: a in BatchAdds(paths, probes, profile, known) ==>
              a !in known && exists i :: 0 <= i < |paths| && paths[i] == a && PassesFilters(a, profile, probes[i])
    decreases |paths|
  {
    if paths != [] {
      var n := |paths| - 1;
      BatchAddsSound(paths[..n], probes[..n], profile, known);
      var before := BatchAdds(paths[..n], probes[..n], profile, known);
      var adds := BatchAdds(paths, probes, profile, known);
      forall a | a in adds
        ensures a !in known && exists i :: 0 <= i < |paths| && paths[i] == a && PassesFilters(a, profile, probes[i])
      {
        if a in before {
          var i :| 0 <= i < n && paths[..n][i] == a && PassesFilters(a, profile, probes[..n][i]);
          assert paths[i] == a && probes[i] == probes[..n][i];
        } else {
          assert a == paths[n];
        }
      }
    }
  }

  /** No path is queued twice in one walk. */
  lemma {:induction false} BatchAddsDistinct(paths: seq<string>, probes: seq<Result<ProbeJson>>,
                                             profile: Transcoding.Profile, known: set<string>)
    requires |probes| == |paths|
    ensures Seqs.NoRepeats(BatchAdds(paths, probes, profile, known))
    decreases |paths|
  {
    if paths != [] {
      var n := |paths| - 1;
      BatchAddsDistinct(paths[..n], probes[..n], profile, known);
      var before := BatchAdds(paths[..n], probes[..n], profile, known);
      if Admit(paths[n], profile, probes[n], paths[n] in known || paths[n] in before) {
        Seqs.NoRepeatsAppend(before, paths[n]);
      }
    }
  }

  /** Every visited path that passes the filters and had no live task is queued. */
  lemma BatchAddsComplete(paths: seq<string>, probes: seq<Result<ProbeJson>>,
                          profile: Transcoding.Profile, known: set<string>)
    requires |probes| == |paths|
    ensures forall i :: 0 <= i < |paths| && paths[i] !in known && PassesFilters(paths[i], profile, probes[i])
              ==> paths[i] in BatchAdds(paths, probes, profile, known)
  {
    forall i | 0 <= i < |paths| && paths[i] !in known && PassesFilters(paths[i], profile, probes[i])
      ensures paths[i] in BatchAdds(paths, probes, profile, known)
    {
      QueuedWhenEligible(paths, probes, i, profile, known);
    }
  }

  /** One visited path that passes the filters and had no live task is queued. */
  lemma {:induction false} QueuedWhenEligible(paths: seq<string>, probes: seq<Result<ProbeJson>>, i: nat,
                                              profile: Transcoding.Profile, known: set<string>)
    requires |probes| == |paths| && i < |paths|
    requires paths[i] !in known && PassesFilters(paths[i], profile, probes[i])
    ensures paths[i] in BatchAdds(paths, probes, profile, known)
    decreases |paths|
  {
    var n := |paths| - 1;
    if i < n {
      assert paths[..n][i] == paths[i] && probes[..n][i] == probes[i];
      QueuedWhenEligible(paths[..n], probes[..n], i, profile, known);
      BatchAddsKeeps(paths, probes, profile, known, paths[i]);
    } else {
      BatchAddsQueuesLast(paths, probes, i, profile, known);
    }
  }

  /** Visiting the last path keeps a path queued before it. */
  lemma BatchAddsKeeps(paths: seq<string>, probes: seq<Result<ProbeJson>>,
                       profile: Transcoding.Profile, known: set<string>, a: string)
    requires |probes| == |paths| && paths != []
    requires a in BatchAdds(paths[..|paths| - 1], probes[..|paths| - 1], profile, known)
    ensures a in BatchAdds(paths, probes, profile, known)
  {
  }

  /** Visiting the last path queues it when it passes the filters and had no live task (unless it already was). */
  lemma BatchAddsQueuesLast(paths: seq<string>, probes: seq<Result<ProbeJson>>, last: nat,
                            profile: Transcoding.Profile, known: set<string>)
    requires |probes| == |paths| && last == |paths| - 1
    requires paths[last] !in known && PassesFilters(paths[last], profile, probes[last])
    ensures paths[last] in BatchAdds(paths, probes, profile, known)
  {
  }

  /** Visiting one more path of the walk either queues it or not, as `Admit` decides. */
  lemma BatchAddsStep(paths: seq<string>, probes: seq<Result<ProbeJson>>, i: nat,
                      profile: Transcoding.Profile, known: set<string>)
    requires |probes| == |paths| && i < |paths|
    ensures var before := BatchAdds(paths[..i], probes[..i], profile, known);
            BatchAdds(paths[..i + 1], probes[..i + 1], profile, known)
            == if Admit(paths[i], profile, probes[i], paths[i] in known || paths[i] in before)
               then before + [paths[i]] else before
  {
    assert paths[..i + 1][..i] == paths[..i] && probes[..i + 1][..i] == probes[..i];
  }

  /** Each stored task's record and `cancelled` flag, by id, as they are at one moment. */
  ghost function Snapshot(p: Engine.Processor): (snap: map<nat, (Task, bool)>)
    reads p, p.tasks.Values
    ensures snap.Keys == p.tasks.Keys
  {
    map id | id in p.tasks :: (p.tasks[id].task, p.tasks[id].cancelled)
  }

  /** The inputs that have a live (not cancelled) task for `preset` in a snapshot. */
  function KnownInputs(snap: map<nat, (Task, bool)>, preset: string): set<string> {
    set id | id in snap && snap[id].0.preset == preset && !snap[id].1 :: snap[id].0.input
  }

  /** The server's one piece of mutable state, the auto-reject switch. */
  class Server {
    var autoRejectLarger: bool

    constructor ()
      ensures !autoRejectLarger
    {
      autoRejectLarger := false;
    }

    /**
     * `submitAutoRejectSetting`: the switch is on exactly when the form's checkbox value
     * is "on"; switching it on scans the existing tasks at once.
     */
    method SubmitAutoRejectSetting(formValue: string, queue: seq<Engine.TaskState>, files: Resolve.Files)
      returns (rejects: seq<nat>)
      modifies this
      ensures autoRejectLarger <==> formValue == "on"
      ensures rejects == if autoRejectLarger then Rejections(queue, files) else []
    {
      autoRejectLarger := formValue == "on";
      rejects := [];
      if autoRejectLarger {
        var waiting;
        rejects, waiting := ProcessExistingWaitingTasks(queue, files);
      }
    }

    /**
     * `processExistingWaitingTasks` over a `GetQueue` snapshot: the policy is applied to
     * each waiting task, first to last, and the ids to reject are returned with the
     * number of waiting tasks seen.
     */
    method ProcessExistingWaitingTasks(queue: seq<Engine.TaskState>, files: Resolve.Files)
      returns (rejects: seq<nat>, waitingCount: nat)
      ensures waitingCount == CountWaiting(queue)
      ensures rejects == if autoRejectLarger then Rejections(queue, files) else []
    {
      rejects, waitingCount := [], 0;
      var i := 0;
      while i < |queue|
        invariant 0 <= i <= |queue|
        invariant waitingCount + CountWaiting(queue[i..]) == CountWaiting(queue)
        invariant autoRejectLarger ==> rejects + Rejections(queue[i..], files) == Rejections(queue, files)
        invariant !autoRejectLarger ==> rejects == []
      {
        assert queue[i..][0] == queue[i] && queue[i..][1..] == queue[i + 1..];
        ScanFront(queue[i..], files);
        if queue[i].status == WaitingForResolution {
          waitingCount := waitingCount + 1;
          var reject := AutoReject(autoRejectLarger, queue[i], files);
          if reject.Some? {
            rejects := rejects + [reject.value];
          }
        }
        i := i + 1;
      }
    }
  }

  /** The ids after `ai0` hold, in order, fresh live tasks for `adds` under the profile. */
  ghost predicate Appended(p: Engine.Processor, profileName: string, now: Time, ai0: nat, adds: seq<string>)
    reads p, p.tasks.Values
  {
    forall id :: ai0 < id <= ai0 + |adds| ==>
      id in p.tasks && p.tasks[id].task == NewTask(id, adds[id - ai0 - 1], profileName, now)
      && !p.tasks[id].cancelled
  }

  /**
   * What a batch walk has done so far: the processor is valid, every task it had is
   * still stored with the record and flag it had, and the tasks added so far hold `adds`,
   * in order, under the ids after `ai0`; no other id was added.
   */
  ghost predicate Batched(p: Engine.Processor, profileName: string, now: Time,
                          snap0: map<nat, (Task, bool)>, ai0: nat, tasks0: map<nat, Engine.SharedTask>,
                          adds: seq<string>)
    reads p, p.tasks.Values
  {
    && p.Valid()
    && p.taskAI == ai0 + |adds|
    && tasks0.Keys == snap0.Keys
    && (forall id :: id in tasks0 ==>
          id in p.tasks && p.tasks[id] == tasks0[id]
          && p.tasks[id].task == snap0[id].0 && p.tasks[id].cancelled == snap0[id].1)
    && Appended(p, profileName, now, ai0, adds)
    && (forall id :: id in p.tasks ==> id in tasks0 || ai0 < id <= ai0 + |adds|)
  }

  /**
   * The channel `queue` holds `q0` followed by the `n` tasks stored in `tasks` under the
   * ids after `ai0`, in id order.
   */
  ghost predicate Sent(queue: seq<Engine.SharedTask>, tasks: map<nat, Engine.SharedTask>, ai0: nat,
                       q0: seq<Engine.SharedTask>, n: nat)
  {
    && |queue| == |q0| + n
    && queue[..|q0|] == q0
    && Run(queue[|q0|..], tasks, ai0)
  }

  /** `run[k]` is the task stored under id `ai0 + k + 1`, for every position `k`. */
  ghost predicate Run(run: seq<Engine.SharedTask>, tasks: map<nat, Engine.SharedTask>, ai0: nat) {
    forall k :: 0 <= k < |run| ==> Stored(tasks, ai0 + k + 1, run[k])
  }

  /** `t` is the task stored under `id`. */
  ghost predicate Stored(tasks: map<nat, Engine.SharedTask>, id: int, t: Engine.SharedTask) {
    id in tasks && tasks[id] == t
  }

  /** Under `Batched`, `HasTask` answers whether the path was known at the start or added since. */
  lemma HasTaskInBatch(p: Engine.Processor, profileName: string, now: Time, snap0: map<nat, (Task, bool)>,
                       ai0: nat, tasks0: map<nat, Engine.SharedTask>, adds: seq<string>, path: string)
    requires Batched(p, profileName, now, snap0, ai0, tasks0, adds)
    ensures (exists id :: id in p.tasks && p.tasks[id].task.input == path
                          && p.tasks[id].task.preset == profileName && !p.tasks[id].cancelled)
            <==> path in KnownInputs(snap0, profileName) || path in adds
  {
    if exists id :: id in p.tasks && p.tasks[id].task.input == path
                    && p.tasks[id].task.preset == profileName && !p.tasks[id].cancelled {
      var id :| id in p.tasks && p.tasks[id].task.input == path
                && p.tasks[id].task.preset == profileName && !p.tasks[id].cancelled;
      if id in tasks0 {
        assert snap0[id].0.input in KnownInputs(snap0, profileName);
      } else {
        assert adds[id - ai0 - 1] == path;
      }
    }
    if path in KnownInputs(snap0, profileName) {
      var id :| id in snap0 && snap0[id].0.preset == profileName && !snap0[id].1 && snap0[id].0.input == path;
      assert p.tasks[id].task.input == path;
    } else if path in adds {
      var k :| 0 <= k < |adds| && adds[k] == path;
      assert adds[(ai0 + k + 1) - ai0 - 1] == path;
      assert p.tasks[ai0 + k + 1].task.input == path;
    }
  }

  /** Queuing one more path of the walk keeps `Batched`, with the path appended. */
  method BatchAdd(p: Engine.Processor, profileName: string, path: string, now: Time,
                  ghost snap0: map<nat, (Task, bool)>, ghost ai0: nat,
                  ghost tasks0: map<nat, Engine.SharedTask>, ghost q0: seq<Engine.SharedTask>,
                  ghost adds: seq<string>)
    returns (ghost adds': seq<string>)
    requires Batched(p, profileName, now, snap0, ai0, tasks0, adds)
    requires Sent(p.queue, p.tasks, ai0, q0, |adds|)
    requires |p.queue| < Engine.QueueCapacity
    modifies p
    ensures adds' == adds + [path]
    ensures Batched(p, profileName, now, snap0, ai0, tasks0, adds')
    ensures Sent(p.queue, p.tasks, ai0, q0, |adds'|)
    ensures p.taskAI in p.tasks && p.tasks == old(p.tasks)[p.taskAI := p.tasks[p.taskAI]]
    ensures p.queue == old(p.queue) + [p.tasks[p.taskAI]]
  {
    ghost var tasksBefore, queueBefore := p.tasks, p.queue;
    var t := p.AddTask(path, profileName, now);
    adds' := adds + [path];
    assert p.taskAI == ai0 + |adds'| && p.tasks == tasksBefore[p.taskAI := t];
    forall id | id in tasks0 ensures id in p.tasks && p.tasks[id] == tasks0[id] {
      assert id in tasksBefore && tasksBefore[id] == tasks0[id] && id < p.taskAI;
    }
    forall id | ai0 < id <= ai0 + |adds'|
      ensures id in p.tasks && p.tasks[id].task == NewTask(id, adds'[id - ai0 - 1], profileName, now)
              && !p.tasks[id].cancelled
    {
      if id < p.taskAI {
        assert adds'[id - ai0 - 1] == adds[id - ai0 - 1];
        assert p.tasks[id] == tasksBefore[id];
      }
    }
    assert forall id :: id in p.tasks ==> id in tasks0 || ai0 < id <= ai0 + |adds'|;
    SentOneMore(queueBefore, tasksBefore, ai0, q0, |adds|, p.taskAI, t);
  }

  /** Storing a task under the next id and sending it extends what the channel holds by that task. */
  lemma SentOneMore(queue: seq<Engine.SharedTask>, tasks: map<nat, Engine.SharedTask>, ai0: nat,
                    q0: seq<Engine.SharedTask>, n: nat, id: nat, t: Engine.SharedTask)
    requires Sent(queue, tasks, ai0, q0, n) && id == ai0 + n + 1
    ensures Sent(queue + [t], tasks[id := t], ai0, q0, n + 1)
  {
    var run := queue[|q0|..];
    assert (queue + [t])[..|q0|] == queue[..|q0|];
    assert (queue + [t])[|q0|..] == run + [t];
    RunOneMore(run, tasks, ai0, id, t);
  }

  /** A run of stored tasks extends by the task stored under the next id. */
  lemma RunOneMore(run: seq<Engine.SharedTask>, tasks: map<nat, Engine.SharedTask>, ai0: nat,
                   id: nat, t: Engine.SharedTask)
    requires Run(run, tasks, ai0) && id == ai0 + |run| + 1
    ensures Run(run + [t], tasks[id := t], ai0)
  {
    var run', tasks' := run + [t], tasks[id := t];
    forall k | 0 <= k < |run'|
      ensures Stored(tasks', ai0 + k + 1, run'[k])
    {
      if k < |run| {
        assert run'[k] == run[k] && Stored(tasks, ai0 + k + 1, run[k]);
      }
    }
  }

  /**
   * One visit of the walk callback: the file checks, then `HasTask`, then an admitted
   * path is queued, which stores its task and sends it to the channel.
   */
  method BatchVisit(p: Engine.Processor, profile: Transcoding.Profile, profileName: string, path: string,
                    probe: Result<ProbeJson>, now: Time, ghost snap0: map<nat, (Task, bool)>, ghost ai0: nat,
                    ghost tasks0: map<nat, Engine.SharedTask>, ghost q0: seq<Engine.SharedTask>,
                    ghost adds: seq<string>)
    returns (ghost adds': seq<string>)
    requires Batched(p, profileName, now, snap0, ai0, tasks0, adds)
    requires Sent(p.queue, p.tasks, ai0, q0, |adds|)
    requires |p.queue| < Engine.QueueCapacity
    modifies p
    ensures Batched(p, profileName, now, snap0, ai0, tasks0, adds')
    ensures Sent(p.queue, p.tasks, ai0, q0, |adds'|)
    ensures adds' == if Admit(path, profile, probe, path in KnownInputs(snap0, profileName) || path in adds)
                     then adds + [path] else adds
    ensures adds' == adds ==> p.tasks == old(p.tasks) && p.queue == old(p.queue)
    ensures adds' != adds ==>
              && p.taskAI in p.tasks && p.tasks == old(p.tasks)[p.taskAI := p.tasks[p.taskAI]]
              && p.queue == old(p.queue) + [p.tasks[p.taskAI]]
  {
    adds' := adds;
    if !PassesFilters(path, profile, probe) {
      return;
    }
    var has := p.HasTask(path, profileName);
    HasTaskInBatch(p, profileName, now, snap0, ai0, tasks0, adds, path);
    if has {
      return;
    }
    adds' := BatchAdd(p, profileName, path, now, snap0, ai0, tasks0, q0, adds);
  }

  /**
   * The walk itself: each path is visited in order, so the paths queued are `BatchAdds`
   * of the walk, and the channel receives their tasks in that order after what it held.
   * `probes[i]` is what probing `walk[i]` gives.
   */
  method WalkBatch(p: Engine.Processor, profile: Transcoding.Profile, profileName: string, walk: seq<string>,
                   probes: seq<Result<ProbeJson>>, now: Time, ghost snap0: map<nat, (Task, bool)>,
                   ghost ai0: nat, ghost tasks0: map<nat, Engine.SharedTask>)
    returns (ghost adds: seq<string>)
    requires Batched(p, profileName, now, snap0, ai0, tasks0, [])
    requires |probes| == |walk| && |p.queue| + |walk| <= Engine.QueueCapacity
    modifies p
    ensures Batched(p, profileName, now, snap0, ai0, tasks0, adds)
    ensures adds == BatchAdds(walk, probes, profile, KnownInputs(snap0, profileName))
    ensures Sent(p.queue, p.tasks, ai0, old(p.queue), |adds|)
  {
    ghost var known := KnownInputs(snap0, profileName);
    adds := [];
    var i := 0;
    while i < |walk|
      invariant 0 <= i <= |walk|
      invariant Batched(p, profileName, now, snap0, ai0, tasks0, adds)
      invariant adds == BatchAdds(walk[..i], probes[..i], profile, known)
      invariant |p.queue| + |walk| - i <= Engine.QueueCapacity
      invariant Sent(p.queue, p.tasks, ai0, old(p.queue), |adds|)
    {
      BatchAddsStep(walk, probes, i, profile, known);
      adds := BatchVisit(p, profile, profileName, walk[i], probes[i], now, snap0, ai0, tasks0, old(p.queue), adds);
      i := i + 1;
    }
    assert walk[..i] == walk && probes[..i] == probes;
  }

  /**
   * `submitTaskBatch`: an unknown profile is a bad request and queues nothing. Otherwise
   * the walk queues `BatchAdds` of its paths under consecutive new ids, every task stored
   * before is kept as it was, and the channel receives the new tasks in walk order after
   * what it held.
   */
  method SubmitTaskBatch(p: Engine.Processor, profileName: string, walk: seq<string>,
                         probes: seq<Result<ProbeJson>>, now: Time)
    returns (err: Option<string>, ghost adds: seq<string>)
    requires p.Valid() && |probes| == |walk|
    requires |p.queue| + |walk| <= Engine.QueueCapacity
    modifies p
    ensures p.Valid()
    ensures Config.GetProfile(p.config, profileName).None? ==>
              err == Some("Invalid profile: " + profileName) && adds == [] && p.tasks == old(p.tasks)
    ensures Config.GetProfile(p.config, profileName).Some? ==>
              err == None && adds == BatchAdds(walk, probes, Config.GetProfile(p.config, profileName).value,
                                               KnownInputs(old(Snapshot(p)), profileName))
    ensures p.taskAI == old(p.taskAI) + |adds|
    ensures forall id :: id in old(p.tasks) ==> id in p.tasks && p.tasks[id] == old(p.tasks[id])
    ensures Appended(p, profileName, now, old(p.taskAI), adds)
    ensures forall id :: id in p.tasks ==> id in old(p.tasks) || old(p.taskAI) < id <= p.taskAI
    ensures Config.GetProfile(p.config, profileName).None? ==> p.queue == old(p.queue)
    ensures Sent(p.queue, p.tasks, old(p.taskAI), old(p.queue), |adds|)
    ensures p.queue[..|old(p.queue)|] == old(p.queue)
    ensures forall k :: 0 <= k < |adds| ==> SentRecord(p.queue[|old(p.queue)|..], k, old(p.taskAI) + k + 1, adds[k], profileName, now)
  {
    var found := Config.GetProfile(p.config, profileName);
    if found.None? {
      return Some("Invalid profile: " + profileName), [];
    }
    err := None;
    ghost var snap0 := Snapshot(p);
    ghost var tasks0 := p.tasks;
    adds := WalkBatch(p, found.value, profileName, walk, probes, now, snap0, old(p.taskAI), tasks0);
    SentRecords(p, profileName, now, old(p.taskAI), old(p.queue), adds);
  }

  /** Position `k` of `run` is a live pending task for `path` under `id`. */
  ghost predicate SentRecord(run: seq<Engine.SharedTask>, k: int, id: nat, path: string, profileName: string, now: Time)
    reads set t | t in run
  {
    0 <= k < |run| && run[k].task == NewTask(id, path, profileName, now) && !run[k].cancelled
  }

  /**
   * What the batch sent, read off the records: after the old contents, the channel holds
   * one live pending task per queued path, in walk order, under consecutive ids.
   */
  lemma SentRecords(p: Engine.Processor, profileName: string, now: Time, ai0: nat, q0: seq<Engine.SharedTask>,
                    adds: seq<string>)
    requires Sent(p.queue, p.tasks, ai0, q0, |adds|) && Appended(p, profileName, now, ai0, adds)
    ensures forall k :: 0 <= k < |adds| ==> SentRecord(p.queue[|q0|..], k, ai0 + k + 1, adds[k], profileName, now)
  {
    var run := p.queue[|q0|..];
    forall k | 0 <= k < |adds|
      ensures SentRecord(run, k, ai0 + k + 1, adds[k], profileName, now)
    {
      assert Stored(p.tasks, ai0 + k + 1, run[k]);
      assert adds[(ai0 + k + 1) - ai0 - 1] == adds[k];
    }
  }
}
