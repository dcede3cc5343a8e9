/**
 * The resolver's filesystem work (internal/processor/resolve.go): `replaceFile`, which
 * stages the transcoded file beside the destination and renames it over it, and
 * `resolveTask`, which either keeps the original (removing the temp directory) or
 * replaces it.
 *
 * The filesystem is a map from path to file; directories exist implicitly as path
 * prefixes. Each system call that can fail takes its failure as a parameter (a fault
 * oracle), except `open` on a missing path, which fails because the path is absent.
 */
module Resolve {
  import opened Wrappers
  import opened Paths
  import opened Tasks

  type Bytes = seq<bv8>

  datatype File = File(data: Bytes, mode: nat)

  type Files = map<string, File>

  /** The permission bits `os.OpenFile(..., 0644)` gives a file it creates. */
  const CreateMode: nat := 0x1a4

  /** The staging path of `replaceFile`: `.tmp_` + the destination's base, in its directory. */
  function Sibling(dst: string): string {
    Join(Dir(dst), ".tmp_" + Base(dst))
  }

  /** The staging path is never the destination itself (unless the destination is all slashes). */
  lemma SiblingIsNotDst(dst: string)
    requires Base(dst) != [Sep]
    ensures Sibling(dst) != dst
  {
    var name := ".tmp_" + Base(dst);
    assert NoSep(name) by {
      forall i | 0 <= i < |name| ensures name[i] != Sep {
        if i >= 5 { assert name[i] == Base(dst)[i - 5]; }
      }
    }
    BaseOfJoin(Dir(dst), name);
    assert |Base(Sibling(dst))| == |Base(dst)| + 5;
  }

  /** The paths `os.RemoveAll(dir)` deletes: `dir` itself and everything below it. */
  predicate Under(p: string, dir: string) {
    p == dir
    || (dir != [] && |p| > |dir| && p[..|dir|] == dir && (p[|dir|] == Sep || dir[|dir| - 1] == Sep))
  }

  /** The files left after a successful `os.RemoveAll(dir)`. */
  function RemoveAllSpec(files: Files, dir: string): (r: Files)
    ensures forall p :: p in r <==> p in files && !Under(p, dir)
    ensures forall p :: p in r ==> r[p] == files[p]
  {
    map p | p in files && !Under(p, dir) :: files[p]
  }

  /** What the fallible steps of `replaceFile` do; `removeFails` covers every `os.Remove` it calls. */
  datatype ReplaceFaults = ReplaceFaults(
    open: Option<string>,
    stat: Option<string>,
    create: Option<string>,
    fallocate: Option<string>,
    copy: Option<string>,
    close: Option<string>,
    chmod: Option<string>,
    rename: Option<string>,
    removeFails: bool)

  datatype FsOutcome = FsOutcome(files: Files, err: Option<string>)

  /** The error `os.Open` gives for a path that does not exist. */
  function NotExistError(op: string, p: string): string {
    op + " " + p + ": no such file or directory"
  }

  /** `os.Remove(tmp)` with its error ignored. */
  function Discard(files: Files, tmp: string, removeFails: bool): (r: Files)
    ensures removeFails ==> r == files
    ensures !removeFails ==> r == files - {tmp}
  {
    if removeFails then files else files - {tmp}
  }

  /** The source is open, its size known and the staging file created (truncated). */
  predicate Staged(files: Files, src: string, fx: ReplaceFaults) {
    src in files && fx.open.None? && fx.stat.None? && fx.create.None?
  }

  /** The staging file as `os.OpenFile(tmp, O_WRONLY|O_CREATE|O_TRUNC, 0644)` leaves it. */
  function Truncated(files: Files, tmp: string): File {
    File([], if tmp in files then files[tmp].mode else CreateMode)
  }

  /** The mode the staging file has just before the rename. */
  function StagedMode(files: Files, dst: string, tmp: string, fx: ReplaceFaults): nat {
    if dst in files && fx.chmod.None? then files[dst].mode else Truncated(files, tmp).mode
  }

  /**
   * `replaceFile(src, dst)` staging through `tmp`, step by step: open and stat the source,
   * create the staging file, preallocate (a failure only warns), copy, close, copy the
   * destination's mode when it exists (a failure only warns), rename over the destination.
   * A failure of copy, close or rename removes the staging file and returns the error.
   */
  function ReplaceVia(files: Files, src: string, dst: string, tmp: string, fx: ReplaceFaults): (out: FsOutcome)
    ensures !Staged(files, src, fx) ==> out.files == files && out.err.Some?
    ensures out.err.None? <==> Staged(files, src, fx) && fx.copy.None? && fx.close.None? && fx.rename.None?
  {
    if src !in files then FsOutcome(files, Some(NotExistError("open", src)))
    else if fx.open.Some? then FsOutcome(files, fx.open)
    else if fx.stat.Some? then FsOutcome(files, fx.stat)
    else if fx.create.Some? then FsOutcome(files, fx.create)
    else
      var created := files[tmp := Truncated(files, tmp)];
      if fx.copy.Some? then FsOutcome(Discard(created, tmp, fx.removeFails), fx.copy)
      else
        var copied := created[tmp := created[tmp].(data := created[src].data)];
        if fx.close.Some? then FsOutcome(Discard(copied, tmp, fx.removeFails), fx.close)
        else
          var chmodded := if dst in copied && fx.chmod.None? then copied[tmp := copied[tmp].(mode := copied[dst].mode)] else copied;
          if fx.rename.Some? then FsOutcome(Discard(chmodded, tmp, fx.removeFails), fx.rename)
          else FsOutcome((chmodded - {tmp})[dst := chmodded[tmp]], None)
  }

  /** `replaceFile(src, dst)`: `ReplaceVia` through the staging path `Sibling(dst)`. */
  function ReplaceFileSpec(files: Files, src: string, dst: string, fx: ReplaceFaults): FsOutcome {
    ReplaceVia(files, src, dst, Sibling(dst), fx)
  }

  /**
   * A failure of `ReplaceVia` leaves every path other than the staging one as it was; when
   * the staging file had been created and its removal succeeds, the staging path is gone.
   */
  lemma {:induction false} FailureOnlyTouchesStaging(files: Files, src: string, dst: string, tmp: string,
                                                     fx: ReplaceFaults)
    requires tmp != dst
    ensures var out := ReplaceVia(files, src, dst, tmp, fx);
            out.err.Some? ==> forall p :: p != tmp ==>
                                (p in out.files <==> p in files) && (p in files ==> out.files[p] == files[p])
    ensures var out := ReplaceVia(files, src, dst, tmp, fx);
            out.err.Some? && Staged(files, src, fx) && !fx.removeFails ==> out.files == files - {tmp}
  {
    var out := ReplaceVia(files, src, dst, tmp, fx);
    if out.err.Some? && Staged(files, src, fx) {
      var created := files[tmp := Truncated(files, tmp)];
      var copied := created[tmp := created[tmp].(data := created[src].data)];
      var chmodded := if dst in copied && fx.chmod.None? then copied[tmp := copied[tmp].(mode := copied[dst].mode)] else copied;
      var last := if fx.copy.Some? then created else if fx.close.Some? then copied else chmodded;
      assert out.files == Discard(last, tmp, fx.removeFails);
      assert forall p :: p != tmp ==> (p in last <==> p in files) && (p in files ==> last[p] == files[p]);
    }
  }

  /**
   * The destination is touched only by the final rename: whenever `replaceFile` fails,
   * the destination is exactly as it was (present with the same bytes and mode, or absent).
   */
  lemma DstUntouchedOnFailure(files: Files, src: string, dst: string, fx: ReplaceFaults)
    requires Base(dst) != [Sep]
    ensures var out := ReplaceFileSpec(files, src, dst, fx);
            out.err.Some? ==> (dst in out.files <==> dst in files)
                              && (dst in files ==> out.files[dst] == files[dst])
  {
    SiblingIsNotDst(dst);
    FailureOnlyTouchesStaging(files, src, dst, Sibling(dst), fx);
  }

  /**
   * A failure after the staging file was created leaves exactly the original files minus
   * the staging path (a file that was there before was truncated, then removed); when the
   * removal itself fails, only the staging path differs.
   */
  lemma FailureRemovesSibling(files: Files, src: string, dst: string, fx: ReplaceFaults)
    requires Base(dst) != [Sep] && Staged(files, src, fx)
    ensures var out := ReplaceFileSpec(files, src, dst, fx);
            out.err.Some? && !fx.removeFails ==> out.files == files - {Sibling(dst)}
    ensures var out := ReplaceFileSpec(files, src, dst, fx);
            out.err.Some? ==> forall p :: p != Sibling(dst) ==>
                                (p in out.files <==> p in files) && (p in files ==> out.files[p] == files[p])
  {
    SiblingIsNotDst(dst);
    FailureOnlyTouchesStaging(files, src, dst, Sibling(dst), fx);
  }

  /** On success through `tmp`, the destination holds the source's bytes and only `dst` and `tmp` changed. */
  lemma {:induction false} SuccessVia(files: Files, src: string, dst: string, tmp: string, fx: ReplaceFaults)
    requires tmp != dst && src != tmp
    ensures var out := ReplaceVia(files, src, dst, tmp, fx);
            out.err.None? ==>
              && dst in out.files && out.files[dst] == File(files[src].data, StagedMode(files, dst, tmp, fx))
              && tmp !in out.files
              && forall p :: p != dst && p != tmp ==>
                   (p in out.files <==> p in files) && (p in files ==> out.files[p] == files[p])
  {
    var out := ReplaceVia(files, src, dst, tmp, fx);
    if out.err.None? {
      var created := files[tmp := Truncated(files, tmp)];
      var copied := created[tmp := created[tmp].(data := created[src].data)];
      var chmodded := if dst in copied && fx.chmod.None? then copied[tmp := copied[tmp].(mode := copied[dst].mode)] else copied;
      assert chmodded[tmp] == File(files[src].data, StagedMode(files, dst, tmp, fx));
      assert out.files == (chmodded - {tmp})[dst := chmodded[tmp]];
    }
  }

  /**
   * On success the destination holds the source's bytes (read after the staging file was
   * truncated, so the source must not be the staging path), with the old destination's
   * mode when it had one and `chmod` succeeded; the staging file is gone and every other
   * path is unchanged.
   */
  lemma SuccessMovesSourceBytes(files: Files, src: string, dst: string, fx: ReplaceFaults)
    requires Base(dst) != [Sep] && src != Sibling(dst)
    ensures var out := ReplaceFileSpec(files, src, dst, fx);
            out.err.None? ==>
              && dst in out.files && out.files[dst] == File(files[src].data, StagedMode(files, dst, Sibling(dst), fx))
              && Sibling(dst) !in out.files
              && forall p :: p != dst && p != Sibling(dst) ==>
                   (p in out.files <==> p in files) && (p in files ==> out.files[p] == files[p])
  {
    SiblingIsNotDst(dst);
    SuccessVia(files, src, dst, Sibling(dst), fx);
  }

  /** What `os.RemoveAll` does in `resolveTask` (its error), beside `replaceFile`'s faults. */
  datatype ResolveFaults = ResolveFaults(replace: ReplaceFaults, removeAll: Option<string>)

  /**
   * `resolveTask(task, replace)`. Keeping the original removes the temp file's directory
   * (nothing when the task has no temp file) and returns that removal's error. Replacing
   * returns `replaceFile`'s error without cleaning up, or else removes the temp directory
   * and ignores that removal's error.
   */
  function ResolveFilesSpec(files: Files, t: Task, replace: bool, fx: ResolveFaults): (out: FsOutcome)
    ensures !replace && t.tempFile == "" ==> out == FsOutcome(files, None)
    ensures !replace && t.tempFile != "" ==> out.err == fx.removeAll
    ensures !replace && t.tempFile != "" && fx.removeAll.None? ==> out.files == RemoveAllSpec(files, Dir(t.tempFile))
    ensures !replace ==> forall p :: !Under(p, Dir(t.tempFile)) ==>
              (p in out.files <==> p in files) && (p in files ==> out.files[p] == files[p])
    ensures replace && ReplaceFileSpec(files, t.tempFile, t.input, fx.replace).err.Some? ==>
              out == ReplaceFileSpec(files, t.tempFile, t.input, fx.replace)
    ensures replace ==> out.err == ReplaceFileSpec(files, t.tempFile, t.input, fx.replace).err
  {
    if !replace then
      if t.tempFile == "" then FsOutcome(files, None)
      else if fx.removeAll.Some? then FsOutcome(files, fx.removeAll)
      else FsOutcome(RemoveAllSpec(files, Dir(t.tempFile)), None)
    else
      var r := ReplaceFileSpec(files, t.tempFile, t.input, fx.replace);
      if r.err.Some? then r
      else if t.tempFile != "" && fx.removeAll.None? then FsOutcome(RemoveAllSpec(r.files, Dir(t.tempFile)), None)
      else FsOutcome(r.files, None)
  }

  /** The operating system's files, changed in place by the calls `replaceFile` makes. */
  class FileSystem {
    var files: Files

    constructor (files: Files)
      ensures this.files == files
    {
      this.files := files;
    }

    /** `os.Open`: fails for a missing path, or with the injected error. */
    method Open(p: string, fault: Option<string>) returns (err: Option<string>)
      ensures err == if p !in files then Some(NotExistError("open", p)) else fault
    {
      if p !in files {
        return Some(NotExistError("open", p));
      }
      return fault;
    }

    /** `os.OpenFile(p, O_WRONLY|O_CREATE|O_TRUNC, 0644)`. */
    method CreateTruncate(p: string, fault: Option<string>) returns (err: Option<string>)
      modifies this
      ensures err == fault
      ensures fault.Some? ==> files == old(files)
      ensures fault.None? ==> files == old(files)[p := Truncated(old(files), p)]
    {
      err := fault;
      if fault.None? {
        files := files[p := Truncated(files, p)];
      }
    }

    /** `io.Copy(dst, src)` into an open, empty file; a failed copy is treated as writing nothing. */
    method Copy(dst: string, src: string, fault: Option<string>) returns (err: Option<string>)
      requires dst in files && src in files
      modifies this
      ensures err == fault
      ensures fault.Some? ==> files == old(files)
      ensures fault.None? ==> files == old(files)[dst := old(files)[dst].(data := old(files)[src].data)]
    {
      err := fault;
      if fault.None? {
        files := files[dst := files[dst].(data := files[src].data)];
      }
    }

    /** `os.Chmod`. */
    method Chmod(p: string, mode: nat, fault: Option<string>) returns (err: Option<string>)
      requires p in files
      modifies this
      ensures err == fault
      ensures fault.Some? ==> files == old(files)
      ensures fault.None? ==> files == old(files)[p := old(files)[p].(mode := mode)]
    {
      err := fault;
      if fault.None? {
        files := files[p := files[p].(mode := mode)];
      }
    }

    /** `os.Rename(from, to)`: `to` is replaced by `from`'s file, atomically. */
    method Rename(from: string, to: string, fault: Option<string>) returns (err: Option<string>)
      requires from in files
      modifies this
      ensures err == fault
      ensures fault.Some? ==> files == old(files)
      ensures fault.None? ==> files == (old(files) - {from})[to := old(files)[from]]
    {
      err := fault;
      if fault.None? {
        var f := files[from];
        files := (files - {from})[to := f];
      }
    }

    /** `os.Remove(p)` whose error the caller ignores. */
    method Remove(p: string, fails: bool)
      modifies this
      ensures files == Discard(old(files), p, fails)
    {
      if !fails {
        files := files - {p};
      }
    }

    /** `os.RemoveAll(dir)`; a failure is treated as removing nothing. */
    method RemoveAll(dir: string, fault: Option<string>) returns (err: Option<string>)
      modifies this
      ensures err == fault
      ensures fault.Some? ==> files == old(files)
      ensures fault.None? ==> files == RemoveAllSpec(old(files), dir)
    {
      err := fault;
      if fault.None? {
        files := RemoveAllSpec(files, dir);
      }
    }
  }

  /** `(*Processor).replaceFile` on the modelled filesystem. */
  method ReplaceFile(fs: FileSystem, src: string, dst: string, fx: ReplaceFaults) returns (err: Option<string>)
    modifies fs
    ensures fs.files == ReplaceFileSpec(old(fs.files), src, dst, fx).files
    ensures err == ReplaceFileSpec(old(fs.files), src, dst, fx).err
  {
    var tmp := Sibling(dst);

    err := fs.Open(src, fx.open);
    if err.Some? {
      return;
    }
    if fx.stat.Some? {
      return fx.stat;
    }

    err := fs.CreateTruncate(tmp, fx.create);
    if err.Some? {
      return;
    }

    // A failed preallocation (fx.fallocate) is only logged; it changes no bytes.

    err := fs.Copy(tmp, src, fx.copy);
    if err.Some? {
      fs.Remove(tmp, fx.removeFails);
      return;
    }

    if fx.close.Some? {
      fs.Remove(tmp, fx.removeFails);
      return fx.close;
    }

    if dst in fs.files {
      var _ := fs.Chmod(tmp, fs.files[dst].mode, fx.chmod);
    }

    err := fs.Rename(tmp, dst, fx.rename);
    if err.Some? {
      fs.Remove(tmp, fx.removeFails);
      return;
    }
  }

  /** `(*Processor).resolveTask` on the modelled filesystem. */
  method ResolveFiles(fs: FileSystem, t: Task, replace: bool, fx: ResolveFaults) returns (err: Option<string>)
    modifies fs
    ensures fs.files == ResolveFilesSpec(old(fs.files), t, replace, fx).files
    ensures err == ResolveFilesSpec(old(fs.files), t, replace, fx).err
  {
    if !replace {
      if t.tempFile == "" {
        return None;
      }
      err := fs.RemoveAll(Dir(t.tempFile), fx.removeAll);
      return;
    }

    err := ReplaceFile(fs, t.tempFile, t.input, fx.replace);
    if err.Some? {
      return;
    }

    if t.tempFile != "" {
      var _ := fs.RemoveAll(Dir(t.tempFile), fx.removeAll);
    }
  }
}
