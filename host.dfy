/** The operating system as the automator sees it, replaced by oracles: a file system, a process
    table that is enumerated again on every call, a clock that only `Sleep` advances, and the
    outcome of launching a subprocess. */
module Host {
  import opened Common

  /** `sys.platform.startswith('win')`. */
  predicate IsWindows(platform: string)
  {
    StartsWith(platform, "win")
  }

  // ---------------------------------------------------------------- paths

  /** `str(Path(s))`: pathlib renders the empty path as ".". */
  function PathText(s: string): (r: string)
    ensures r != []
    ensures s != [] ==> r == s
  {
    if s == [] then "." else s
  }

  predicate IsSep(c: char, windows: bool)
  {
    c == '/' || (windows && c == '\\')
  }

  /** The index of the last separator in `p`, if any. */
  function LastSep(p: string, windows: bool): (r: Option<nat>)
    ensures r.Some? ==> r.value < |p| && IsSep(p[r.value], windows)
                        && forall k :: r.value < k < |p| ==> !IsSep(p[k], windows)
    ensures r.None? ==> forall k :: 0 <= k < |p| ==> !IsSep(p[k], windows)
  {
    if p == [] then None
    else if IsSep(p[|p| - 1], windows) then Some(|p| - 1)
    else LastSep(p[..|p| - 1], windows)
  }

  /** `Path(p).parent`: everything before the last separator, "." when there is none, and the
      root kept when the last separator is the root (or, on Windows, follows a drive letter). */
  function Parent(p: string, windows: bool): (r: string)
    ensures r != []
  {
    match LastSep(p, windows)
    case None => "."
    case Some(i) =>
      if i == 0 then p[..1]
      else if windows && i == 2 && p[1] == ':' then p[..3]
      else p[..i]
  }

  /** `Path(dir) / name` for a relative `name`, rendered with '/'. */
  function Join(dir: string, name: string): (r: string)
    ensures name != [] ==> EndsWith(r, name)
    ensures name != [] && name[0] != '/' && dir != [] && dir != "." ==> StartsWith(r, dir) && |r| > |dir|
  {
    if name == [] then PathText(dir)
    else if name[0] == '/' then name
    else if dir == [] || dir == "." then name
    else if dir[|dir| - 1] == '/' then dir + name
    else dir + "/" + name
  }

  /** `Join` and `Parent` are inverse: the parent of `dir / name` is `dir` again, for a plain
      file name and a directory written without a trailing separator. */
  lemma {:induction false} ParentOfJoin(dir: string, name: string)
    requires dir != [] && dir != "." && dir[|dir| - 1] != '/'
    requires name != [] && forall k :: 0 <= k < |name| ==> name[k] != '/'
    ensures Parent(Join(dir, name), false) == dir
  {
    var p := dir + "/" + name;
    assert Join(dir, name) == p;
    LastSepSkips(dir + "/", name);
    assert LastSep(dir + "/", false) == Some(|dir|);
  }

  /** Appending characters that are not separators leaves the last separator where it was. */
  lemma {:induction false} LastSepSkips(prefix: string, tail: string)
    requires forall k :: 0 <= k < |tail| ==> tail[k] != '/'
    ensures LastSep(prefix + tail, false) == LastSep(prefix, false)
    decreases |tail|
  {
    if tail != [] {
      var shorter := tail[..|tail| - 1];
      assert (prefix + tail)[..|prefix + tail| - 1] == prefix + shorter;
      LastSepSkips(prefix, shorter);
    } else {
      assert prefix + tail == prefix;
    }
  }

  // ---------------------------------------------------------------- file system

  /** An exception raised by a file-system call (every kind is an `OSError`). */
  datatype Fault = PermissionDenied(message: string) | NotFound(message: string) | OsFault(message: string)

  function FaultText(f: Fault): string
  {
    f.message
  }

  datatype Node = RegularFile(content: string) | Directory

  /** A file system: the nodes by path, the paths whose `stat` raises, the paths where
      creating or writing raises, and the files that exist but cannot be opened for reading.
      `exists()` and `is_file()` swallow "no such file", so a `NotFound` entry in `statFaults`
      allows an answer those calls never give: the stat faults over-approximate. */
  datatype Fs = Fs(nodes: map<string, Node>, statFaults: map<string, Fault>, writeFaults: map<string, Fault>,
                   readFaults: map<string, Fault>)

  /** `Path(p).exists()`. */
  function Exists(fs: Fs, p: string): Result<bool, Fault>
  {
    if p in fs.statFaults then Err(fs.statFaults[p]) else Ok(p in fs.nodes)
  }

  /** `Path(p).is_file()`. */
  function IsFile(fs: Fs, p: string): Result<bool, Fault>
  {
    if p in fs.statFaults then Err(fs.statFaults[p]) else Ok(p in fs.nodes && fs.nodes[p].RegularFile?)
  }

  /** `open(p).read()`: a file that exists may still refuse to open, as an unreadable one raises
      `PermissionError`. */
  function ReadFile(fs: Fs, p: string): (r: Result<string, Fault>)
    ensures r.Ok? <==> p !in fs.statFaults && p in fs.nodes && fs.nodes[p].RegularFile? && p !in fs.readFaults
    ensures r.Ok? ==> r.value == fs.nodes[p].content
  {
    if p in fs.statFaults then Err(fs.statFaults[p])
    else if p !in fs.nodes then Err(NotFound("[Errno 2] No such file or directory: '" + p + "'"))
    else if fs.nodes[p].Directory? then Err(OsFault("[Errno 21] Is a directory: '" + p + "'"))
    else if p in fs.readFaults then Err(fs.readFaults[p])
    else Ok(fs.nodes[p].content)
  }

  /** `Path(p).mkdir(parents=True, exist_ok=True)`: an existing directory is fine, an existing
      file is `FileExistsError`. */
  function MakeDir(fs: Fs, p: string): (r: Result<Fs, Fault>)
    ensures r.Ok? ==> r.value == fs.(nodes := fs.nodes[p := Directory])
  {
    if p in fs.writeFaults then Err(fs.writeFaults[p])
    else if p in fs.nodes && fs.nodes[p].RegularFile? then Err(OsFault("[Errno 17] File exists: '" + p + "'"))
    else Ok(fs.(nodes := fs.nodes[p := Directory]))
  }

  /** `open(p, 'w')` followed by writing `content`. The faults are those `open` raises, before
      it truncates the file, so a failed write leaves the old content in place. */
  function WriteFile(fs: Fs, p: string, content: string): (r: Result<Fs, Fault>)
    ensures r.Ok? ==> r.value == fs.(nodes := fs.nodes[p := RegularFile(content)])
    ensures r.Err? ==> p in fs.writeFaults || (p in fs.nodes && fs.nodes[p].Directory?)
  {
    if p in fs.writeFaults then Err(fs.writeFaults[p])
    else if p in fs.nodes && fs.nodes[p].Directory? then Err(OsFault("[Errno 21] Is a directory: '" + p + "'"))
    else Ok(fs.(nodes := fs.nodes[p := RegularFile(content)]))
  }

  /** `shutil.copy2(src, dst)` of a regular file to a path that is not a directory. */
  function CopyFile(fs: Fs, src: string, dst: string): (r: Result<Fs, Fault>)
    ensures r.Ok? ==> src in fs.nodes && fs.nodes[src].RegularFile? && src !in fs.readFaults
                      && r.value == fs.(nodes := fs.nodes[dst := fs.nodes[src]])
  {
    match ReadFile(fs, src)
    case Err(f) => Err(f)
    case Ok(content) => WriteFile(fs, dst, content)
  }

  /** The file system after a sequence of calls, and the exception that stopped it, if any:
      calls that succeeded before the failing one keep their effect. */
  datatype Attempt = Attempt(fs: Fs, fault: Option<Fault>)

  /** The file system shared by the components that write to it. */
  class Disk {
    var fs: Fs

    constructor (fs: Fs)
      ensures this.fs == fs
    {
      this.fs := fs;
    }
  }

  // ---------------------------------------------------------------- processes

  /** The per-process exceptions of psutil; `ZombieProcess` is a subclass of `NoSuchProcess`. */
  datatype ProcError = NoSuchProcess | AccessDenied | ZombieProcess | OtherProcError(message: string)

  /** Reading a process's name either gives the name or raises. */
  datatype NameRead = Name(name: string) | NameRaises(error: ProcError)

  /** What sending a signal to a process does. */
  datatype SignalOutcome = Delivered | SignalRaises(error: ProcError)

  /** One entry of the process table, with what `terminate()` and `kill()` on it would do. */
  datatype Proc = Proc(pid: int, name: NameRead, onTerminate: SignalOutcome, onKill: SignalOutcome)

  /** One enumeration of the process table, in iteration order. */
  type Scan = seq<Proc>

  datatype SignalKind = Terminate | Kill

  /** A signal that was sent: its kind and the process id it was sent to. */
  datatype Signal = Signal(kind: SignalKind, pid: int)

  /** The machine the automator runs on: every enumeration of the process table returns the
      next snapshot of `scanAt`, signals sent are recorded, and `Sleep` advances a clock. */
  class Machine {
    const scanAt: nat -> Scan
    var scans: nat
    var signals: seq<Signal>
    ghost var clock: real

    constructor (scanAt: nat -> Scan)
      ensures this.scanAt == scanAt && scans == 0 && signals == [] && clock == 0.0
    {
      this.scanAt := scanAt;
      scans := 0;
      signals := [];
      clock := 0.0;
    }

    /** `psutil.process_iter(...)`: the next snapshot of the process table. */
    method ProcessIter() returns (s: Scan)
      modifies this`scans
      ensures scans == old(scans) + 1 && s == scanAt(old(scans))
    {
      s := scanAt(scans);
      scans := scans + 1;
    }

    /** `proc.terminate()` / `proc.kill()`: records the signal and reports what it raised. */
    method Send(kind: SignalKind, p: Proc) returns (outcome: SignalOutcome)
      modifies this`signals
      ensures signals == old(signals) + [Signal(kind, p.pid)]
      ensures outcome == (if kind == Terminate then p.onTerminate else p.onKill)
    {
      signals := signals + [Signal(kind, p.pid)];
      outcome := if kind == Terminate then p.onTerminate else p.onKill;
    }

    /** `time.sleep(seconds)`. */
    method Sleep(seconds: real)
      requires seconds >= 0.0
      modifies this`clock
      ensures clock == old(clock) + seconds
    {
      clock := clock + seconds;
    }
  }

  // ---------------------------------------------------------------- subprocesses

  /** What `subprocess.run` is asked to do: the argument vector, the working directory and the
      timeout in seconds. */
  datatype Invocation = Invocation(argv: seq<string>, cwd: string, timeout: int)

  /** What `subprocess.run` does: completes with an exit code and captured output, times out,
      or fails to launch. */
  datatype RunOutcome =
    | Completed(returncode: int, stdout: string, stderr: string)
    | TimedOut
    | LaunchFailed(message: string)
}
