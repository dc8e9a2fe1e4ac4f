/** A spawned download or login process and its capture file: Go's `Cmd`
    (cmd/main.go:98-146).

    The OS process and the temporary file are not modelled; spawning is an
    oracle (`Spawn`) that either hands out a process id and a capture-file
    name or reports the OS error, and the file's contents and write offset
    are passed to `Tail` by the caller. */
module ProcessHandle {
  import opened Common
  import opened LogTail

  /** What `exec.Cmd.ProcessState` reports once `Wait` has returned:
      whether the process exited on its own (`Exited()`) and its
      description (`String()`, e.g. "exit status 1" or "signal: killed"). */
  datatype ProcessState = ProcessState(exited: bool, text: string)

  /** The `exec.Cmd` a handle owns: the process id and, once `Wait` has
      returned, the terminal state. */
  datatype Process = Process(pid: nat, state: Option<ProcessState>)

  /** Outcome of `Exec`: the process started with its output redirected to a
      fresh temporary file, or creating the file or starting the process
      failed with an OS error. */
  datatype Spawn = Spawned(pid: nat, captureFile: string) | SpawnFailed(err: string)

  /** Message of `os.ErrInvalid`, which `(*os.File).Seek` returns on a nil file. */
  const InvalidArgument: string := "invalid argument"

  class Cmd {
    /** `c.Cmd`; `None` once closed. */
    var process: Option<Process>
    /** `c.Output`, the capture file's name; `None` once closed. */
    var output: Option<string>

    /** The handle has not been closed: both fields are set. */
    predicate Open()
      reads this
    {
      process.Some? && output.Some?
    }

    /** Both fields are set or both are nil: `Close` clears them together. */
    predicate Paired()
      reads this
    {
      process.Some? <==> output.Some?
    }

    /** A handle fresh from a successful spawn. */
    constructor (pid: nat, captureFile: string)
      ensures process == Some(Process(pid, None)) && output == Some(captureFile)
      ensures Open() && Paired()
    {
      process := Some(Process(pid, None));
      output := Some(captureFile);
    }

    /** The owner's waiter goroutine: `Wait` returns and records the
        terminal state (cmd/main.go:168-175, 283-288). */
    method ObserveExit(st: ProcessState)
      requires Open() && process.value.state.None?
      modifies this
      ensures process == Some(Process(old(process).value.pid, Some(st)))
      ensures output == old(output) && Open() && Paired()
    {
      process := Some(Process(process.value.pid, Some(st)));
    }

    /** Kill, reap, delete the capture file and nil both fields. The body
        dereferences `c.Cmd` first, so a second `Close` is a nil-pointer
        panic: closing requires an open handle. */
    method Close()
      requires Open()
      modifies this
      ensures process.None? && output.None?
      ensures !Open() && Paired()
    {
      process := None;
      output := None;
    }

    /** Tail read of the capture file whose bytes are `file` and whose shared
        write cursor stands at `offset`; `readErr` is a non-EOF error of the
        positioned read, if the OS reports one (a short read's `io.EOF` is
        not an error). */
    function Tail(file: seq<byte>, offset: nat, readErr: Option<string>): (r: Result<seq<byte>>)
      reads this
      ensures output.None? ==> r == Failure(InvalidArgument)
      ensures output.Some? && offset == 0 ==> r == Success([])
      ensures output.Some? && offset > 0 && readErr.Some? ==> r == Failure(readErr.value)
      ensures r.Success? && offset > 0 ==>
                |r.value| == WindowSize &&
                forall i :: 0 <= i < WindowSize ==> r.value[i] == ByteAt(file, WindowStart(offset) + i)
      ensures r.Success? <==> output.Some? && (offset == 0 || readErr.None?)
    {
      if output.None? then Failure(InvalidArgument)
      else if offset == 0 then Success([])
      else if readErr.Some? then Failure(readErr.value)
      else Success(Window(file, offset))
    }

    /** The description handlers append once `ProcessState` is set and
        reports `Exited()`; `None` while the process runs or when it was
        ended by a signal. */
    function ExitText(): (t: Option<string>)
      reads this
      requires Open()
      ensures t.Some? <==> process.value.state.Some? && process.value.state.value.exited
      ensures t.Some? ==> t.value == process.value.state.value.text
    {
      match process.value.state
      case Some(st) => if st.exited then Some(st.text) else None
      case None => None
    }
  }

  /** `Exec`: a fresh open handle on success, nil on failure. */
  method Exec(spawn: Spawn) returns (c: Cmd?)
    ensures spawn.SpawnFailed? <==> c == null
    ensures c != null ==> fresh(c) && c.Open() && c.Paired()
    ensures c != null ==> c.process == Some(Process(spawn.pid, None)) && c.output == Some(spawn.captureFile)
  {
    match spawn
    case SpawnFailed(_) =>
      c := null;
    case Spawned(pid, captureFile) =>
      c := new Cmd(pid, captureFile);
  }
}
