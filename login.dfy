/** The login slot (cmd/main.go:262-332): the global `loginCmd`, which holds
    the handle of the most recent `BBDown login` run, its replacement by
    `Login`, and the log page `LoginLog` serves from it.

    The model treats each method as one atomic step. `loginMu` does not
    guarantee this for `LoginLog`, which tails the handle and reads its
    process state after releasing the lock (see README, Left out).
    The QR-code part of `Login` (sleep, reading `qrcode.png`, base64) is not
    part of this model. */
module LoginSession {
  import opened Common
  import opened LogTail
  import opened ProcessHandle

  /** Text `LoginLog` writes when no login has been started. */
  const NoProcess: string := "process not exists"

  class LoginSlot {
    /** `loginCmd`; null until the first successful spawn. */
    var current: Cmd?

    constructor ()
      ensures current == null
    {
      current := null;
    }

    /** The occupant, if any, has both fields set or both nil. */
    ghost predicate Valid()
      reads this, current
    {
      current != null ==> current.Paired()
    }

    /** `Login` can run without a nil dereference: `Close` on the occupant
        needs an open handle. */
    predicate Ready()
      reads this, current
    {
      current == null || current.Open()
    }

    /** `Login` as written: close the occupant, spawn, and store the new
        handle only on success; on failure the error is answered with 500
        and the slot keeps the handle it has just closed. */
    method Login(spawn: Spawn) returns (err: Option<string>)
      requires Valid() && Ready()
      modifies this, current
      ensures Valid()
      ensures old(current) != null ==> old(current).process.None? && old(current).output.None?
      ensures spawn.SpawnFailed? ==> err == Some(spawn.err) && current == old(current)
      ensures spawn.SpawnFailed? && old(current) != null ==> !Ready()
      ensures spawn.Spawned? ==>
                && err.None? && current != null && fresh(current) && current.Open()
                && current.process == Some(Process(spawn.pid, None)) && current.output == Some(spawn.captureFile)
    {
      if current != null {
        current.Close();
      }
      var c := Exec(spawn);
      if c == null {
        return Some(spawn.err);
      }
      current := c;
      err := None;
    }

    /** `Login` with the closed occupant released before spawning: a failed
        spawn leaves the slot empty, so the slot is always ready. */
    method LoginCorrected(spawn: Spawn) returns (err: Option<string>)
      requires Valid() && Ready()
      modifies this, current
      ensures Valid() && Ready()
      ensures old(current) != null ==> old(current).process.None? && old(current).output.None?
      ensures spawn.SpawnFailed? ==> err == Some(spawn.err) && current == null
      ensures spawn.Spawned? ==>
                && err.None? && current != null && fresh(current)
                && current.process == Some(Process(spawn.pid, None)) && current.output == Some(spawn.captureFile)
    {
      if current != null {
        current.Close();
        current := null;
      }
      var c := Exec(spawn);
      if c == null {
        return Some(spawn.err);
      }
      current := c;
      err := None;
    }

    /** `LoginLog`: the tail of the occupant's capture file as one line,
        then the exit description as a second line once the process has
        exited; "process not exists" with 200 when there is no occupant,
        and 500 with the error line when the tail read fails (which it
        always does on a closed occupant). The file's bytes, its write
        offset and the read's error are the caller's. */
    function Log(file: seq<byte>, offset: nat, readErr: Option<string>): (resp: Response)
      reads this, current
      requires Valid()
      ensures current == null ==> resp == Response(200, NoProcess + "\n")
      ensures current != null && !current.Open() ==> resp == Response(500, InvalidArgument + "\n")
      ensures current != null && current.Open() && offset > 0 && readErr.Some? ==>
                resp == Response(500, readErr.value + "\n")
      ensures current != null && resp.code == 200 ==>
                var n := if offset == 0 then 0 else WindowSize;
                && current.Open() && n < |resp.body| && resp.body[n] == '\n'
                && (forall i :: 0 <= i < n ==> resp.body[i] as int == ByteAt(file, WindowStart(offset) + i) as int)
                && (current.ExitText().None? ==> |resp.body| == n + 1)
                && (current.ExitText().Some? ==> resp.body[n + 1..] == current.ExitText().value + "\n")
      ensures resp.code == 500 <==> current != null && (!current.Open() || (offset > 0 && readErr.Some?))
      ensures resp.code == 200 || resp.code == 500
    {
      if current == null then Response(200, NoProcess + "\n")
      else
        match current.Tail(file, offset, readErr)
        case Failure(e) => Response(500, e + "\n")
        case Success(data) =>
          var line := BytesText(data) + "\n";
          var exit := if current.ExitText().Some? then current.ExitText().value + "\n" else "";
          Response(200, line + exit)
    }
  }

  /** A successful login followed by a failed one leaves a slot that the
      next `Login` cannot close, and whose log page reports the closed
      file's error. */
  method FailedLoginLeavesClosedOccupant(pid: nat, captureFile: string, err: string)
    returns (ready: bool, log: Response)
    ensures !ready
    ensures log == Response(500, "invalid argument\n")
  {
    var slot := new LoginSlot();
    var first := slot.Login(Spawned(pid, captureFile));
    var second := slot.Login(SpawnFailed(err));
    ready := slot.Ready();
    log := slot.Log([], 0, None);
  }

  /** With the corrected replacement, any sequence of login attempts, each
      succeeding or failing, leaves the slot ready for the next one. */
  method CorrectedLoginsStayReady(spawns: seq<Spawn>) returns (ready: bool)
    ensures ready
  {
    var slot := new LoginSlot();
    for i := 0 to |spawns|
      invariant fresh(slot) && slot.Valid() && slot.Ready()
      invariant slot.current != null ==> fresh(slot.current)
    {
      var e := slot.LoginCorrected(spawns[i]);
    }
    ready := slot.Ready();
  }
}
