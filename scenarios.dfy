/** End-to-end runs of the registry: sequences of submissions, exits and
    drains on a fresh service, with the outcome each promises. */
module RegistryScenarios {
  import opened Common
  import opened ProcessHandle
  import opened JobRegistry
  import opened Text

  /** Submitting a URL twice spawns once: the second call hands back the
      first job, and the next drain holds exactly one "url exists" alert. */
  method DuplicateSubmitKeepsFirst(url: string, escapeUrl: string, t0: int, t1: int,
                                   pid: nat, captureFile: string, second: Spawn)
    returns (same: bool, entries: nat, drained: seq<string>)
    ensures same && entries == 1
    ensures drained == ["url exists " + url]
  {
    var s := new Service();
    var a := s.SubmitJob(url, escapeUrl, t0, Spawned(pid, captureFile));
    var b := s.SubmitJob(url, escapeUrl, t1, second);
    same := a != null && a == b;
    entries := |s.Jobs|;
    drained := s.TakeAlerts();
  }

  /** A failed spawn files nothing and reports the error; the same URL can
      be submitted again and then spawns. */
  method RetryAfterFailedSpawn(url: string, escapeUrl: string, t0: int, t1: int,
                               err: string, pid: nat, captureFile: string)
    returns (filedAfterFailure: bool, drained: seq<string>, filedAfterRetry: bool)
    ensures !filedAfterFailure && filedAfterRetry
    ensures drained == ["url(" + url + ") fails: " + err]
  {
    var s := new Service();
    var a := s.SubmitJob(url, escapeUrl, t0, SpawnFailed(err));
    filedAfterFailure := url in s.Jobs;
    drained := s.TakeAlerts();
    var b := s.SubmitJob(url, escapeUrl, t1, Spawned(pid, captureFile));
    filedAfterRetry := url in s.Jobs && b != null && s.Jobs[url] == b;
  }

  /** However many times a URL is resubmitted after its first successful
      spawn, and whatever each later spawn would have done, the registry
      keeps one entry, every call returns the first job, and each call adds
      one "url exists" alert. */
  method RepeatedSubmitsSpawnOnce(url: string, escapeUrl: string, pid: nat, captureFile: string,
                                  later: seq<Spawn>)
    returns (entries: nat, allFirst: bool, alerts: seq<string>)
    ensures entries == 1 && allFirst
    ensures |alerts| == |later|
    ensures forall i :: 0 <= i < |alerts| ==> alerts[i] == "url exists " + url
  {
    var s := new Service();
    var first := s.SubmitJob(url, escapeUrl, 0, Spawned(pid, captureFile));
    allFirst := first != null;
    for i := 0 to |later|
      invariant s.Valid() && fresh(s) && first != null
      invariant s.Jobs == map[url := first]
      invariant |s.Alerts| == i
      invariant forall p :: 0 <= p < i ==> s.Alerts[p] == "url exists " + url
      invariant allFirst
    {
      var j := s.SubmitJob(url, escapeUrl, i + 1, later[i]);
      allFirst := allFirst && j == first;
    }
    entries := |s.Jobs|;
    alerts := s.TakeAlerts();
  }

  /** Alerts come out of a drain in the order they were added, and a
      second drain is empty. */
  method AlertsDrainInOrder(msgs: seq<string>) returns (drained: seq<string>, again: seq<string>)
    ensures drained == msgs && again == []
  {
    var s := new Service();
    for i := 0 to |msgs|
      invariant fresh(s) && s.Alerts == msgs[..i]
    {
      s.AddAlert(msgs[i]);
    }
    drained := s.TakeAlerts();
    again := s.TakeAlerts();
  }

  /** Once a job's process has exited, the next listing shows the exit
      description as the job's state. */
  method ExitShowsInListing(url: string, escapeUrl: string, pid: nat, captureFile: string,
                            exit: ProcessState)
    returns (state: string, listed: nat)
    ensures state == exit.text && listed == 1
  {
    var s := new Service();
    var j := s.SubmitJob(url, escapeUrl, 0, Spawned(pid, captureFile));
    s.JobExited(url, exit);
    var r := s.ListJobs();
    listed := r.Length;
    assert r[..][0] in s.Jobs.Values;
    state := r[0].state;
  }

  /** The status page of a job whose process has exited, before anything
      was written to its capture file, is the exit description alone. */
  method StatusAfterExit(url: string, escapeUrl: string, pid: nat, captureFile: string, text: string)
    returns (resp: Response)
    requires TrimSpace(url) == url
    ensures resp == Response(200, "\n" + text)
  {
    var s := new Service();
    var j := s.SubmitJob(url, escapeUrl, 0, Spawned(pid, captureFile));
    s.JobExited(url, ProcessState(true, text));
    resp := s.Status(url, [], 0, None);
  }
}
