/** The job supervisor's bookkeeping (cmd/main.go:89-96, 148-260, 340-391):
    a registry from submitted URL to job with dedup on submit, the alert
    queue, the sorted listing snapshot and the status page.

    The model treats each method as one atomic step. The locks do not
    guarantee this for `Status` and `Index`, which tail a file, read a
    process state or stamp `Spend` outside `mu` (see README, Left out). The
    clock is the `now` parameter and spawning is the `Spawn` oracle. */
module JobRegistry {
  import opened Common
  import opened LogTail
  import opened ProcessHandle
  import opened Text

  /** One download job. Only `spend` and `state` change after creation. */
  class Job {
    const url: string
    /** `url.QueryEscape(url)`, taken as given. */
    const escapeUrl: string
    /** Start time as an integer timestamp. */
    const start: int
    const cmd: Cmd
    var spend: int
    var state: string

    constructor (url: string, escapeUrl: string, start: int, cmd: Cmd)
      ensures this.url == url && this.escapeUrl == escapeUrl && this.start == start && this.cmd == cmd
      ensures spend == 0 && state == ""
    {
      this.url := url;
      this.escapeUrl := escapeUrl;
      this.start := start;
      this.cmd := cmd;
      spend := 0;
      state := "";
    }

    /** The assignment `jobs()` makes to each job: "running" until the
        process has been reaped, then its terminal description. */
    method Refresh()
      requires cmd.Open()
      modifies this`state
      ensures state == StateText(cmd.process.value.state)
    {
      state := StateText(cmd.process.value.state);
    }
  }

  /** The text `jobs()` stores in `State`. */
  function StateText(st: Option<ProcessState>): string
  {
    match st
    case None => "running"
    case Some(s) => s.text
  }

  /** `Start`: a job whose start time is `now`, whose handle is the spawned
      process, or nil when spawning fails. */
  method StartJob(name: string, escapeUrl: string, now: int, spawn: Spawn) returns (j: Job?)
    ensures spawn.SpawnFailed? <==> j == null
    ensures j != null ==> fresh(j) && fresh(j.cmd) && j.cmd.Open()
    ensures j != null ==> j.url == name && j.escapeUrl == escapeUrl && j.start == now
    ensures j != null ==> j.cmd.process == Some(Process(spawn.pid, None)) && j.cmd.output == Some(spawn.captureFile)
  {
    var c := Exec(spawn);
    if c == null {
      return null;
    }
    j := new Job(name, escapeUrl, now, c);
  }

  /** The order in which `range` visits a map's keys: every key once, in an
      order the runtime chooses. */
  method IterationOrder<V>(m: map<string, V>) returns (keys: seq<string>)
    ensures |keys| == |m|
    ensures forall p :: 0 <= p < |keys| ==> keys[p] in m
    ensures forall p, q :: 0 <= p < q < |keys| ==> keys[p] != keys[q]
    ensures forall k :: k in m ==> k in keys
  {
    var remaining := m.Keys;
    keys := [];
    while remaining != {}
      invariant remaining <= m.Keys && |keys| + |remaining| == |m|
      invariant forall p :: 0 <= p < |keys| ==> keys[p] in m && keys[p] !in remaining
      invariant forall p, q :: 0 <= p < q < |keys| ==> keys[p] != keys[q]
      invariant forall k :: k in m && k !in remaining ==> k in keys
      decreases |remaining|
    {
      var k :| k in remaining;
      keys := keys + [k];
      remaining := remaining - {k};
    }
  }

  /** A job whose `state` shows its process as it stands now. */
  ghost predicate Refreshed(j: Job)
    reads j`state, j.cmd
  {
    j.cmd.Open() && j.state == StateText(j.cmd.process.value.state)
  }

  /** Every job of `s` is refreshed. */
  ghost predicate AllRefreshed(s: seq<Job>)
    reads s, set p | 0 <= p < |s| :: s[p].cmd
  {
    forall p :: 0 <= p < |s| ==> Refreshed(s[p])
  }

  /** Reordering refreshed jobs keeps them refreshed. */
  lemma RefreshedPermuted(a: seq<Job>, b: seq<Job>)
    requires multiset(a) == multiset(b)
    requires AllRefreshed(a)
    ensures AllRefreshed(b)
  {
    forall p | 0 <= p < |b| ensures Refreshed(b[p]) {
      assert b[p] in multiset(a);
    }
  }

  /** Two listings of the same registry hold the same jobs: whatever order
      `range` visits the map in, `jobs` returns the same jobs, and only
      jobs with equal start times can change places, so the start times
      read off the two listings agree position by position. */
  lemma ListingsArePermutations(s: seq<Job>, t: seq<Job>, jobs: map<string, Job>)
    requires Listing(s, jobs) && Listing(t, jobs)
    ensures multiset(s) == multiset(t)
    ensures |s| == |t| && forall p :: 0 <= p < |s| ==> s[p].start == t[p].start
  {
    assert multiset(s) == multiset(t);
    SortedPermutationsAgree(s, t);
  }

  /** Two start-time orders of the same jobs have the same start time at
      every position. */
  lemma {:induction false} SortedPermutationsAgree(s: seq<Job>, t: seq<Job>)
    requires SortedByStart(s) && SortedByStart(t) && multiset(s) == multiset(t)
    ensures |s| == |t| && forall p :: 0 <= p < |s| ==> s[p].start == t[p].start
    decreases |s|
  {
    assert |s| == |t| by {
      assert |s| == |multiset(s)| && |t| == |multiset(t)|;
    }
    if |s| > 0 {
      var i := LatestStartsAgree(s, t);
      var s' := RemoveAt(s, |s| - 1);
      var t' := RemoveAt(t, i);
      SortedPermutationsAgree(s', t');
      ShiftedStartsAgree(s, t, s', t', i);
    }
  }

  /** Reassembles the position-wise agreement after the last job of `s`,
      found at `i` in `t`, was taken out of both. */
  lemma ShiftedStartsAgree(s: seq<Job>, t: seq<Job>, s': seq<Job>, t': seq<Job>, i: nat)
    requires SortedByStart(t) && 0 < |s| == |t| && |s'| == |t'| == |t| - 1 && i < |t|
    requires t[i] == s[|s| - 1] && s[|s| - 1].start == t[|t| - 1].start
    requires forall p :: 0 <= p < |s'| ==> s'[p] == s[p] && s'[p].start == t'[p].start
    requires forall p :: 0 <= p < i ==> t'[p] == t[p]
    requires forall p :: i <= p < |t'| ==> t'[p] == t[p + 1]
    ensures forall p :: 0 <= p < |s| ==> s[p].start == t[p].start
  {
  }

  /** The last jobs of two start-time orders of the same jobs start
      together, and the last job of `s` sits in `t` at some `i`. */
  lemma LatestStartsAgree(s: seq<Job>, t: seq<Job>) returns (i: nat)
    requires SortedByStart(s) && SortedByStart(t) && multiset(s) == multiset(t)
    requires 0 < |s| == |t|
    ensures i < |t| && t[i] == s[|s| - 1]
    ensures s[|s| - 1].start == t[|t| - 1].start
  {
    var n := |s| - 1;
    assert s[n] in multiset(t);
    i :| 0 <= i <= n && t[i] == s[n];
    assert t[n] in multiset(s);
    var k :| 0 <= k <= n && s[k] == t[n];
    assert s[k].start <= s[n].start;
  }

  /** `t` without its `i`-th job: still in start-time order, one copy of
      that job fewer, and every later job moved down one place. */
  lemma RemoveAt(t: seq<Job>, i: nat) returns (t': seq<Job>)
    requires SortedByStart(t) && i < |t|
    ensures |t'| == |t| - 1 && SortedByStart(t')
    ensures multiset(t') == multiset(t) - multiset{t[i]}
    ensures forall p :: 0 <= p < i ==> t'[p] == t[p]
    ensures forall p :: i <= p < |t'| ==> t'[p] == t[p + 1]
  {
    t' := Without(t, i);
    forall p, q | 0 <= p < q < |t'| ensures t'[p].start <= t'[q].start {
      var p0 := if p < i then p else p + 1;
      var q0 := if q < i then q else q + 1;
      assert t'[p] == t[p0] && t'[q] == t[q0];
    }
  }

  /** `t` without its `i`-th element. */
  lemma Without<T>(t: seq<T>, i: nat) returns (t': seq<T>)
    requires i < |t|
    ensures |t'| == |t| - 1
    ensures multiset(t') == multiset(t) - multiset{t[i]}
    ensures forall p :: 0 <= p < i ==> t'[p] == t[p]
    ensures forall p :: i <= p < |t'| ==> t'[p] == t[p + 1]
  {
    t' := t[..i] + t[i + 1..];
    assert t == t[..i] + [t[i]] + t[i + 1..];
  }

  /** Go's `sortJob.Less`: `Start.Before`. */
  predicate StartsBefore(x: Job, y: Job)
  {
    x.start < y.start
  }

  ghost predicate SortedByStart(s: seq<Job>)
  {
    forall p, q :: 0 <= p < q < |s| ==> s[p].start <= s[q].start
  }

  /** `sort.Sort` promises that no later element is `Less` than an earlier
      one; for `sortJob` that is exactly start-time order. */
  lemma SortedByStartIffNoInversion(s: seq<Job>)
    ensures SortedByStart(s) <==> forall p, q :: 0 <= p < q < |s| ==> !StartsBefore(s[q], s[p])
  {
  }

  /** What `jobs` returns for the registry `jobs`: each registered job
      exactly once, nothing else, in start-time order. */
  ghost predicate Listing(s: seq<Job>, jobs: map<string, Job>)
  {
    && |s| == |jobs|
    && (forall k :: k in jobs ==> multiset(s)[jobs[k]] == 1)
    && (forall p :: 0 <= p < |s| ==> s[p] in jobs.Values)
    && SortedByStart(s)
  }

  ghost predicate Distinct<T>(s: seq<T>)
  {
    forall p, q :: 0 <= p < q < |s| ==> s[p] != s[q]
  }

  /** In a sequence without repetitions, each element occurs once. */
  lemma {:induction false} DistinctOccursOnce<T>(s: seq<T>, x: T)
    requires Distinct(s) && x in s
    ensures multiset(s)[x] == 1
  {
    assert s == [s[0]] + s[1..];
    if s[0] == x {
      assert x !in s[1..];
    } else {
      DistinctOccursOnce(s[1..], x);
    }
  }

  /** Copying the jobs of `m` in an order that lists every key once puts
      each job in the copy exactly once, and nothing else. */
  lemma CopiedOnceEach(copy: seq<Job>, order: seq<string>, m: map<string, Job>)
    requires forall k :: k in m ==> m[k].url == k
    requires |copy| == |order|
    requires forall p :: 0 <= p < |order| ==> order[p] in m && copy[p] == m[order[p]]
    requires forall p, q :: 0 <= p < q < |order| ==> order[p] != order[q]
    requires forall k :: k in m ==> k in order
    ensures forall k :: k in m ==> multiset(copy)[m[k]] == 1
    ensures forall k :: k in m ==> m[k] in copy
    ensures forall p :: 0 <= p < |copy| ==> copy[p] in m.Values
  {
    assert Distinct(copy) by {
      forall p, q | 0 <= p < q < |copy| ensures copy[p] != copy[q] {
        assert copy[p].url == order[p];
      }
    }
    forall k | k in m ensures m[k] in copy && multiset(copy)[m[k]] == 1 {
      var p :| 0 <= p < |order| && order[p] == k;
      assert copy[p] == m[k];
      DistinctOccursOnce(copy, m[k]);
    }
  }

  /** `sortJob.Swap`. */
  method Swap(a: array<Job>, i: nat, j: nat)
    requires i < a.Length && j < a.Length
    modifies a
    ensures a[i] == old(a[j]) && a[j] == old(a[i])
    ensures forall k :: 0 <= k < a.Length && k != i && k != j ==> a[k] == old(a[k])
    ensures multiset(a[..]) == multiset(old(a[..]))
  {
    a[i], a[j] := a[j], a[i];
  }

  /** `sortJobs`: `sort.Sort` over `Less` and `Swap`, here as insertion sort
      (the library's algorithm for short slices). */
  method SortJobs(a: array<Job>)
    modifies a
    ensures SortedByStart(a[..])
    ensures multiset(a[..]) == multiset(old(a[..]))
  {
    var i := 0;
    while i < a.Length
      invariant 0 <= i <= a.Length
      invariant forall p, q :: 0 <= p < q < i ==> a[p].start <= a[q].start
      invariant multiset(a[..]) == multiset(old(a[..]))
    {
      var j := i;
      while j > 0 && StartsBefore(a[j], a[j - 1])
        invariant 0 <= j <= i
        invariant forall p, q :: 0 <= p < q <= i && p != j && q != j ==> a[p].start <= a[q].start
        invariant forall q :: j < q <= i ==> a[j].start <= a[q].start
        invariant multiset(a[..]) == multiset(old(a[..]))
      {
        Swap(a, j - 1, j);
        j := j - 1;
      }
      i := i + 1;
    }
  }

  /** Go's `Service`: the job map and the alert list. A nil map is the
      empty map. */
  class Service {
    var Jobs: map<string, Job>
    var Alerts: seq<string>

    constructor ()
      ensures Jobs == map[] && Alerts == []
    {
      Jobs := map[];
      Alerts := [];
    }

    /** The handles the registry's jobs own. */
    ghost function Cmds(): set<Cmd>
      reads this`Jobs
    {
      set j | j in Jobs.Values :: j.cmd
    }

    /** Each job is filed under its own URL (so distinct keys hold distinct
        jobs), and no job's handle has been closed: nothing closes a job's
        handle. */
    ghost predicate Valid()
      reads this`Jobs, Cmds()
    {
      forall k :: k in Jobs ==> Jobs[k].url == k && Jobs[k].cmd.Open()
    }

    /** `addAlerts`: append one message. */
    method AddAlert(t: string)
      modifies this`Alerts
      ensures Alerts == old(Alerts) + [t]
    {
      Alerts := Alerts + [t];
    }

    /** `alerts`: take every pending message, in order, and clear the list. */
    method TakeAlerts() returns (a: seq<string>)
      modifies this`Alerts
      ensures a == old(Alerts) && Alerts == []
    {
      a := Alerts;
      Alerts := [];
    }

    /** `submitJob`. */
    method SubmitJob(url: string, escapeUrl: string, now: int, spawn: Spawn) returns (j: Job?)
      requires Valid()
      modifies this
      ensures Valid()
      ensures url in old(Jobs) ==>
                j == old(Jobs)[url] && Jobs == old(Jobs) && Alerts == old(Alerts) + ["url exists " + url]
      ensures url !in old(Jobs) && spawn.SpawnFailed? ==>
                j == null && Jobs == old(Jobs) && Alerts == old(Alerts) + ["url(" + url + ") fails: " + spawn.err]
      ensures url !in old(Jobs) && spawn.Spawned? ==>
                && j != null && fresh(j) && fresh(j.cmd)
                && j.url == url && j.escapeUrl == escapeUrl && j.start == now
                && j.cmd.process == Some(Process(spawn.pid, None)) && j.cmd.output == Some(spawn.captureFile)
                && Jobs == old(Jobs)[url := j] && Alerts == old(Alerts)
    {
      if url in Jobs {
        j := Jobs[url];
        AddAlert("url exists " + url);
        return;
      }
      j := StartJob(url, escapeUrl, now, spawn);
      if j == null {
        AddAlert("url(" + url + ") fails: " + spawn.err);
        return;
      }
      Jobs := Jobs[url := j];
    }

    /** `Submit`: trim the form value and submit it unless it is blank; the
        reply is always a redirect to the listing. */
    method Submit(raw: string, escapeUrl: string, now: int, spawn: Spawn)
      requires Valid()
      modifies this
      ensures Valid()
      ensures AllSpace(raw) ==> Jobs == old(Jobs) && Alerts == old(Alerts)
      ensures var url := TrimSpace(raw);
              && (!AllSpace(raw) && url in old(Jobs) ==>
                    Jobs == old(Jobs) && Alerts == old(Alerts) + ["url exists " + url])
              && (!AllSpace(raw) && url !in old(Jobs) && spawn.SpawnFailed? ==>
                    Jobs == old(Jobs) && Alerts == old(Alerts) + ["url(" + url + ") fails: " + spawn.err])
              && (!AllSpace(raw) && url !in old(Jobs) && spawn.Spawned? ==>
                    && url in Jobs && Jobs == old(Jobs)[url := Jobs[url]] && Alerts == old(Alerts)
                    && fresh(Jobs[url]) && Jobs[url].start == now
                    && Jobs[url].cmd.process == Some(Process(spawn.pid, None)))
    {
      var url := TrimSpace(raw);
      TrimSpaceEmptyIff(raw);
      if url != "" {
        var j := SubmitJob(url, escapeUrl, now, spawn);
      }
    }

    /** The waiter goroutine of the job filed under `url` sees its process
        exit (cmd/main.go:168-175). */
    method JobExited(url: string, st: ProcessState)
      requires Valid() && url in Jobs && Jobs[url].cmd.process.value.state.None?
      modifies Jobs[url].cmd
      ensures Valid()
      ensures Jobs[url].cmd.process == Some(Process(old(Jobs[url].cmd.process.value.pid), Some(st)))
      ensures Jobs[url].cmd.output == old(Jobs[url].cmd.output)
    {
      Jobs[url].cmd.ObserveExit(st);
    }

    /** The `range` loop of `jobs`, visiting the keys in `order`: each
        job's `state` is refreshed and the job stored in the next slot. */
    method CopyInOrder(order: seq<string>) returns (r: array<Job>)
      requires Valid()
      requires |order| == |Jobs|
      requires forall p :: 0 <= p < |order| ==> order[p] in Jobs
      modifies Jobs.Values`state
      ensures Valid()
      ensures fresh(r) && r.Length == |order|
      ensures forall p :: 0 <= p < |order| ==> r[p] == Jobs[order[p]]
      ensures AllRefreshed(r[..])
    {
      if |order| == 0 {
        return new Job[0];
      }
      var jobs := Jobs;
      ghost var js := seq(|order|, p requires 0 <= p < |order| => jobs[order[p]]);
      var first := jobs[order[0]];
      r := new Job[|order|](_ => first);
      for i := 0 to |order|
        invariant forall p :: 0 <= p < i ==> r[p] == js[p] && Refreshed(js[p])
      {
        var v := jobs[order[i]];
        assert v == js[i];
        v.Refresh();
        r[i] := v;
      }
    }

    /** The unsorted snapshot `jobs` builds: every job once, refreshed. */
    method Snapshot() returns (r: array<Job>)
      requires Valid()
      modifies Jobs.Values`state
      ensures Valid() && fresh(r)
      ensures r.Length == |Jobs|
      ensures forall k :: k in Jobs ==> multiset(r[..])[Jobs[k]] == 1
      ensures forall p :: 0 <= p < r.Length ==> r[p] in Jobs.Values
      ensures AllRefreshed(r[..])
    {
      var order := IterationOrder(Jobs);
      r := CopyInOrder(order);
      ghost var jobs := Jobs;
      CopiedOnceEach(r[..], order, jobs);
    }

    /** `jobs`: every job exactly once, each with its `state` refreshed,
        sorted by start time. */
    method ListJobs() returns (r: array<Job>)
      requires Valid()
      modifies Jobs.Values`state
      ensures Valid() && fresh(r)
      ensures Listing(r[..], Jobs) && AllRefreshed(r[..])
    {
      r := Snapshot();
      ghost var jobs := Jobs;
      ghost var filled := r[..];
      SortJobs(r);
      RefreshedPermuted(filled, r[..]);
      forall p | 0 <= p < r.Length ensures r[p] in jobs.Values {
        assert r[p] in multiset(filled);
      }
    }

    /** `Index`: the listing with each job's elapsed time stamped at `now`,
        and the pending alerts, which are drained. */
    method Index(now: int) returns (listed: seq<Job>, alerts: seq<string>)
      requires Valid()
      modifies this`Alerts, Jobs.Values
      ensures Valid() && Jobs == old(Jobs)
      ensures Listing(listed, Jobs) && AllRefreshed(listed)
      ensures forall p :: 0 <= p < |listed| ==> listed[p].spend == now - listed[p].start
      ensures alerts == old(Alerts) && Alerts == []
    {
      listed := StampedJobs(now);
      alerts := TakeAlerts();
    }

    /** The first half of `Index`: the listing, each job stamped with its
        elapsed time at `now`. */
    method StampedJobs(now: int) returns (listed: seq<Job>)
      requires Valid()
      modifies Jobs.Values
      ensures Valid()
      ensures Listing(listed, Jobs) && AllRefreshed(listed)
      ensures forall p :: 0 <= p < |listed| ==> listed[p].spend == now - listed[p].start
    {
      var r := ListJobs();
      listed := r[..];
      StampSpend(listed, now);
    }

    /** `Status`: the tail of the job's capture file, followed by the exit
        description once the process has exited; 404 for an unknown job and
        500 with the error line when the read fails. The file's bytes, its
        write offset and the read's error are the caller's. */
    function Status(raw: string, file: seq<byte>, offset: nat, readErr: Option<string>): (resp: Response)
      reads this`Jobs, Cmds()
      requires Valid()
      ensures resp.code == 404 <==> TrimSpace(raw) !in Jobs
      ensures resp.code == 404 ==> resp.body == ""
      ensures resp.code == 500 <==> TrimSpace(raw) in Jobs && offset > 0 && readErr.Some?
      ensures resp.code == 500 ==> resp.body == readErr.value + "\n"
      ensures resp.code == 200 || resp.code == 404 || resp.code == 500
      ensures resp.code == 200 ==>
                var cmd := Jobs[TrimSpace(raw)].cmd;
                var n := if offset == 0 then 0 else WindowSize;
                && n <= |resp.body|
                && (forall i :: 0 <= i < n ==> resp.body[i] as int == ByteAt(file, WindowStart(offset) + i) as int)
                && (cmd.ExitText().None? ==> |resp.body| == n)
                && (cmd.ExitText().Some? ==> resp.body[n..] == "\n" + cmd.ExitText().value)
    {
      var url := TrimSpace(raw);
      if url !in Jobs then Response(404, "")
      else
        var cmd := Jobs[url].cmd;
        match cmd.Tail(file, offset, readErr)
        case Failure(err) => Response(500, err + "\n")
        case Success(data) =>
          var note := if cmd.ExitText().Some? then "\n" + cmd.ExitText().value else "";
          Response(200, BytesText(data) + note)
    }

    /** The loop of `Index` that stamps each listed job's elapsed time
        (`time.Since(j.Start)`). */
    method StampSpend(listed: seq<Job>, now: int)
      requires Valid() && AllRefreshed(listed)
      modifies listed
      ensures Valid() && AllRefreshed(listed)
      ensures forall p :: 0 <= p < |listed| ==> listed[p].spend == now - listed[p].start
    {
      for i := 0 to |listed|
        invariant Valid() && AllRefreshed(listed)
        invariant forall p :: 0 <= p < i ==> listed[p].spend == now - listed[p].start
      {
        listed[i].spend := now - listed[i].start;
      }
    }
  }
}
