# youtubedr-web job supervisor, modelled in Dafny

The web front end in `cmd/main.go` supervises download jobs. Each job is a `BBDown` child process whose output goes to a temporary capture file. The parts modelled here are:

- **Job registry** (`Service.Jobs`). It maps each submitted URL to its job, and submitting a URL that is already filed does not spawn again.
- **Alert queue** (`Service.Alerts`). Messages are appended and drained by the listing page.
- **Listing snapshot** (`jobs` with `sortJob`). It collects every job, records each job's state and sorts the jobs by start time.
- **Tail window** (`Cmd.Tail`). It reads the last 4096 bytes before the capture file's write offset.
- **Handle lifecycle** (`Exec`, `Cmd.Close`).
- **Login slot** (`loginCmd` with `Login` and `LoginLog`). It holds the most recent login process.
- **HTTP handlers** `Index`, `Submit` and `Status`. These assemble responses from the state above.

Modules, one per concern:

| file | module | models |
|---|---|---|
| `common.dfy` | `Common` | `Option`, `Result` and the `Response` (status code and body) a handler writes |
| `log_tail.dfy` | `LogTail` | the window arithmetic of `Tail` on a byte sequence |
| `process_handle.dfy` | `ProcessHandle` | `Cmd` as a class whose two fields `Close` clears; `Exec`; `Tail` |
| `text.dfy` | `Text` | `strings.TrimSpace` with Go's `unicode.IsSpace` set |
| `registry.dfy` | `JobRegistry` | `Job`, `Service`, `submitJob`, `Submit`, the alert queue, `jobs` and its insertion sort, `Index`, `Status` |
| `login.dfy` | `LoginSession` | the `loginCmd` slot, `Login` as written and corrected, `LoginLog` |
| `scenarios.dfy` | `RegistryScenarios` | end-to-end runs: duplicate submit, retry after a failed spawn, repeated submits, alert drains, exit shown in the listing and on the status page |

Some things outside the program become parameters:

- **Spawning** is an oracle value, `Spawn`. It is either `Spawned(pid, captureFile)` or `SpawnFailed(err)`.
- **Process exit** comes from a waiter goroutine. It is the explicit step `Cmd.ObserveExit`, or `Service.JobExited` for a job.
- **The capture file's contents, write offset and read error** are arguments of `Tail`, `Status` and `Log`.
- **The clock** is the `now` argument.

The model treats each handler as one atomic step. The locks `mu`, `alertsmu` and `loginMu` do not guarantee this: they guard only the registry, alert and slot reads and writes, and the handlers listed under "Left out" do part of their work outside them.

Facts of the code that the model keeps:

- The tail window is 4096 bytes and is not trimmed to valid UTF-8.
- There is no delete operation and no login timeout.
- `Close` is not idempotent. A second `Close` dereferences a nil `Cmd`, so `Close` requires an open handle.
- `LoginLog` writes the tail unfiltered.

## Model

| member | source | states |
|---|---|---|
| LogTail.WindowStart | cmd/main.go:123-127 | the window starts at 0 when the offset is at most 4096, else exactly 4096 bytes before the offset |
| LogTail.Window | cmd/main.go:123-134 | the buffer is 4096 bytes; byte i is the file's byte at start+i when that exists and 0 past the end of the file |
| LogTail.WindowHoldsLatest | cmd/main.go:123-134 | for 0 < offset <= file length, the buffer begins with the min(offset, 4096) bytes that end at the offset |
| LogTail.FullWindowIsSuffix | cmd/main.go:123-134 | when at least 4096 bytes were written, the tail at the end is exactly the file's last 4096 bytes |
| LogTail.ShortFileIsPadded | cmd/main.go:123-134 | a file shorter than the window comes back whole, followed by zero padding up to 4096 bytes |
| LogTail.BytesText | cmd/main.go:257 | Go's `string(bytes)`: one character per byte, same length, same values |
| ProcessHandle.Cmd.constructor | cmd/main.go:103-116 | a freshly spawned handle has its process, not yet reaped, and its capture file |
| ProcessHandle.Cmd.ObserveExit | cmd/main.go:168-175 | `Wait` returning records the terminal state and changes nothing else |
| ProcessHandle.Cmd.Close | cmd/main.go:137-146 | requires an open handle; afterwards both fields are nil |
| ProcessHandle.Cmd.Tail | cmd/main.go:118-135 | a closed handle gives "invalid argument"; offset 0 gives an empty success; a read error is returned; otherwise the 4096-byte window. Succeeds iff the handle is open and the offset is 0 or the read had no error |
| ProcessHandle.Cmd.ExitText | cmd/main.go:253-255 | the exit description is present iff the process state is set and reports an exit |
| ProcessHandle.Exec | cmd/main.go:103-116 | nil iff the spawn fails; otherwise a fresh open handle holding the spawned process and its file |
| Text.LeadingSpaces | cmd/main.go:226 | counts the longest all-space prefix: those characters are spaces and the next one is not |
| Text.TrailingSpaces | cmd/main.go:226 | counts the longest all-space suffix |
| Text.TrimSpace | cmd/main.go:226 | the result is no longer than the input and neither starts nor ends with a space |
| Text.TrimSpaceKeepsMiddle | cmd/main.go:226 | the trimmed value is a contiguous slice of the input with only spaces before and after it |
| Text.TrimSpaceEmptyIff | cmd/main.go:226-227 | the trimmed value is empty iff the input is all spaces |
| JobRegistry.Job.constructor | cmd/main.go:149-152 | a job holds its URL, escaped URL, start time and handle |
| JobRegistry.Job.Refresh | cmd/main.go:381-385 | the job's state becomes "running" while its process state is nil, else the process's description |
| JobRegistry.StartJob | cmd/main.go:149-177 | nil iff spawning fails; otherwise a fresh job started at `now` around a fresh open handle |
| JobRegistry.IterationOrder | cmd/main.go:380 | `range` over the map visits every key exactly once |
| JobRegistry.CopiedOnceEach | cmd/main.go:379-388 | copying the map's values in such an order puts every job in the array exactly once and nothing else |
| JobRegistry.RefreshedPermuted | cmd/main.go:389 | sorting does not disturb any job's refreshed state |
| JobRegistry.ListingsArePermutations | cmd/main.go:375-391 | any two listings of one registry hold the same jobs, and their start times agree position by position, so map iteration order only affects the order of jobs with equal start times |
| JobRegistry.SortedPermutationsAgree | cmd/main.go:197-199 | two start-time orders of the same jobs have the same length and the same start time at every position |
| JobRegistry.SortedByStartIffNoInversion | cmd/main.go:193-199 | the order `sort.Sort` promises with `sortJob.Less` (`StartsBefore`), that no later job is `Less` than an earlier one, is exactly non-decreasing start time |
| JobRegistry.Swap | cmd/main.go:190-192 | exchanges two slots, keeps every other slot, and keeps the multiset of jobs |
| JobRegistry.SortJobs | cmd/main.go:184-199 | the array ends sorted by non-decreasing start time and is a permutation of the input |
| JobRegistry.Service.constructor | cmd/main.go:201-207 | a new service has no jobs and no alerts |
| JobRegistry.Service.AddAlert | cmd/main.go:340-344 | appends exactly one message at the end |
| JobRegistry.Service.TakeAlerts | cmd/main.go:346-352 | returns every pending message in order and leaves the list empty |
| JobRegistry.Service.SubmitJob | cmd/main.go:354-373 | existing URL: the same job, registry unchanged, one "url exists" alert. Failed spawn: nil, registry unchanged, one "url(..) fails: .." alert. Otherwise: a fresh job filed as `old[url := j]` and no alert. The registry invariant is kept |
| JobRegistry.Service.Submit | cmd/main.go:224-233 | a blank form value changes nothing; any other value is trimmed and submitted with the three outcomes above |
| JobRegistry.Service.JobExited | cmd/main.go:168-175 | the job's process records its terminal state, keeping its pid and its capture file; the registry invariant is kept |
| JobRegistry.Service.CopyInOrder | cmd/main.go:378-388 | slot p holds the job of the p-th visited key, with its state refreshed; only the jobs' `state` fields are written |
| JobRegistry.Service.Snapshot | cmd/main.go:375-388 | an array of length \|Jobs\| holding each job exactly once, only registered jobs, all refreshed; only the jobs' `state` fields are written |
| JobRegistry.Service.ListJobs | cmd/main.go:375-391 | the above, also sorted by start time; only the jobs' `state` fields are written |
| JobRegistry.Service.StampSpend | cmd/main.go:213-215 | every listed job's elapsed time is `now` minus its start; refreshed states are kept |
| JobRegistry.Service.StampedJobs | cmd/main.go:212-215 | the sorted, refreshed listing with elapsed times stamped |
| JobRegistry.Service.Index | cmd/main.go:209-222 | the stamped listing plus every pending alert, which are drained; the registry is unchanged |
| JobRegistry.Service.Status | cmd/main.go:235-260 | 404 with no body iff the trimmed job is unknown. 500 with the error line iff the read fails. Otherwise 200 with the window's bytes, then "\n" and the exit description only once the process has exited |
| LoginSession.LoginSlot.constructor | cmd/main.go:262-265 | the slot starts empty |
| LoginSession.LoginSlot.Login | cmd/main.go:267-282 | as written: closes the occupant, answers a failed spawn with its error and keeps the closed occupant (the slot is then not ready), stores a fresh open handle on success |
| LoginSession.LoginSlot.LoginCorrected | cmd/main.go:267-282 | as intended: also empties the slot after closing, so the slot is always ready for the next login |
| LoginSession.LoginSlot.Log | cmd/main.go:312-332 | "process not exists" with 200 on an empty slot; 500 with the error line when the read fails, always so on a closed occupant; 500 iff there is an occupant that is closed or whose read fails, so an open occupant read without error gets 200: the window's bytes as one line, then the exit description as a line once the process has exited |
| LoginSession.FailedLoginLeavesClosedOccupant | cmd/main.go:271-282 | after a successful and then a failed login, the slot is not ready for another `Login`, and the log page answers 500 "invalid argument" |
| LoginSession.CorrectedLoginsStayReady | cmd/main.go:271-282 | with the corrected replacement, any sequence of successful and failed logins leaves the slot ready |
| RegistryScenarios.DuplicateSubmitKeepsFirst | cmd/main.go:358-361 | a second submit of a URL returns the first job, the registry keeps one entry, and the drain holds exactly one "url exists" alert |
| RegistryScenarios.RetryAfterFailedSpawn | cmd/main.go:362-372 | a failed spawn files nothing and reports "url(..) fails: ..", and a later submit of the same URL spawns and files it |
| RegistryScenarios.RepeatedSubmitsSpawnOnce | cmd/main.go:354-373 | any number of resubmissions keep one entry, return the first job and add one alert each |
| RegistryScenarios.AlertsDrainInOrder | cmd/main.go:340-352 | a drain returns exactly the appended messages in order, and a second drain is empty |
| RegistryScenarios.ExitShowsInListing | cmd/main.go:375-391 | after the process exits, the listing shows its description as the job's state |
| RegistryScenarios.StatusAfterExit | cmd/main.go:235-260 | an exited job with an empty capture file shows a status page of "\n" followed by the exit description |

## Left out

- HTTP routing, method checks, basic-auth comparison, `Ping`, template rendering, flag and environment parsing, and `Serve` are I/O glue. `Status` and `Index` return the value handed to the template, and `Submit` always redirects to `/`.
- The QR-code half of `Login` (sleep, reading `qrcode.png`, base64) is file I/O through a library encoder. `Login` returns only the spawn error it answers with 500.
- Real processes and files are abstracted: `exec.Command`, `Start`, `Wait`, `Kill`, and creating and removing the capture file. A spawn is the `Spawn` oracle. The file is a byte sequence with an offset passed in. `Exec` leaking its temporary file when `Start` fails is not visible in the model.
- Goroutines, locks and `time.Sleep` are left out. Each method is one atomic step, so the interleavings below are not captured.
- LoginSession.LoginSlot.Log: `LoginLog` copies `loginCmd` under `loginMu` and then tails it and reads its `ProcessState` without the lock. A concurrent `Login` can close that handle in between, and then the `ProcessState` read dereferences a nil `Cmd`. The model has no such interleaving.
- JobRegistry.Service.Status: `Status` looks the job up under `mu` and then tails it and reads its `ProcessState` without a lock, racing with the waiter goroutine that sets the state. The model reads one consistent state.
- JobRegistry.Service.Index: `Index` takes `mu` inside `jobs` and `alertsmu` inside `alerts` as two separate steps, and writes `Spend` with no lock. A submit, an alert or an exit can fall between those steps, and two `Index` calls can write `Spend` concurrently. The model runs the whole handler as one step.
- `url.QueryEscape` and `ProcessState.String()` are taken as given strings.
- Times are integers. `Spend` is `now - start` with no `time.Duration` overflow.
- JobRegistry.SortJobs: `sort.Sort` is modelled as insertion sort. The promise is the same (sorted, a permutation), but equal start times may end in a different order than the library's.
- JobRegistry.IterationOrder: Go's randomised map order is a nondeterministic choice of key order. Every result is proved to be a permutation of the same jobs.
- Form values are taken as valid UTF-8, as sequences of code points. Invalid bytes, which `strings.TrimSpace` decodes as `utf8.RuneError` and keeps unchanged, are not represented.
- Go's `string(bytes)` keeps raw bytes, which are shown here as one character per byte. No UTF-8 decoding is modelled.

## Findings

| source | as written | input that shows it | evidently intended | confidence | as-written member | corrected member |
|---|---|---|---|---|---|---|
| cmd/main.go:271-282 | `Login` closes `loginCmd`, then on a failed spawn returns without clearing it, so the slot keeps a handle whose `Cmd` and `Output` are nil | a successful login, then a login whose spawn fails, then any login: the third call's `loginCmd.Close()` dereferences the nil `Cmd` (and `LoginLog` answers 500 "invalid argument" meanwhile) | clear `loginCmd` after closing it so a failed spawn leaves the slot empty | not executed | LoginSession.FailedLoginLeavesClosedOccupant | LoginSession.CorrectedLoginsStayReady |
