# Fault-injection controller of the workshop API, modelled in Dafny

The workshop API carries a "chaos engine": a table of seven named faults
(`memory_leak`, `cpu_spike`, `random_errors`, `slow_responses`,
`connection_leak`, `corrupt_data`, `crash_app`), each with an `enabled` flag
and an integer intensity. Three entries also own a resource: the memory
worker's retained chunks and thread handle, the CPU worker's thread handle, and
the list of deliberately leaked database connections. Admin endpoints enable,
disable and disable-all faults and report their status. The HTTP middleware
reads the table to abort, delay or corrupt requests under `/api/`. The
connection helper reads it to leak connections.

This project models that core and proves what it promises.

- `chaos.dfy`, module `Chaos` (src/api/chaos.py):
  - the table as a datatype `Registry`;
  - enable, disable and disable-all as specification functions on it;
  - a class `Controller` holding the same state, whose methods update it in
    place and are proved equal to those functions;
  - the random-error/slow-response decision;
  - the CPU worker's duty cycle and the crash timer's delay;
  - the memory worker's ceiling rule and its allocate-or-hold loop.
- `chaos_properties.dfy`, module `ChaosProperties`: lemmas that relate several
  calls. They cover status after enable and disable, idempotent worker start,
  crash scheduling, connection cleanup, disable-all and memory growth.
- `api.dfy`, module `Api` (src/api/main.py):
  - the request middleware (path gate, ingress, handler, corruption);
  - the connection helper with its leak bookkeeping, as a function and as a
    method on the shared `Controller`.

How the outside world appears in the model:
- Random draws (`random.randint(1, 100)`) and uniform catalog choices
  (`random.choice`) are parameters.
- Thread liveness is an oracle `isAlive: Handle -> bool`.
- A started worker thread is the next number from a counter (`nextHandle`).
- A started crash timer is its delay appended to `scheduledCrashes`.
- Database connections are abstract ids. Each connect call is a parameter
  that says whether it opened a connection or failed. Whether closing a
  connection raises is an oracle `closeFails`. Close attempts are logged in
  `closeAttempts`; the closes that succeed are collected in `closed`.
- The memory worker's resident-size measurements are a sequence of samples,
  one per loop iteration.

Behaviour of the code worth noting, which the model follows:
- A `memory_leak` intensity below 0 makes the worker's interval negative once one chunk fits under the target. Its first allocation is then followed by a sleep that raises, which ends the worker (`RunMemoryWorker`, `WorkerChunks`).
- The CPU worker's busy time is `intensity` ms, uncapped. An
  intensity above 100 gives a cycle longer than 100 ms (`CpuCycle`).
- The memory ceiling falls back to the host's total memory. A read failure other than a missing file or an unparsable value ends
  the worker (`MemoryCeiling` returns `None`).
- Nothing bounds the number of live workers. Disable forgets the recorded
  handle, so a quick re-enable starts a second thread while the old one may
  still run (`ReenableAfterDisableSpawns`).
- The status of a corrupted payload comes from whether it has a top-level
  `"error"` key. The third entry has none and is therefore served as 200.
- `time.sleep` raises for a negative delay and for one of 9_223_372_037
  seconds or more, which overflows its 64-bit nanosecond clock. Neither is an
  HTTP error. A `slow_responses` intensity outside that range fails every
  `/api/` request before its handler (the outcome `DelayRejected`). A
  `crash_app` delay at or above the bound kills the timer thread before
  `os._exit`, so the process keeps running (`CrashSleep` gives `SleepRaised`).

## Model

| member | source | states |
|---|---|---|
| `Chaos.Defaults` | src/api/chaos.py:21-29 | The initial table has the seven keys with their shapes, every fault disabled, no chunks, no handles and no leaked connections. Its status is exactly the seven default intensities 5, 50, 30, 3, 50, 20 and 5, all disabled. No crash is scheduled, no worker started and no close attempted |
| `Chaos.StatusOf` | src/api/chaos.py:575-585 | The status has exactly the table's keys, and each entry shows that fault's flag and intensity |
| `ChaosProperties.StatusShowsFlagAndIntensity` | src/api/chaos.py:575-585 | Two tables report the same status iff they have the same keys and agree on every flag and intensity, so threads, chunks and leaked connections never show |
| `Chaos.Controller.constructor` | src/api/chaos.py:21-29 | A new controller holds exactly the default table |
| `Chaos.EnableFault` | src/api/chaos.py:587-635 | An unknown name gives 404 and changes nothing. Otherwise the fault becomes enabled and its intensity is overwritten only when one is given. The reply echoes `{enabled, intensity}`. No other entry changes. A worker is started, with a fresh handle, only when the recorded handle is absent or not alive. A `crash_app` enable appends exactly one timer whose delay is the current intensity |
| `Chaos.Controller.Enable` | src/api/chaos.py:587-635 | Updating the table in place gives exactly the state and reply of `EnableFault` |
| `Chaos.DisableFault` | src/api/chaos.py:637-668 | An unknown name gives 404 and changes nothing. Otherwise the fault becomes disabled with its intensity kept, and no other entry changes. `memory_leak` loses its chunks and handle; `cpu_spike` loses its handle. `connection_leak` gets one close attempt per leaked connection, in order, and ends with an empty list. Crashes and worker count are untouched |
| `Chaos.Controller.Disable` | src/api/chaos.py:637-668 | The in-place update with its close loop gives exactly the state and reply of `DisableFault` |
| `Chaos.DisableAllFaults` | src/api/chaos.py:670-675 | Disable-all keeps the table well-formed and replies with the all-disabled acknowledgement; what it clears is stated by `ChaosProperties.DisableAllClearsEverything` |
| `Chaos.Controller.DisableAll` | src/api/chaos.py:670-675 | Disabling every key in table order in place gives the state of disabling them one after another, and the all-disabled reply |
| `ChaosProperties.DisableEachClears` | src/api/chaos.py:670-675 | Disabling a list of names clears each listed fault and its resources, keeps all intensities, and leaves unlisted entries unchanged. The leaked connections get one close attempt each iff `connection_leak` is listed |
| `ChaosProperties.DisableAllClearsEverything` | src/api/chaos.py:670-675 | After disable-all every fault is disabled with its intensity kept, and no chunk, handle or leaked connection remains. Each connection that was leaked has had exactly one close attempt, in order, and is closed iff its close does not fail. No worker is started and no crash is scheduled or dropped |
| `ChaosProperties.StatusAfterEnable` | src/api/chaos.py:575-635 | After enable, status shows the fault enabled with the effective intensity, and every other fault's status is unchanged |
| `ChaosProperties.StatusAfterDisable` | src/api/chaos.py:575-668 | After disable, status shows the fault disabled with its intensity kept, and every other fault's status is unchanged |
| `ChaosProperties.EnableDisablePlainFault` | src/api/chaos.py:587-668 | Enabling without an intensity and then disabling a fault that owns no resource restores the table except for the flag |
| `ChaosProperties.EnableWorkerIdempotent` | src/api/chaos.py:597-613 | A second enable while the recorded worker is alive keeps its handle and starts nothing, so two enables start at most one thread |
| `ChaosProperties.SpawnedHandleIsFresh` | src/api/chaos.py:597-613 | A started worker's handle differs from every recorded handle |
| `ChaosProperties.ReenableAfterDisableSpawns` | src/api/chaos.py:653-656 | Enable after disable of `cpu_spike` always starts a new thread, whatever the old thread's liveness |
| `ChaosProperties.CrashEnablesAccumulate` | src/api/chaos.py:615-626 | Two enables of `crash_app` schedule two more timers, in order, each with the intensity current at its call |
| `Chaos.CrashSleep` | src/api/chaos.py:617-623 | A crash timer with a delay of at most 0 exits at once. One with a positive delay the sleep accepts exits after exactly that delay. One with a delay of 9_223_372_037 s or more raises in the sleep and never exits |
| `ChaosProperties.ClosedByMembership` | src/api/chaos.py:658-665 | Cleanup closes a connection exactly when it was leaked and its close does not fail |
| `ChaosProperties.DisableIgnoresCloseFailures` | src/api/chaos.py:658-665 | Close failures are swallowed: the resulting table, reply and close attempts do not depend on which closes fail |
| `Chaos.ApplyChaos` | src/api/chaos.py:125-147 | Abort happens iff `random_errors` is enabled and draw ≤ intensity. So intensity ≥ 100 always aborts and ≤ 0 never does. An abort uses the picked catalog entry, whose status is 500, 503 or 504, and is not delayed. Otherwise the delay is the `slow_responses` intensity when enabled and 0 when disabled. The sleep fails iff that intensity is negative or 9_223_372_037 or more, and a delay that is slept is always below that bound |
| `Chaos.CpuCycle` | src/api/chaos.py:42-50 | For intensity in 0..100 the cycle is `intensity` ms busy plus `100 - intensity` ms asleep. At ≥ 100 there is no sleep, at ≤ 0 no busy time, and a cycle is never shorter than 100 ms |
| `Chaos.MemoryCeiling` | src/api/chaos.py:65-73 | The ceiling is the container limit unless the file is missing, unparsable, -1 or above 10^15; then it is the host total. Any other read failure stops the worker |
| `Chaos.MemoryStep` | src/api/chaos.py:95-109 | An iteration below the target retains exactly one more 50 MiB chunk; one at or above it retains nothing new |
| `Chaos.Controller.RunMemoryWorker` | src/api/chaos.py:61-122 | The in-place allocation loop runs one iteration per sample while the fault is enabled. If its interval sleep is accepted, it leaves exactly the chunks of the step-by-step run. If that sleep is rejected, the worker ends after its first allocation, holding that one chunk. It changes nothing else, and a disabled worker changes nothing |
| `Chaos.AllocationsNeeded` | src/api/chaos.py:84-85 | The number of allocations is the largest whole count of 50 MiB chunks that fits under the target, and it is at least 1 iff one chunk fits |
| `Chaos.IntervalSleeps` | src/api/chaos.py:61-119 | The interval sleep is always accepted when no chunk fits under the target, since it is then 1 s. It is rejected for a negative intensity once a chunk fits, and when its nanosecond count reaches 2^63. It is accepted for any intensity from 0 up to where 60 times the intensity reaches 9_223_372_037 |
| `Chaos.WorkerChunks` | src/api/chaos.py:95-122 | The worker's final chunks keep the old ones as a prefix. With an accepted interval they are the step-by-step run's. With a rejected one, the worker ends with exactly one more chunk iff some sample was below the target, and none otherwise |
| `Chaos.WorkerRun` | src/api/chaos.py:95-109 | The worker's run keeps every chunk it already held as a prefix and adds at most one chunk per iteration |
| `ChaosProperties.WorkerRunAppendsChunks` | src/api/chaos.py:95-109 | The worker keeps what it held and appends one chunk per sample below the target, and nothing else |
| `ChaosProperties.WorkerHoldsAtTarget` | src/api/chaos.py:95-102 | At most one chunk per iteration. At or above the target throughout, nothing is added; below it throughout, one chunk per iteration |
| `Api.ChaosMiddleware` | src/api/main.py:139-167 | A path outside `/api/` is never aborted, delayed or corrupted. The handler runs iff ingress lets the request through, and an aborted request gets no corruption check. Corruption happens iff `corrupt_data` is enabled, the path is under `/api/` and draw ≤ intensity. It substitutes the picked payload with status 500 iff the payload has an `"error"` key, else 200. Otherwise the handler's response is returned unchanged. A request under `/api/` that ingress lets through waits exactly the delay ingress chose, and only such a request waits at all. An aborted request carries exactly the picked catalog entry's detail and status. A rejected delay reports the `slow_responses` intensity |
| `Api.CorruptionStatus` | src/api/main.py:163 | A corrupted payload is served with 500 iff it has a top-level `"error"` key, and with 200 iff it has none |
| `Api.CorruptionCatalogStatuses` | src/api/main.py:155-165 | Corrupted payloads 0 and 1 are served with 500, payload 2 (`database_error`) with 200 |
| `Api.FullIntensityErrorsAbortEveryApiRequest` | src/api/main.py:139-149 | With random errors at intensity ≥ 100, every `/api/` request is aborted with 500, 503 or 504 before its handler, and other paths are served |
| `Api.SlowResponsesScenario` | src/api/main.py:139-149 | After enabling `slow_responses` with intensity 2, an `/api/` request that is not aborted waits 2 seconds and other paths wait none |
| `Api.AcquireConnection` | src/api/main.py:42-60 | An empty database URL gives 500 before anything else, and a failed first connect gives 500. When the leak triggers (enabled and draw ≤ intensity), the first connection is appended to the leaked list and the second is returned. If that second connect fails the result is 500 and the leak stays recorded. Otherwise the list is unchanged and the first connection is returned |
| `Api.LeakedNeverReturned` | src/api/main.py:48-57 | When connects yield fresh, distinct connections, the connection returned is never one in the leaked list |
| `Api.AcquireLeaksAtMostOne` | src/api/main.py:50-55 | Each acquisition leaks at most one connection and only appends to the list |
| `Api.GetDbConnection` | src/api/main.py:42-60 | The in-place update of the shared table gives exactly the state and reply of `AcquireConnection` |

## Left out

- Threads, `time.sleep`, `os._exit` and the races between disable and a running worker's polling loop are not modelled. A spawned worker is a handle number and a crash is a scheduled delay.
- The atomicity of registry reads and writes under concurrent requests is not modelled. The model is sequential.
- The CPU worker's loop and its busy-work computation are left out. Only the per-cycle split of busy and sleep time, in whole milliseconds, is modelled.
- The memory worker's float arithmetic is left out: the 95% target (taken as an input), the progress figures and the random bytes written into each chunk. The interval's value is not modelled; only whether the sleep accepts it is, and that test uses the exact quotient, not its float rounding. An allocation failure that ends the loop early is also left out.
- Reading the container limit file, `psutil` memory figures and the process's resident size are I/O. They are passed in as parsed values and samples.
- Chaos.Controller.RunMemoryWorker: the flag is read before each iteration as in the source, but no disable can happen during the run, so the loop never stops part-way on a disable.
- How the web framework renders an HTTP error raised inside the middleware or the helper is not modelled. The model returns the status and detail the code raises.
- The `slow_responses` default intensity `3.0` is a float in the source and is modelled as the integer 3. Request bodies carry an integer intensity.
- Request-body validation, the ignored `enabled` field of the request bodies and the response envelope fields (`status`, `fault`) are not modelled.
- The dashboard page, item CRUD endpoints, schema creation, health checks, the app lifespan, `apply_slow_mode`, logging, Application Insights, `gc.collect()` and the driver itself are outside the modelled core.
