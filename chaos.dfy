/**
  The fault-injection controller of the workshop API (src/api/chaos.py).

  A fixed table of seven named faults, each with an `enabled` flag and an
  integer intensity, and, for three of them, an owned resource: the memory
  worker's retained chunks and thread, the CPU worker's thread, and the list of
  deliberately leaked database connections. The admin operations enable,
  disable and disable-all mutate that table; the request path reads it.

  Threads, sleeps, process exit and randomness are not executed here: a spawned
  worker is a fresh handle number, a scheduled crash is its delay appended to a
  list, thread liveness and connection-close failures are oracles supplied by
  the caller, and random draws are parameters.
*/
module Chaos {

  datatype Option<T> = None | Some(value: T)

  /** A background worker thread, numbered in the order the threads were started. */
  type Handle = nat

  /** An open database connection, known only by identity. */
  type ConnId = nat

  const MemoryLeak: string := "memory_leak"
  const CpuSpike: string := "cpu_spike"
  const RandomErrors: string := "random_errors"
  const SlowResponses: string := "slow_responses"
  const ConnectionLeak: string := "connection_leak"
  const CorruptData: string := "corrupt_data"
  const CrashApp: string := "crash_app"

  /** The registry's keys, in the order disable-all visits them. */
  const FaultNames: seq<string> :=
    [MemoryLeak, CpuSpike, RandomErrors, SlowResponses, ConnectionLeak, CorruptData, CrashApp]

  const Names: set<string> :=
    {MemoryLeak, CpuSpike, RandomErrors, SlowResponses, ConnectionLeak, CorruptData, CrashApp}

  /** Bytes in one chunk the memory worker allocates (50 MiB). */
  const ChunkBytes: nat := 50 * 1024 * 1024

  /** The resources a fault's entry owns besides its flag and intensity. */
  datatype Slot =
    | Plain
    | Worker(thread: Option<Handle>)
    | MemoryWorker(leakData: seq<nat>, thread: Option<Handle>)
    | ConnectionPool(leakedConnections: seq<ConnId>)

  /** One entry of the registry; `leakData` holds the byte size of each retained chunk. */
  datatype Fault = Fault(enabled: bool, intensity: int, slot: Slot)

  /** What the status endpoint and the enable reply show of an entry. */
  datatype Config = Config(enabled: bool, intensity: int)

  /**
    The fault table together with the effects the controller has had on the
    outside world: crash timers started (their delays, in order), the number of
    worker threads started so far (the next handle), every close attempted on a
    leaked connection, and the connections whose close succeeded.
  */
  datatype Registry = Registry(
    faults: map<string, Fault>,
    scheduledCrashes: seq<int>,
    nextHandle: nat,
    closeAttempts: seq<ConnId>,
    closed: set<ConnId>)

  datatype Ack = Enabled(fault: string, config: Config) | Disabled(fault: string) | AllDisabled

  /** An admin reply: success, or an HTTP error status with its detail text. */
  datatype Reply = Ok(ack: Ack) | HttpError(status: int, detail: string)

  predicate HandleBelow(thread: Option<Handle>, bound: nat) {
    thread.Some? ==> thread.value < bound
  }

  /** The table has exactly the seven keys, each entry has its own shape, and
      every recorded worker handle was issued before `nextHandle`. */
  predicate WellFormed(r: Registry) {
    && r.faults.Keys == Names
    && r.faults[MemoryLeak].slot.MemoryWorker?
    && r.faults[CpuSpike].slot.Worker?
    && r.faults[ConnectionLeak].slot.ConnectionPool?
    && r.faults[RandomErrors].slot.Plain?
    && r.faults[SlowResponses].slot.Plain?
    && r.faults[CorruptData].slot.Plain?
    && r.faults[CrashApp].slot.Plain?
    && HandleBelow(r.faults[MemoryLeak].slot.thread, r.nextHandle)
    && HandleBelow(r.faults[CpuSpike].slot.thread, r.nextHandle)
  }

  /** The table as the process starts. */
  function Defaults(): (r: Registry)
    ensures WellFormed(r)
    ensures forall n :: n in r.faults ==> !r.faults[n].enabled
    ensures r.faults[MemoryLeak].slot == MemoryWorker([], None)
    ensures r.faults[CpuSpike].slot == Worker(None)
    ensures r.faults[ConnectionLeak].slot == ConnectionPool([])
    ensures StatusOf(r) == map[
      MemoryLeak := Config(false, 5), CpuSpike := Config(false, 50),
      RandomErrors := Config(false, 30), SlowResponses := Config(false, 3),
      ConnectionLeak := Config(false, 50), CorruptData := Config(false, 20),
      CrashApp := Config(false, 5)]
    ensures r.scheduledCrashes == [] && r.nextHandle == 0
    ensures r.closeAttempts == [] && r.closed == {}
  {
    Registry(
      map[
        MemoryLeak := Fault(false, 5, MemoryWorker([], None)),
        CpuSpike := Fault(false, 50, Worker(None)),
        RandomErrors := Fault(false, 30, Plain),
        SlowResponses := Fault(false, 3, Plain),
        ConnectionLeak := Fault(false, 50, ConnectionPool([])),
        CorruptData := Fault(false, 20, Plain),
        CrashApp := Fault(false, 5, Plain)],
      [], 0, [], {})
  }

  /** The status endpoint: every fault's flag and intensity, no handles or buffers. */
  function StatusOf(r: Registry): (s: map<string, Config>)
    ensures s.Keys == r.faults.Keys
    ensures forall n :: n in s ==> s[n].enabled == r.faults[n].enabled && s[n].intensity == r.faults[n].intensity
  {
    map n | n in r.faults :: Config(r.faults[n].enabled, r.faults[n].intensity)
  }

  function NotFoundDetail(name: string): string {
    "Fault type '" + name + "' not found"
  }

  /** A worker is started when none is recorded or the recorded one has finished. */
  predicate ShouldSpawn(thread: Option<Handle>, isAlive: Handle -> bool) {
    thread.None? || !isAlive(thread.value)
  }

  /** The type-specific part of enable, run after the flag and intensity are written. */
  function Activate(r: Registry, name: string, isAlive: Handle -> bool): Registry
    requires WellFormed(r) && name in r.faults
  {
    if name == CpuSpike || name == MemoryLeak then
      var f := r.faults[name];
      if ShouldSpawn(f.slot.thread, isAlive) then
        r.(faults := r.faults[name := f.(slot := f.slot.(thread := Some(r.nextHandle)))],
           nextHandle := r.nextHandle + 1)
      else r
    else if name == CrashApp then
      r.(scheduledCrashes := r.scheduledCrashes + [r.faults[CrashApp].intensity])
    else r
  }

  /** enable_chaos_fault: `intensity` is the optional field of the request body. */
  function EnableFault(r: Registry, name: string, intensity: Option<int>, isAlive: Handle -> bool)
    : (out: (Registry, Reply))
    requires WellFormed(r)
    ensures WellFormed(out.0)
    ensures name !in Names ==> out == (r, HttpError(404, NotFoundDetail(name)))
    ensures name in Names ==>
      && out.0.faults[name].enabled
      && out.0.faults[name].intensity == (if intensity.Some? then intensity.value else r.faults[name].intensity)
      && out.1 == Ok(Enabled(name, Config(true, out.0.faults[name].intensity)))
      && (forall n :: n in r.faults && n != name ==> out.0.faults[n] == r.faults[n])
    ensures (name == CpuSpike || name == MemoryLeak) ==>
      if ShouldSpawn(r.faults[name].slot.thread, isAlive) then
        && out.0.faults[name].slot == r.faults[name].slot.(thread := Some(r.nextHandle))
        && out.0.nextHandle == r.nextHandle + 1
      else
        && out.0.faults[name].slot == r.faults[name].slot
        && out.0.nextHandle == r.nextHandle
    ensures name != CpuSpike && name != MemoryLeak ==> out.0.nextHandle == r.nextHandle
    ensures name != CpuSpike && name != MemoryLeak && name in Names ==>
      out.0.faults[name].slot == r.faults[name].slot
    ensures name == CrashApp ==>
      out.0.scheduledCrashes == r.scheduledCrashes + [out.0.faults[CrashApp].intensity]
    ensures name != CrashApp ==> out.0.scheduledCrashes == r.scheduledCrashes
    ensures out.0.closeAttempts == r.closeAttempts && out.0.closed == r.closed
  {
    if name !in r.faults then (r, HttpError(404, NotFoundDetail(name)))
    else
      var f := r.faults[name];
      var f' := f.(enabled := true, intensity := if intensity.Some? then intensity.value else f.intensity);
      var r' := Activate(r.(faults := r.faults[name := f']), name, isAlive);
      (r', Ok(Enabled(name, Config(r'.faults[name].enabled, r'.faults[name].intensity))))
  }

  /** The connections of `conns` whose close does not raise. */
  function ClosedBy(conns: seq<ConnId>, closeFails: ConnId -> bool): set<ConnId> {
    if conns == [] then {}
    else
      var last := conns[|conns| - 1];
      ClosedBy(conns[..|conns| - 1], closeFails) + (if closeFails(last) then {} else {last})
  }

  /** disable_chaos_fault. */
  function DisableFault(r: Registry, name: string, closeFails: ConnId -> bool): (out: (Registry, Reply))
    requires WellFormed(r)
    ensures WellFormed(out.0)
    ensures name !in Names ==> out == (r, HttpError(404, NotFoundDetail(name)))
    ensures name in Names ==>
      && !out.0.faults[name].enabled
      && out.0.faults[name].intensity == r.faults[name].intensity
      && out.1 == Ok(Disabled(name))
      && (forall n :: n in r.faults && n != name ==> out.0.faults[n] == r.faults[n])
    ensures name == MemoryLeak ==> out.0.faults[MemoryLeak].slot == MemoryWorker([], None)
    ensures name == CpuSpike ==> out.0.faults[CpuSpike].slot == Worker(None)
    ensures name == ConnectionLeak ==>
      var leaked := r.faults[ConnectionLeak].slot.leakedConnections;
      && out.0.faults[ConnectionLeak].slot == ConnectionPool([])
      && out.0.closeAttempts == r.closeAttempts + leaked
      && out.0.closed == r.closed + ClosedBy(leaked, closeFails)
    ensures name != ConnectionLeak ==> out.0.closeAttempts == r.closeAttempts && out.0.closed == r.closed
    ensures name in Names && name != MemoryLeak && name != CpuSpike && name != ConnectionLeak ==>
      out.0.faults[name].slot == r.faults[name].slot
    ensures out.0.scheduledCrashes == r.scheduledCrashes && out.0.nextHandle == r.nextHandle
  {
    if name !in r.faults then (r, HttpError(404, NotFoundDetail(name)))
    else
      var f := r.faults[name].(enabled := false);
      var r' :=
        if name == MemoryLeak then
          r.(faults := r.faults[name := f.(slot := MemoryWorker([], None))])
        else if name == CpuSpike then
          r.(faults := r.faults[name := f.(slot := Worker(None))])
        else if name == ConnectionLeak then
          var leaked := f.slot.leakedConnections;
          r.(faults := r.faults[name := f.(slot := ConnectionPool([]))],
             closeAttempts := r.closeAttempts + leaked,
             closed := r.closed + ClosedBy(leaked, closeFails))
        else
          r.(faults := r.faults[name := f]);
      (r', Ok(Disabled(name)))
  }

  /** Disables each of `names` in turn, as disable-all does with the table's keys. */
  function DisableEach(r: Registry, names: seq<string>, closeFails: ConnId -> bool): (out: Registry)
    requires WellFormed(r)
    ensures WellFormed(out)
  {
    if names == [] then r
    else DisableFault(DisableEach(r, names[..|names| - 1], closeFails), names[|names| - 1], closeFails).0
  }

  /** Disabling one more name of a list continues from its prefix. */
  lemma DisableEachPrefix(r: Registry, names: seq<string>, i: nat, closeFails: ConnId -> bool)
    requires WellFormed(r) && i < |names|
    ensures DisableEach(r, names[..i + 1], closeFails)
         == DisableFault(DisableEach(r, names[..i], closeFails), names[i], closeFails).0
  {
    assert names[..i + 1][..i] == names[..i];
  }

  /** disable_all_chaos. */
  function DisableAllFaults(r: Registry, closeFails: ConnId -> bool): (out: (Registry, Reply))
    requires WellFormed(r)
    ensures WellFormed(out.0)
    ensures out.1 == Ok(AllDisabled)
  {
    (DisableEach(r, FaultNames, closeFails), Ok(AllDisabled))
  }

  // ---------------------------------------------------------------------------
  // Request path: random errors and slow responses (apply_chaos_middleware)
  // ---------------------------------------------------------------------------

  /** The synthetic failures a random error picks from, with their status codes. */
  const ErrorCatalog: seq<(string, int)> := [
    ("Database connection pool exhausted - max pool size reached", 503),
    ("Database query timeout after 30s - please retry", 504),
    ("Serialization error: Object of type 'datetime' is not JSON serializable", 500),
    ("psycopg2.OperationalError: server closed the connection unexpectedly", 503),
    ("Connection to database lost - unable to acquire connection from pool", 503),
    ("SSL SYSCALL error: EOF detected", 500)
  ]

  /** The smallest whole number of seconds the sleep primitive rejects as too
      large: it converts seconds to signed 64-bit nanoseconds, and
      9_223_372_037 * 10^9 exceeds 2^63 - 1. */
  const SleepOverflow: int := 9_223_372_037

  /** The sleep primitive raises for a negative delay and for one that
      overflows its nanosecond clock; it accepts every other whole delay. */
  predicate SleepAccepts(seconds: int) {
    0 <= seconds < SleepOverflow
  }

  /**
    What the ingress check decides: let the request through after `delay`
    seconds, abort it with a synthetic error, or fail because the configured
    delay is one the sleep primitive rejects (negative or too large), with an
    exception that is not an HTTP error.
  */
  datatype Ingress = Proceed(delay: nat) | Abort(status: int, detail: string) | SleepFailed(seconds: int)

  /** apply_chaos_middleware. `draw` is the uniform draw in [1, 100] and `pick`
      the uniformly chosen catalog index; neither is used unless needed. */
  function ApplyChaos(r: Registry, draw: int, pick: nat): (g: Ingress)
    requires WellFormed(r)
    requires 1 <= draw <= 100 && pick < |ErrorCatalog|
    ensures g.Abort? <==> r.faults[RandomErrors].enabled && draw <= r.faults[RandomErrors].intensity
    ensures r.faults[RandomErrors].enabled && r.faults[RandomErrors].intensity >= 100 ==> g.Abort?
    ensures r.faults[RandomErrors].intensity <= 0 ==> !g.Abort?
    ensures g.Abort? ==> g.status in {500, 503, 504} && (g.detail, g.status) == ErrorCatalog[pick]
    ensures g.SleepFailed? <==>
      !g.Abort? && r.faults[SlowResponses].enabled && !SleepAccepts(r.faults[SlowResponses].intensity)
    ensures g.SleepFailed? ==>
      g.seconds == r.faults[SlowResponses].intensity
      && (g.seconds < 0 || g.seconds >= SleepOverflow)
    ensures g.Proceed? && g.delay > 0 ==>
      r.faults[SlowResponses].enabled && g.delay == r.faults[SlowResponses].intensity
    ensures g.Proceed? ==> g.delay < SleepOverflow
    ensures !g.Abort? && r.faults[SlowResponses].enabled && SleepAccepts(r.faults[SlowResponses].intensity) ==>
      g == Proceed(r.faults[SlowResponses].intensity)
    ensures !g.Abort? && !r.faults[SlowResponses].enabled ==> g == Proceed(0)
  {
    var errors := r.faults[RandomErrors];
    var slow := r.faults[SlowResponses];
    if errors.enabled && draw <= errors.intensity then
      Abort(ErrorCatalog[pick].1, ErrorCatalog[pick].0)
    else if slow.enabled then
      if SleepAccepts(slow.intensity) then Proceed(slow.intensity) else SleepFailed(slow.intensity)
    else
      Proceed(0)
  }

  // ---------------------------------------------------------------------------
  // Background workers and the crash timer
  // ---------------------------------------------------------------------------

  /** One cycle of the CPU worker in whole milliseconds: busy time, then sleep. */
  datatype DutyCycle = DutyCycle(busyMs: nat, sleepMs: nat)

  /** cpu_burn_thread's split of a cycle: busy for `intensity` ms, sleep for
      `100 - intensity` ms, skipping the sleep when that is not positive. */
  function CpuCycle(intensity: int): (c: DutyCycle)
    ensures 0 <= intensity <= 100 ==> c.busyMs == intensity && c.busyMs + c.sleepMs == 100
    ensures intensity >= 100 ==> c.sleepMs == 0 && c.busyMs == intensity
    ensures intensity <= 0 ==> c.busyMs == 0 && c.sleepMs == 100 - intensity
    ensures c.busyMs + c.sleepMs >= 100
  {
    DutyCycle(if intensity > 0 then intensity else 0, if 100 - intensity > 0 then 100 - intensity else 0)
  }

  /** What a crash timer thread does: end the process after sleeping some
      seconds, or die with the sleep primitive's exception before reaching the
      process exit, leaving the process running. */
  datatype CrashTimer = ExitsAfter(seconds: nat) | SleepRaised(delay: int)

  /** crash_with_delay: sleep the delay when it is positive, then exit. */
  function CrashSleep(delay: int): (t: CrashTimer)
    ensures t.SleepRaised? <==> delay >= SleepOverflow
    ensures t.SleepRaised? ==> t.delay == delay
    ensures t.ExitsAfter? ==> (t.seconds == 0 <==> delay <= 0)
    ensures t.ExitsAfter? && t.seconds > 0 ==> t.seconds == delay && SleepAccepts(delay)
  {
    if delay <= 0 then ExitsAfter(0)
    else if SleepAccepts(delay) then ExitsAfter(delay)
    else SleepRaised(delay)
  }

  /** The outcome of reading the container's memory limit file. */
  datatype CgroupRead =
    | NoFile                 // the file does not exist
    | NotAnInteger           // its content does not parse (the literal "max")
    | Limit(bytes: int)      // it parses to this integer
    | ReadError              // any other failure while reading it

  /** Limits above this many bytes count as "no limit". */
  const UnlimitedThreshold: int := 1_000_000_000_000_000

  /**
    The memory ceiling the memory worker aims at: the container limit when one
    is set, the host's total memory otherwise. A read failure other than a
    missing file or an unparsable value ends the worker (None).
  */
  function MemoryCeiling(read: CgroupRead, hostTotal: nat): (c: Option<int>)
    ensures c.None? <==> read.ReadError?
    ensures read.Limit? && read.bytes != -1 && read.bytes <= UnlimitedThreshold ==> c == Some(read.bytes)
    ensures read.NoFile? || read.NotAnInteger? ==> c == Some(hostTotal)
    ensures read.Limit? && (read.bytes == -1 || read.bytes > UnlimitedThreshold) ==> c == Some(hostTotal)
  {
    match read
    case ReadError => None
    case NoFile => Some(hostTotal)
    case NotAnInteger => Some(hostTotal)
    case Limit(b) => if b == -1 || b > UnlimitedThreshold then Some(hostTotal) else Some(b)
  }

  /** One iteration of the memory worker, given the resident size it measured. */
  function MemoryStep(leakData: seq<nat>, rss: int, target: int): (d: seq<nat>)
    ensures rss < target ==> d == leakData + [ChunkBytes]
    ensures rss >= target ==> d == leakData
  {
    if rss >= target then leakData else leakData + [ChunkBytes]
  }

  /** The retained chunks after the worker has run one iteration per sample. */
  function WorkerRun(leakData: seq<nat>, target: int, samples: seq<int>): (d: seq<nat>)
    ensures |leakData| <= |d| <= |leakData| + |samples|
    ensures d[..|leakData|] == leakData
  {
    if samples == [] then leakData
    else MemoryStep(WorkerRun(leakData, target, samples[..|samples| - 1]), samples[|samples| - 1], target)
  }

  /** The sleep primitive's clock counts signed 64-bit nanoseconds: a delay
      whose nanosecond count reaches 2^63 overflows it. */
  const NanosPerSecond: int := 1_000_000_000
  const SleepClockLimit: int := 0x8000_0000_0000_0000

  /** total_allocations_needed: the whole chunks that fit under the target
      (`/` by a positive divisor floors, as the source's `//` does). */
  function AllocationsNeeded(target: int): (n: int)
    ensures n * ChunkBytes <= target < (n + 1) * ChunkBytes
    ensures n >= 1 <==> target >= ChunkBytes
  {
    target / ChunkBytes
  }

  /**
    Whether the worker's sleep between allocations is accepted. The interval
    is `minutes * 60 / n` seconds for n = AllocationsNeeded(target), or one
    second when n is not positive; the sleep rejects it when it is negative
    or when its nanosecond count overflows the clock.
  */
  function IntervalSleeps(minutes: int, target: int): (ok: bool)
    ensures target < ChunkBytes ==> ok
    ensures target >= ChunkBytes && minutes < 0 ==> !ok
    ensures 0 <= minutes && minutes * 60 < SleepOverflow ==> ok
    ensures target >= ChunkBytes && minutes * 60 * NanosPerSecond >= SleepClockLimit * AllocationsNeeded(target) ==> !ok
  {
    var n := AllocationsNeeded(target);
    n <= 0 || (0 <= minutes && minutes * 60 * NanosPerSecond < SleepClockLimit * n)
  }

  /**
    The chunks the memory worker holds when it stops, given whether its
    interval sleeps are accepted: with an accepted interval, those of the
    step-by-step run; with a rejected one, the sleep after the first
    allocation raises and ends the worker, which then holds that one chunk.
  */
  function WorkerChunks(leakData: seq<nat>, target: int, samples: seq<int>, intervalSleeps: bool): (d: seq<nat>)
    ensures |leakData| <= |d| && d[..|leakData|] == leakData
    ensures intervalSleeps ==> d == WorkerRun(leakData, target, samples)
    ensures !intervalSleeps ==> |d| <= |leakData| + 1
    ensures !intervalSleeps ==>
      (|d| == |leakData| + 1 <==> exists k :: 0 <= k < |samples| && samples[k] < target)
  {
    if intervalSleeps then WorkerRun(leakData, target, samples)
    else if exists k :: 0 <= k < |samples| && samples[k] < target then leakData + [ChunkBytes]
    else leakData
  }

  /** How many of the samples lie below the target. */
  function CountBelow(samples: seq<int>, target: int): nat {
    if samples == [] then 0
    else CountBelow(samples[1..], target) + (if samples[0] < target then 1 else 0)
  }

  /** `k` chunks of the worker's allocation size. */
  function Chunks(k: nat): seq<nat> {
    seq(k, _ => ChunkBytes)
  }

  // ---------------------------------------------------------------------------
  // The controller object that owns the table
  // ---------------------------------------------------------------------------

  class Controller {
    var faults: map<string, Fault>
    var scheduledCrashes: seq<int>
    var nextHandle: nat
    var closeAttempts: seq<ConnId>
    var closed: set<ConnId>

    function Model(): Registry
      reads this
    {
      Registry(faults, scheduledCrashes, nextHandle, closeAttempts, closed)
    }

    predicate Valid()
      reads this
    {
      WellFormed(Model())
    }

    constructor ()
      ensures Valid() && Model() == Defaults()
    {
      var d := Defaults();
      faults := d.faults;
      scheduledCrashes := [];
      nextHandle := 0;
      closeAttempts := [];
      closed := {};
    }

    /** enable_chaos_fault, updating the table in place. */
    method Enable(name: string, intensity: Option<int>, isAlive: Handle -> bool) returns (reply: Reply)
      requires Valid()
      modifies this
      ensures Valid()
      ensures (Model(), reply) == EnableFault(old(Model()), name, intensity, isAlive)
    {
      if name !in faults {
        return HttpError(404, NotFoundDetail(name));
      }
      faults := faults[name := faults[name].(enabled := true)];
      if intensity.Some? {
        faults := faults[name := faults[name].(intensity := intensity.value)];
      }
      ghost var written := old(Model()).(faults := faults);
      assert faults == old(faults)[name := old(faults)[name].(enabled := true,
        intensity := if intensity.Some? then intensity.value else old(faults)[name].intensity)];
      if name == CpuSpike || name == MemoryLeak {
        var current := faults[name].slot.thread;
        if current.None? || !isAlive(current.value) {
          var worker := nextHandle;
          nextHandle := nextHandle + 1;
          faults := faults[name := faults[name].(slot := faults[name].slot.(thread := Some(worker)))];
        }
      } else if name == CrashApp {
        scheduledCrashes := scheduledCrashes + [faults[CrashApp].intensity];
      }
      assert Model() == Activate(written, name, isAlive);
      reply := Ok(Enabled(name, Config(faults[name].enabled, faults[name].intensity)));
    }

    /** disable_chaos_fault, updating the table in place; each leaked
        connection gets one close attempt and failures are ignored. */
    method Disable(name: string, closeFails: ConnId -> bool) returns (reply: Reply)
      requires Valid()
      modifies this
      ensures Valid()
      ensures (Model(), reply) == DisableFault(old(Model()), name, closeFails)
    {
      if name !in faults {
        return HttpError(404, NotFoundDetail(name));
      }
      faults := faults[name := faults[name].(enabled := false)];
      ghost var cleared := faults[name];
      if name == MemoryLeak {
        faults := faults[MemoryLeak := faults[MemoryLeak].(slot := MemoryWorker([], None))];
      } else if name == CpuSpike {
        faults := faults[CpuSpike := faults[CpuSpike].(slot := Worker(None))];
      } else if name == ConnectionLeak {
        var leaked := faults[ConnectionLeak].slot.leakedConnections;
        var table := faults;
        var i := 0;
        while i < |leaked|
          invariant 0 <= i <= |leaked|
          invariant faults == table
          invariant scheduledCrashes == old(scheduledCrashes) && nextHandle == old(nextHandle)
          invariant closeAttempts == old(closeAttempts) + leaked[..i]
          invariant closed == old(closed) + ClosedBy(leaked[..i], closeFails)
        {
          assert leaked[..i + 1][..i] == leaked[..i];
          closeAttempts := closeAttempts + [leaked[i]];
          if !closeFails(leaked[i]) {
            closed := closed + {leaked[i]};
          }
          i := i + 1;
        }
        assert leaked[..i] == leaked;
        faults := faults[ConnectionLeak := faults[ConnectionLeak].(slot := ConnectionPool([]))];
      }
      assert name == ConnectionLeak ==> faults == old(faults)[name := cleared.(slot := ConnectionPool([]))];
      ghost var spec := DisableFault(old(Model()), name, closeFails).0;
      assert faults == spec.faults;
      assert closeAttempts == spec.closeAttempts;
      assert closed == spec.closed;
      assert scheduledCrashes == spec.scheduledCrashes;
      assert nextHandle == spec.nextHandle;
      reply := Ok(Disabled(name));
    }

    /** disable_all_chaos: disables every key of the table in order. */
    method DisableAll(closeFails: ConnId -> bool) returns (reply: Reply)
      requires Valid()
      modifies this
      ensures Valid()
      ensures (Model(), reply) == DisableAllFaults(old(Model()), closeFails)
    {
      var i := 0;
      while i < |FaultNames|
        invariant 0 <= i <= |FaultNames|
        invariant Valid()
        invariant Model() == DisableEach(old(Model()), FaultNames[..i], closeFails)
      {
        DisableEachPrefix(old(Model()), FaultNames, i, closeFails);
        var ack := Disable(FaultNames[i], closeFails);
        i := i + 1;
      }
      assert FaultNames[..i] == FaultNames;
      reply := Ok(AllDisabled);
    }

    /**
      memory_leak_thread after it has fixed its target: one loop iteration per
      resident-size sample, while the fault stays enabled; below the target it
      retains one more chunk and then sleeps the interval, at or above it it
      holds. A rejected interval raises out of the loop and ends the worker.
    */
    method RunMemoryWorker(target: int, samples: seq<int>) returns (added: nat)
      requires Valid()
      modifies this
      ensures Valid()
      ensures old(faults[MemoryLeak].enabled) ==>
        faults == old(faults)[MemoryLeak := old(faults[MemoryLeak]).(slot :=
          old(faults[MemoryLeak].slot).(leakData := WorkerChunks(old(faults[MemoryLeak].slot.leakData), target, samples,
                                                                 IntervalSleeps(old(faults[MemoryLeak].intensity), target))))]
      ensures !old(faults[MemoryLeak].enabled) ==> faults == old(faults)
      ensures added == |faults[MemoryLeak].slot.leakData| - |old(faults[MemoryLeak].slot.leakData)|
      ensures scheduledCrashes == old(scheduledCrashes) && nextHandle == old(nextHandle)
      ensures closeAttempts == old(closeAttempts) && closed == old(closed)
    {
      var start := faults[MemoryLeak].slot.leakData;
      var sleeps := IntervalSleeps(faults[MemoryLeak].intensity, target);
      var i := 0;
      var stopped := false;
      added := 0;
      while i < |samples| && faults[MemoryLeak].enabled && !stopped
        invariant 0 <= i <= |samples|
        invariant faults.Keys == old(faults).Keys
        invariant forall n :: n in faults && n != MemoryLeak ==> faults[n] == old(faults)[n]
        invariant !stopped ==> faults[MemoryLeak] == old(faults[MemoryLeak]).(slot :=
          old(faults[MemoryLeak].slot).(leakData := WorkerRun(start, target, samples[..i])))
        invariant stopped ==> faults[MemoryLeak] == old(faults[MemoryLeak]).(slot :=
          old(faults[MemoryLeak].slot).(leakData := start + [ChunkBytes]))
        invariant stopped ==> !sleeps && 0 < i && samples[i - 1] < target
        invariant !sleeps && !stopped ==> faults[MemoryLeak].slot.leakData == start
        invariant !sleeps && !stopped ==> forall k :: 0 <= k < i ==> samples[k] >= target
        invariant old(faults[MemoryLeak].enabled) || (i == 0 && !stopped)
        invariant |faults[MemoryLeak].slot.leakData| == |start| + added
        invariant scheduledCrashes == old(scheduledCrashes) && nextHandle == old(nextHandle)
        invariant closeAttempts == old(closeAttempts) && closed == old(closed)
      {
        assert samples[..i + 1][..i] == samples[..i];
        var memory := faults[MemoryLeak];
        if samples[i] < target {
          faults := faults[MemoryLeak := memory.(slot := memory.slot.(leakData := memory.slot.leakData + [ChunkBytes]))];
          added := added + 1;
          // The flag is still set, so the worker sleeps the interval.
          if !sleeps {
            stopped := true;
          }
        }
        i := i + 1;
      }
      if old(faults[MemoryLeak].enabled) && !stopped {
        assert samples[..i] == samples;
      }
    }
  }
}
