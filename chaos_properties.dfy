/**
  Properties of the fault-injection controller that relate several calls:
  status after enable and disable, idempotent worker start, crash scheduling,
  disable-all, connection cleanup and the memory worker's growth.
*/
module ChaosProperties {
  import opened Chaos

  // ---------------------------------------------------------------------------
  // Status, enable and disable
  // ---------------------------------------------------------------------------

  /** After enable the status shows the fault enabled with the effective
      intensity, and every other fault's status is as before. */
  lemma StatusAfterEnable(r: Registry, name: string, intensity: Option<int>, isAlive: Handle -> bool)
    requires WellFormed(r) && name in Names
    ensures var s := StatusOf(EnableFault(r, name, intensity, isAlive).0);
      && s.Keys == Names
      && s[name] == Config(true, if intensity.Some? then intensity.value else r.faults[name].intensity)
      && forall n :: n in Names && n != name ==> s[n] == StatusOf(r)[n]
  {
  }

  /** After disable the status shows the fault disabled with its intensity
      kept, and every other fault's status is as before. */
  lemma StatusAfterDisable(r: Registry, name: string, closeFails: ConnId -> bool)
    requires WellFormed(r) && name in Names
    ensures var s := StatusOf(DisableFault(r, name, closeFails).0);
      && s.Keys == Names
      && s[name] == Config(false, r.faults[name].intensity)
      && forall n :: n in Names && n != name ==> s[n] == StatusOf(r)[n]
  {
  }

  /** Two tables report the same status exactly when they have the same keys
      and agree on every flag and intensity: threads, chunks and leaked
      connections never show. */
  lemma StatusShowsFlagAndIntensity(r1: Registry, r2: Registry)
    ensures StatusOf(r1) == StatusOf(r2) <==>
      && r1.faults.Keys == r2.faults.Keys
      && forall n :: n in r1.faults && n in r2.faults ==>
           r1.faults[n].enabled == r2.faults[n].enabled && r1.faults[n].intensity == r2.faults[n].intensity
  {
    if r1.faults.Keys == r2.faults.Keys
       && forall n :: n in r1.faults && n in r2.faults ==>
            r1.faults[n].enabled == r2.faults[n].enabled && r1.faults[n].intensity == r2.faults[n].intensity
    {
      assert forall n :: n in StatusOf(r1) ==> StatusOf(r1)[n] == StatusOf(r2)[n];
    }
  }

  /** Enabling then disabling a fault without owned resources, without giving an
      intensity, leaves the registry exactly as it was apart from the flag. */
  lemma EnableDisablePlainFault(r: Registry, name: string, isAlive: Handle -> bool, closeFails: ConnId -> bool)
    requires WellFormed(r)
    requires name == RandomErrors || name == SlowResponses || name == CorruptData
    ensures DisableFault(EnableFault(r, name, None, isAlive).0, name, closeFails).0
         == r.(faults := r.faults[name := r.faults[name].(enabled := false)])
  {
  }

  /** A second enable of a worker fault whose recorded worker is still alive
      starts nothing and keeps the recorded handle: at most one thread is
      started over the two calls. */
  lemma EnableWorkerIdempotent(r: Registry, name: string, i1: Option<int>, i2: Option<int>, isAlive: Handle -> bool)
    requires WellFormed(r) && (name == CpuSpike || name == MemoryLeak)
    requires var r1 := EnableFault(r, name, i1, isAlive).0; isAlive(r1.faults[name].slot.thread.value)
    ensures var r1 := EnableFault(r, name, i1, isAlive).0;
      var r2 := EnableFault(r1, name, i2, isAlive).0;
      && r2.faults[name].slot.thread == r1.faults[name].slot.thread
      && r2.nextHandle == r1.nextHandle <= r.nextHandle + 1
  {
  }

  /** A worker started by enable gets a handle no recorded worker has. */
  lemma SpawnedHandleIsFresh(r: Registry, name: string, intensity: Option<int>, isAlive: Handle -> bool)
    requires WellFormed(r) && (name == CpuSpike || name == MemoryLeak)
    requires ShouldSpawn(r.faults[name].slot.thread, isAlive)
    ensures var h := EnableFault(r, name, intensity, isAlive).0.faults[name].slot.thread;
      && h == Some(r.nextHandle)
      && h != r.faults[CpuSpike].slot.thread
      && h != r.faults[MemoryLeak].slot.thread
  {
  }

  /** Disable forgets the CPU worker's handle, so an enable that follows starts
      a new thread even when the old one has not yet noticed the disable: the
      recorded-handle check does not bound the number of live threads. */
  lemma ReenableAfterDisableSpawns(r: Registry, intensity: Option<int>, isAlive: Handle -> bool, closeFails: ConnId -> bool)
    requires WellFormed(r)
    ensures var r1 := DisableFault(r, CpuSpike, closeFails).0;
      var r2 := EnableFault(r1, CpuSpike, intensity, isAlive).0;
      && r2.faults[CpuSpike].slot.thread == Some(r.nextHandle)
      && r2.nextHandle == r.nextHandle + 1
  {
  }

  /** Every enable of crash_app schedules one more timer, whatever the flag was,
      and its delay is the intensity at that moment. */
  lemma CrashEnablesAccumulate(r: Registry, i1: Option<int>, i2: Option<int>, isAlive: Handle -> bool)
    requires WellFormed(r)
    ensures var r1 := EnableFault(r, CrashApp, i1, isAlive).0;
      var r2 := EnableFault(r1, CrashApp, i2, isAlive).0;
      && |r2.scheduledCrashes| == |r.scheduledCrashes| + 2
      && r2.scheduledCrashes[..|r.scheduledCrashes|] == r.scheduledCrashes
      && r2.scheduledCrashes[|r.scheduledCrashes|] == r1.faults[CrashApp].intensity
      && r2.scheduledCrashes[|r.scheduledCrashes| + 1] == r2.faults[CrashApp].intensity
  {
  }

  // ---------------------------------------------------------------------------
  // Connection cleanup
  // ---------------------------------------------------------------------------

  /** A connection is closed by the cleanup exactly when it was in the list and
      its close did not fail. */
  lemma {:induction false} ClosedByMembership(conns: seq<ConnId>, closeFails: ConnId -> bool, c: ConnId)
    ensures c in ClosedBy(conns, closeFails) <==> c in conns && !closeFails(c)
  {
    if conns != [] {
      var front := conns[..|conns| - 1];
      ClosedByMembership(front, closeFails, c);
      assert conns == front + [conns[|conns| - 1]];
    }
  }

  /** Close failures are ignored: whatever fails to close, disabling
      connection_leak leaves the same table, reply and close attempts. */
  lemma DisableIgnoresCloseFailures(r: Registry, name: string, fails1: ConnId -> bool, fails2: ConnId -> bool)
    requires WellFormed(r)
    ensures var a, b := DisableFault(r, name, fails1), DisableFault(r, name, fails2);
      && a.0.faults == b.0.faults
      && a.1 == b.1
      && a.0.closeAttempts == b.0.closeAttempts
  {
  }

  // ---------------------------------------------------------------------------
  // Disable-all
  // ---------------------------------------------------------------------------

  /** What disabling the names in `names` has done to `r`, giving `out`: each
      listed fault is cleared with its owned resources, every intensity is
      kept, unlisted entries are untouched, and the connections leaked in `r`
      have had one close attempt each exactly when connection_leak is listed. */
  ghost predicate ClearedBy(r: Registry, out: Registry, names: seq<string>, closeFails: ConnId -> bool)
    requires WellFormed(r) && WellFormed(out)
  {
    var leaked := r.faults[ConnectionLeak].slot.leakedConnections;
    && (forall n :: n in names && n in Names ==> !out.faults[n].enabled)
    && (forall n :: n in Names ==> out.faults[n].intensity == r.faults[n].intensity)
    && (forall n :: n in Names && n !in names ==> out.faults[n] == r.faults[n])
    && (MemoryLeak in names ==> out.faults[MemoryLeak].slot == MemoryWorker([], None))
    && (CpuSpike in names ==> out.faults[CpuSpike].slot == Worker(None))
    && (ConnectionLeak in names ==> out.faults[ConnectionLeak].slot == ConnectionPool([]))
    && out.scheduledCrashes == r.scheduledCrashes
    && out.nextHandle == r.nextHandle
    && out.closeAttempts == r.closeAttempts + (if ConnectionLeak in names then leaked else [])
    && out.closed == r.closed + (if ConnectionLeak in names then ClosedBy(leaked, closeFails) else {})
  }

  /** Disabling one more name extends what has been cleared by that name. */
  lemma ClearedByStep(r: Registry, mid: Registry, front: seq<string>, last: string, closeFails: ConnId -> bool)
    requires WellFormed(r) && WellFormed(mid) && ClearedBy(r, mid, front, closeFails)
    ensures ClearedBy(r, DisableFault(mid, last, closeFails).0, front + [last], closeFails)
  {
    if last == ConnectionLeak && ConnectionLeak in front {
      assert mid.faults[ConnectionLeak].slot.leakedConnections == [];
      assert ClosedBy([], closeFails) == {};
    }
  }

  /** Disabling a list of names clears each listed fault and its owned
      resources, keeps every intensity, and leaves unlisted entries alone. */
  lemma {:induction false} DisableEachClears(r: Registry, names: seq<string>, closeFails: ConnId -> bool)
    requires WellFormed(r)
    ensures ClearedBy(r, DisableEach(r, names, closeFails), names, closeFails)
  {
    if names != [] {
      var front, last := names[..|names| - 1], names[|names| - 1];
      DisableEachClears(r, front, closeFails);
      ClearedByStep(r, DisableEach(r, front, closeFails), front, last, closeFails);
      assert names == front + [last];
    }
  }

  /** After disable-all every fault is disabled with its intensity kept, no
      chunk, thread or leaked connection is retained, each connection that was
      leaked has had exactly one close attempt, in order, no worker is started
      and the reply is the all-disabled acknowledgement. */
  lemma DisableAllClearsEverything(r: Registry, closeFails: ConnId -> bool)
    requires WellFormed(r)
    ensures var out := DisableAllFaults(r, closeFails);
      && WellFormed(out.0)
      && out.1 == Ok(AllDisabled)
      && (forall n :: n in Names ==> !out.0.faults[n].enabled)
      && (forall n :: n in Names ==> out.0.faults[n].intensity == r.faults[n].intensity)
      && out.0.faults[MemoryLeak].slot == MemoryWorker([], None)
      && out.0.faults[CpuSpike].slot == Worker(None)
      && out.0.faults[ConnectionLeak].slot == ConnectionPool([])
      && out.0.scheduledCrashes == r.scheduledCrashes
      && out.0.nextHandle == r.nextHandle
      && out.0.closeAttempts == r.closeAttempts + r.faults[ConnectionLeak].slot.leakedConnections
      && out.0.closed == r.closed + ClosedBy(r.faults[ConnectionLeak].slot.leakedConnections, closeFails)
  {
    DisableEachClears(r, FaultNames, closeFails);
    assert forall n :: n in Names ==> n in FaultNames;
  }

  // ---------------------------------------------------------------------------
  // Memory worker
  // ---------------------------------------------------------------------------

  lemma {:induction false} CountBelowSnoc(samples: seq<int>, x: int, target: int)
    ensures CountBelow(samples + [x], target) == CountBelow(samples, target) + (if x < target then 1 else 0)
  {
    if samples != [] {
      CountBelowSnoc(samples[1..], x, target);
      assert (samples + [x])[1..] == samples[1..] + [x];
    }
  }

  /** The worker keeps every chunk it already held and appends one chunk of
      the allocation size for each sample below the target, and no other. */
  lemma {:induction false} WorkerRunAppendsChunks(leakData: seq<nat>, target: int, samples: seq<int>)
    ensures WorkerRun(leakData, target, samples) == leakData + Chunks(CountBelow(samples, target))
  {
    if samples != [] {
      var front, last := samples[..|samples| - 1], samples[|samples| - 1];
      WorkerRunAppendsChunks(leakData, target, front);
      assert samples == front + [last];
      CountBelowSnoc(front, last, target);
      var k := CountBelow(front, target);
      if last < target {
        assert Chunks(k) + [ChunkBytes] == Chunks(k + 1);
      }
    }
  }

  lemma {:induction false} CountBelowBounds(samples: seq<int>, target: int)
    ensures CountBelow(samples, target) <= |samples|
    ensures (forall i :: 0 <= i < |samples| ==> samples[i] >= target) ==> CountBelow(samples, target) == 0
    ensures (forall i :: 0 <= i < |samples| ==> samples[i] < target) ==> CountBelow(samples, target) == |samples|
  {
    if samples != [] {
      CountBelowBounds(samples[1..], target);
    }
  }

  /** A worker whose every measurement is at or above the target only holds;
      one whose every measurement is below it retains one chunk per iteration. */
  lemma WorkerHoldsAtTarget(leakData: seq<nat>, target: int, samples: seq<int>)
    ensures |WorkerRun(leakData, target, samples)| <= |leakData| + |samples|
    ensures (forall i :: 0 <= i < |samples| ==> samples[i] >= target) ==>
      WorkerRun(leakData, target, samples) == leakData
    ensures (forall i :: 0 <= i < |samples| ==> samples[i] < target) ==>
      |WorkerRun(leakData, target, samples)| == |leakData| + |samples|
  {
    WorkerRunAppendsChunks(leakData, target, samples);
    CountBelowBounds(samples, target);
  }
}
