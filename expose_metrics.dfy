/**
 * The gauges the monitor exposes, the lock that guards them, the updaters
 * that copy a reader's result into them, and their registration at start-up.
 * The Prometheus client library is replaced by a map from gauge to value.
 */
module ExposeMetrics {
  import opened Optional
  import opened LibC
  import opened Metrics

  /** One gauge per module-level `prom_gauge_t*`. */
  datatype Gauge =
    | CpuUsage
    | TotalMemory | UsedMemory | FreeMemory
    | DiskReads | DiskWrites
    | RxBytes | TxBytes
    | RunningProcesses
    | ContextSwitches
    | MemoryFragmentation
  {
    /** The metric name the gauge is created with. */
    function Name(): string {
      match this
      case CpuUsage => "cpu_usage_percentage"
      case TotalMemory => "total_memory_mb"
      case UsedMemory => "used_memory_mb"
      case FreeMemory => "free_memory_mb"
      case DiskReads => "disk_reads_completed"
      case DiskWrites => "disk_writes_completed"
      case RxBytes => "rx_bytes"
      case TxBytes => "tx_bytes"
      case RunningProcesses => "running_processes"
      case ContextSwitches => "custom_context_switches_per_second"
      case MemoryFragmentation => "heap_memory_fragmentation_percentage"
    }
  }

  /** The order in which init_metrics registers the gauges. */
  const RegistrationOrder: seq<Gauge> :=
    [CpuUsage, TotalMemory, UsedMemory, FreeMemory, DiskReads, DiskWrites,
     RxBytes, TxBytes, RunningProcesses, ContextSwitches, MemoryFragmentation]

  /** Where a gauge stands in the registration order. */
  function Position(g: Gauge): (i: nat)
    ensures i < |RegistrationOrder| && RegistrationOrder[i] == g
  {
    match g
    case CpuUsage => 0
    case TotalMemory => 1
    case UsedMemory => 2
    case FreeMemory => 3
    case DiskReads => 4
    case DiskWrites => 5
    case RxBytes => 6
    case TxBytes => 7
    case RunningProcesses => 8
    case ContextSwitches => 9
    case MemoryFragmentation => 10
  }

  /** Every gauge is registered, at exactly one position. */
  lemma RegistrationOrderDistinct()
    ensures forall g: Gauge :: g in RegistrationOrder
    ensures forall i :: 0 <= i < |RegistrationOrder| ==> Position(RegistrationOrder[i]) == i
  {
    forall g: Gauge
      ensures g in RegistrationOrder
    {
      var i := Position(g);
    }
  }

  /** No two gauges are created with the same metric name. */
  lemma NameInjective(g: Gauge, h: Gauge)
    requires g.Name() == h.Name()
    ensures g == h
  {
    var a, b := g.Name(), h.Name();
    assert |a| == |b| && a[0] == b[0];
  }

  // ---------------------------------------------------------------------------
  // init_metrics

  /**
   * What the foreign calls of init_metrics return: whether the mutex and the
   * default registry initialise, which gauges `prom_gauge_new` creates, and
   * which registrations succeed.
   */
  datatype InitOutcomes = InitOutcomes(mutexOk: bool, registryOk: bool, creatable: set<Gauge>, accepted: set<Gauge>)

  /**
   * How many gauges (a prefix of the registration order) init_metrics has
   * tried to create before it registers the i-th: the three memory gauges are
   * created together with the CPU gauge's registration pending, and the two
   * disk and the two network gauges are created in pairs.
   */
  function CreatedBy(i: nat): (n: nat)
    requires i < |RegistrationOrder|
    ensures i < n <= |RegistrationOrder|
  {
    if i < 4 then 4 else if i < 6 then 6 else if i < 8 then 8 else i + 1
  }

  /** Whether init_metrics reaches the registration of the i-th gauge. */
  predicate Attempted(env: InitOutcomes, i: nat)
    requires i < |RegistrationOrder|
  {
    env.mutexOk && env.registryOk
    && (forall j :: 0 <= j < CreatedBy(i) ==> RegistrationOrder[j] in env.creatable)
    && (forall j :: 0 <= j < i ==> RegistrationOrder[j] in env.accepted)
  }

  /**
   * Whether the creations the i-th registration waits for succeed: the CPU
   * and the three memory gauges before the first registration, the disk
   * pair before the fifth, the network pair before the seventh, and each
   * later gauge just before its own registration.
   */
  predicate GroupCreated(env: InitOutcomes, i: nat)
    requires i < |RegistrationOrder|
  {
    if i == 0 then
      CpuUsage in env.creatable && TotalMemory in env.creatable
      && UsedMemory in env.creatable && FreeMemory in env.creatable
    else if i == 4 then DiskReads in env.creatable && DiskWrites in env.creatable
    else if i == 6 then RxBytes in env.creatable && TxBytes in env.creatable
    else i < 8 || RegistrationOrder[i] in env.creatable
  }

  /** Step by step, as init_metrics runs: the i-th registration is reached. */
  predicate Reached(env: InitOutcomes, i: nat)
    requires i < |RegistrationOrder|
    decreases i, 0
  {
    if i == 0 then env.mutexOk && env.registryOk && GroupCreated(env, 0)
    else Registers(env, i - 1) && GroupCreated(env, i)
  }

  /** Whether the i-th gauge ends up registered. */
  predicate Registers(env: InitOutcomes, i: nat)
    requires i < |RegistrationOrder|
    decreases i, 1
  {
    Reached(env, i) && RegistrationOrder[i] in env.accepted
  }

  /** The step-by-step run reaches a registration exactly when every earlier call succeeded. */
  lemma {:induction false} ReachedIffAttempted(env: InitOutcomes, i: nat)
    requires i < |RegistrationOrder|
    ensures Reached(env, i) <==> Attempted(env, i)
  {
    var order := RegistrationOrder;
    if i > 0 {
      ReachedIffAttempted(env, i - 1);
      if Attempted(env, i) {
        assert Attempted(env, i - 1) by {
          assert CreatedBy(i - 1) <= CreatedBy(i);
        }
        assert order[i] in env.creatable;
        if i == 4 || i == 6 {
          assert order[i + 1] in env.creatable;
        }
      }
      if Reached(env, i) {
        assert Registers(env, i - 1);
        assert Reached(env, i - 1) && order[i - 1] in env.accepted;
        forall j | 0 <= j < CreatedBy(i)
          ensures order[j] in env.creatable
        {
          if j >= CreatedBy(i - 1) {
            assert j == i || (i == 4 && j == 5) || (i == 6 && j == 7);
          }
        }
      }
    } else {
      if Attempted(env, 0) {
        assert order[0] in env.creatable && order[1] in env.creatable;
        assert order[2] in env.creatable && order[3] in env.creatable;
      }
    }
  }

  /** A later registration happens only if every earlier one did. */
  lemma {:induction false} LaterImpliesEarlier(env: InitOutcomes, i: nat, j: nat)
    requires i < j < |RegistrationOrder| && Registers(env, j)
    ensures Registers(env, i)
    decreases j
  {
    if i < j - 1 {
      LaterImpliesEarlier(env, i, j - 1);
    }
  }

  /** The number of gauges registered: the first i that is not. */
  function RegisteredCount(env: InitOutcomes, from: nat): (n: nat)
    requires from <= |RegistrationOrder|
    ensures from <= n <= |RegistrationOrder|
    decreases |RegistrationOrder| - from
  {
    if from == |RegistrationOrder| || !Registers(env, from) then from
    else RegisteredCount(env, from + 1)
  }

  /**
   * Registration stops for good at the first failure: the gauges registered
   * are exactly those whose own registration and every earlier call
   * succeeded, and they form a prefix of the registration order.
   */
  lemma {:induction false} RegisteredCountExact(env: InitOutcomes, from: nat)
    requires from <= |RegistrationOrder|
    requires forall j :: 0 <= j < from ==> Registers(env, j)
    ensures forall j :: 0 <= j < |RegistrationOrder| ==>
              (j < RegisteredCount(env, from) <==> Attempted(env, j) && RegistrationOrder[j] in env.accepted)
    decreases |RegistrationOrder| - from
  {
    if from < |RegistrationOrder| && Registers(env, from) {
      RegisteredCountExact(env, from + 1);
    } else {
      forall j | from < j < |RegistrationOrder|
        ensures !Registers(env, j)
      {
        if Registers(env, j) {
          LaterImpliesEarlier(env, from, j);
        }
      }
      forall j | 0 <= j < |RegistrationOrder|
        ensures Registers(env, j) <==> Attempted(env, j) && RegistrationOrder[j] in env.accepted
      {
        ReachedIffAttempted(env, j);
      }
    }
  }

  /** Registration stops at `k` when the k-th gauge is the first one not registered. */
  lemma StopsAt(env: InitOutcomes, k: nat)
    requires k <= |RegistrationOrder|
    requires k == 0 || Registers(env, k - 1)
    requires k == |RegistrationOrder| || !Registers(env, k)
    ensures RegisteredCount(env, 0) == k
  {
    forall j | 0 <= j < k
      ensures Registers(env, j)
    {
      if j < k - 1 {
        LaterImpliesEarlier(env, j, k - 1);
      }
    }
    RegisteredCountExact(env, 0);
    if k > 0 {
      ReachedIffAttempted(env, k - 1);
    }
    if k < |RegistrationOrder| {
      ReachedIffAttempted(env, k);
    }
  }

  /** One more registration succeeds. */
  lemma Advance(env: InitOutcomes, k: nat)
    requires k < |RegistrationOrder|
    requires if k == 0 then env.mutexOk && env.registryOk else Registers(env, k - 1)
    requires GroupCreated(env, k) && RegistrationOrder[k] in env.accepted
    ensures Registers(env, k)
    ensures RegistrationOrder[..k + 1] == RegistrationOrder[..k] + [RegistrationOrder[k]]
  {
  }

  /** When every call succeeds, all eleven gauges are registered in order. */
  lemma AllRegisteredWhenAllSucceed(env: InitOutcomes)
    requires env.mutexOk && env.registryOk
    requires forall g: Gauge :: g in env.creatable && g in env.accepted
    ensures RegisteredCount(env, 0) == |RegistrationOrder|
  {
    RegisteredCountExact(env, 0);
    var last := |RegistrationOrder| - 1;
    ReachedIffAttempted(env, last);
  }

  /** A gauge that cannot be created keeps itself and every later gauge unregistered. */
  lemma CreationFailureStops(env: InitOutcomes, g: Gauge)
    requires g !in env.creatable
    ensures RegisteredCount(env, 0) <= Position(g)
  {
    RegisteredCountExact(env, 0);
    var p := Position(g);
    assert !Attempted(env, p) by {
      assert p < CreatedBy(p);
    }
  }

  // ---------------------------------------------------------------------------
  // The gauges and their lock

  /**
   * Every gauge has a value; none that the updaters write is negative, and
   * the disk gauges never hold the `(unsigned long)-1` sentinel.
   */
  predicate ValidGauges(values: map<Gauge, real>) {
    (forall g: Gauge :: g in values)
    && (forall g: Gauge :: g != MemoryFragmentation ==> values[g] >= 0.0)
    && values[DiskReads] != ULongMax as real && values[DiskWrites] != ULongMax as real
  }

  /**
   * The module-level gauges of expose_metrics.c: their current values, the
   * mutex as a held/free flag, and the gauges registered so far.
   */
  class Registry {
    var values: map<Gauge, real>
    var locked: bool
    var registered: seq<Gauge>

    predicate Valid()
      reads this
    {
      ValidGauges(values)
    }

    /** Gauges start at 0, the lock is free and nothing is registered. */
    constructor()
      ensures Valid() && !locked && registered == []
      ensures forall g: Gauge :: values[g] == 0.0
    {
      values := map g: Gauge | g in RegistrationOrder :: 0.0;
      locked := false;
      registered := [];
      new;
      RegistrationOrderDistinct();
    }

    /** pthread_mutex_lock */
    method Lock()
      requires !locked
      modifies this
      ensures locked && values == old(values) && registered == old(registered)
    {
      locked := true;
    }

    /** pthread_mutex_unlock */
    method Unlock()
      requires locked
      modifies this
      ensures !locked && values == old(values) && registered == old(registered)
    {
      locked := false;
    }

    /** prom_gauge_set: only while the lock is held. */
    method Set(g: Gauge, v: real)
      requires locked
      modifies this
      ensures locked && values == old(values)[g := v] && registered == old(registered)
    {
      values := values[g := v];
    }

    /** update_cpu_gauge: the usage is stored only when it is not negative. */
    method UpdateCpuGauge(first: File, second: File, leftover1: CpuTimes, leftover2: CpuTimes)
      requires Valid() && !locked
      modifies this
      ensures Valid() && !locked && registered == old(registered)
      ensures var usage := CpuUsageOf(first, second, leftover1, leftover2);
              values == if usage >= 0.0 then old(values)[CpuUsage := usage] else old(values)
    {
      var usage := CpuUsageOf(first, second, leftover1, leftover2);
      if usage >= 0.0 {
        Lock();
        Set(CpuUsage, usage);
        Unlock();
      }
    }

    /** update_running_processes_gauge */
    method UpdateRunningProcessesGauge(stat: File)
      requires Valid() && !locked
      modifies this
      ensures Valid() && !locked && registered == old(registered)
      ensures var running := RunningProcessesOf(stat);
              values == if running >= 0 then old(values)[RunningProcesses := running as real] else old(values)
    {
      var running := GetRunningProcesses(stat);
      if running >= 0 {
        Lock();
        Set(RunningProcesses, running as real);
        Unlock();
      }
    }

    /** update_net_stats_gauge: rx and tx are written together, only when both are not negative. */
    method UpdateNetStatsGauge(netDev: File, iface: string)
      requires Valid() && !locked
      modifies this
      ensures Valid() && !locked && registered == old(registered)
      ensures var stats := NetStatsOf(netDev, iface);
              values == if stats.rxBytes >= 0 && stats.txBytes >= 0
                        then old(values)[RxBytes := stats.rxBytes as real][TxBytes := stats.txBytes as real]
                        else old(values)
    {
      var stats := GetNetStats(netDev, iface);
      if stats.rxBytes >= 0 && stats.txBytes >= 0 {
        Lock();
        Set(RxBytes, stats.rxBytes as real);
        Set(TxBytes, stats.txBytes as real);
        Unlock();
      }
    }

    /** update_disk_stats_gauge: both counters are written only when neither is the sentinel. */
    method UpdateDiskStatsGauge(diskstats: File, device: string)
      requires Valid() && !locked
      modifies this
      ensures Valid() && !locked && registered == old(registered)
      ensures var stats := DiskStatsOf(diskstats, device);
              values == if stats.readsCompleted != ULongMax && stats.writesCompleted != ULongMax
                        then old(values)[DiskReads := stats.readsCompleted as real][DiskWrites := stats.writesCompleted as real]
                        else old(values)
    {
      var stats := GetDiskStats(diskstats, device);
      if stats.readsCompleted != ULongMax && stats.writesCompleted != ULongMax {
        Lock();
        Set(DiskReads, stats.readsCompleted as real);
        Set(DiskWrites, stats.writesCompleted as real);
        Unlock();
      }
    }

    /** update_context_switches_gauge */
    method UpdateContextSwitchesGauge(stat: File)
      requires Valid() && !locked
      modifies this
      ensures Valid() && !locked && registered == old(registered)
      ensures var ctxt := ContextSwitchesOf(stat);
              values == if ctxt >= 0 then old(values)[ContextSwitches := ctxt as real] else old(values)
    {
      var ctxt := GetContextSwitches(stat);
      if ctxt >= 0 {
        Lock();
        Set(ContextSwitches, ctxt as real);
        Unlock();
      }
    }

    /** update_memory_gauge: only the total is tested; total, used and free are written together. */
    method UpdateMemoryGauge(meminfo: File)
      requires Valid() && !locked
      modifies this
      ensures Valid() && !locked && registered == old(registered)
      ensures var info := MemoryOf(meminfo);
              values == if info.totalMem >= 0.0
                        then old(values)[TotalMemory := info.totalMem][UsedMemory := info.usedMem][FreeMemory := info.freeMem]
                        else old(values)
    {
      var info := GetMemoryUsage(meminfo);
      if info.totalMem >= 0.0 {
        Lock();
        Set(TotalMemory, info.totalMem);
        Set(UsedMemory, info.usedMem);
        Set(FreeMemory, info.freeMem);
        Unlock();
      }
    }

    /**
     * prom_gauge_new for the gauges the k-th registration waits for; init_metrics
     * returns when one of them cannot be created.
     */
    method CreateGroup(env: InitOutcomes, k: nat) returns (ok: bool)
      requires 0 < k < |RegistrationOrder| && Registers(env, k - 1)
      // what RegisterNext requires after a successful creation
      ensures ok == GroupCreated(env, k)
      ensures !ok ==> RegisteredCount(env, 0) == k
    {
      ok := GroupCreated(env, k);
      if !ok {
        StopsAt(env, k);
      }
    }

    /**
     * prom_collector_registry_must_register_metric for the k-th gauge;
     * init_metrics returns when it fails.
     */
    method RegisterNext(env: InitOutcomes, k: nat) returns (ok: bool)
      requires k < |RegistrationOrder| && registered == RegistrationOrder[..k]
      requires if k == 0 then env.mutexOk && env.registryOk else Registers(env, k - 1)
      requires GroupCreated(env, k)
      modifies this
      ensures values == old(values) && locked == old(locked)
      ensures ok == (RegistrationOrder[k] in env.accepted)
      ensures ok ==> registered == RegistrationOrder[..k + 1] && Registers(env, k)
      ensures !ok ==> registered == old(registered) && RegisteredCount(env, 0) == k
    {
      var g := RegistrationOrder[k];
      ok := g in env.accepted;
      if ok {
        registered := registered + [g];
        Advance(env, k);
      } else {
        StopsAt(env, k);
      }
    }

    /**
     * init_metrics: creates and registers the gauges in their fixed order and
     * returns at the first call that fails.
     */
    method InitMetrics(env: InitOutcomes)
      requires registered == []
      modifies this
      ensures values == old(values) && locked == old(locked)
      ensures registered == RegistrationOrder[..RegisteredCount(env, 0)]
    {
      if !env.mutexOk || !env.registryOk {
        StopsAt(env, 0);
        return;
      }
      if CpuUsage !in env.creatable {
        StopsAt(env, 0);
        return;
      }
      if TotalMemory !in env.creatable || UsedMemory !in env.creatable || FreeMemory !in env.creatable {
        StopsAt(env, 0);
        return;
      }
      var ok := RegisterNext(env, 0);
      if !ok {
        return;
      }
      ok := RegisterNext(env, 1);
      if !ok {
        return;
      }
      ok := RegisterNext(env, 2);
      if !ok {
        return;
      }
      ok := RegisterNext(env, 3);
      if !ok {
        return;
      }
      ok := CreateGroup(env, 4);
      if !ok {
        return;
      }
      ok := RegisterNext(env, 4);
      if !ok {
        return;
      }
      ok := RegisterNext(env, 5);
      if !ok {
        return;
      }
      ok := CreateGroup(env, 6);
      if !ok {
        return;
      }
      ok := RegisterNext(env, 6);
      if !ok {
        return;
      }
      ok := RegisterNext(env, 7);
      if !ok {
        return;
      }
      ok := CreateGroup(env, 8);
      if !ok {
        return;
      }
      ok := RegisterNext(env, 8);
      if !ok {
        return;
      }
      ok := CreateGroup(env, 9);
      if !ok {
        return;
      }
      ok := RegisterNext(env, 9);
      if !ok {
        return;
      }
      ok := CreateGroup(env, 10);
      if !ok {
        return;
      }
      ok := RegisterNext(env, 10);
      if ok {
        StopsAt(env, |RegistrationOrder|);
      }
    }
  }
}
