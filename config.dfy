/**
 * The monitor's configuration: what load_config takes from the parsed
 * config.json, and the snapshot object send_metrics builds from it.
 * The JSON document is abstracted to what cJSON_GetObjectItem finds under
 * the three keys the loader asks for.
 */
module Config {
  import opened Optional
  import opened LibC
  import opened Metrics
  import opened ExposeMetrics

  /** A cJSON item, as far as the loader looks at it; a number is seen through `valueint`. */
  datatype Json =
    | JNumber(valueint: int)
    | JString(text: string)
    | JArray(items: seq<Json>)
    | JOther

  /** The items of the parsed root under "sampling_interval", "metrics" and "log_file". */
  datatype Document = Document(interval: Option<Json>, metrics: Option<Json>, logFile: Option<Json>)

  /** The outcome of fopen and cJSON_Parse on the configuration file. */
  datatype ConfigFile = Unreadable | Malformed | Parsed(root: Document)

  /** The six metrics a configuration can ask for. */
  datatype Metric = Cpu | Memory | Disk | Net | ContextSwitchCount | RunningProcessCount {
    /** The string that selects the metric in the "metrics" list. */
    function Name(): string {
      match this
      case Cpu => "cpu"
      case Memory => "memory"
      case Disk => "disk"
      case Net => "net"
      case ContextSwitchCount => "context_switches"
      case RunningProcessCount => "running_processes"
    }
  }

  /** The six `collect_*` flags as one value. */
  datatype Selection = Selection(cpu: bool, memory: bool, disk: bool, net: bool, contextSwitches: bool, runningProcesses: bool) {
    predicate Has(m: Metric) {
      match m
      case Cpu => cpu
      case Memory => memory
      case Disk => disk
      case Net => net
      case ContextSwitchCount => contextSwitches
      case RunningProcessCount => runningProcesses
    }
  }

  /** `sizeof(config->log_file) - 1`: the longest log file path kept. */
  const LogFileCapacity: nat := 255

  /** The sampling interval: the number under "sampling_interval", or 1. */
  function IntervalOf(doc: Document): int {
    if doc.interval.Some? && doc.interval.value.JNumber? then doc.interval.value.valueint else 1
  }

  /** Whether metric `m` is asked for: its exact name is a string element of the "metrics" array. */
  predicate Requested(metrics: Option<Json>, m: Metric) {
    metrics.Some? && metrics.value.JArray? && JString(m.Name()) in metrics.value.items
  }

  // ---------------------------------------------------------------------------
  // send_metrics

  /** A key of the snapshot object. */
  datatype Key =
    | CpuUsageKey
    | TotalMemoryKey | UsedMemoryKey | FreeMemoryKey
    | DiskReadsKey | DiskWritesKey
    | RxBytesKey | TxBytesKey
    | ContextSwitchesKey
    | RunningProcessesKey
  {
    /** The key's text in the JSON object. */
    function Name(): string {
      match this
      case CpuUsageKey => "cpu_usage"
      case TotalMemoryKey => "total_memory"
      case UsedMemoryKey => "used_memory"
      case FreeMemoryKey => "free_memory"
      case DiskReadsKey => "disk_reads"
      case DiskWritesKey => "disk_writes"
      case RxBytesKey => "rx_bytes"
      case TxBytesKey => "tx_bytes"
      case ContextSwitchesKey => "context_switches"
      case RunningProcessesKey => "running_processes"
    }

    /** The metric whose flag adds the key. */
    function Enabler(): Metric {
      match this
      case CpuUsageKey => Cpu
      case TotalMemoryKey | UsedMemoryKey | FreeMemoryKey => Memory
      case DiskReadsKey | DiskWritesKey => Disk
      case RxBytesKey | TxBytesKey => Net
      case ContextSwitchesKey => ContextSwitchCount
      case RunningProcessesKey => RunningProcessCount
    }

    /** The gauge that holds the same quantity. */
    function Source(): Gauge {
      match this
      case CpuUsageKey => CpuUsage
      case TotalMemoryKey => TotalMemory
      case UsedMemoryKey => UsedMemory
      case FreeMemoryKey => FreeMemory
      case DiskReadsKey => DiskReads
      case DiskWritesKey => DiskWrites
      case RxBytesKey => RxBytes
      case TxBytesKey => TxBytes
      case ContextSwitchesKey => ContextSwitches
      case RunningProcessesKey => RunningProcesses
    }
  }

  /** The keys send_metrics may add, in the order it adds them. */
  const SnapshotKeys: seq<Key> :=
    [CpuUsageKey, TotalMemoryKey, UsedMemoryKey, FreeMemoryKey, DiskReadsKey, DiskWritesKey,
     RxBytesKey, TxBytesKey, ContextSwitchesKey, RunningProcessesKey]

  /** No two keys have the same text. */
  lemma KeyNameInjective(k: Key, l: Key)
    requires k.Name() == l.Name()
    ensures k == l
  {
    var a, b := k.Name(), l.Name();
    assert |a| == |b| && a[0] == b[0];
  }

  /** A member of the snapshot object: `cJSON_AddNumberToObject(root, key, value)`. */
  datatype Entry = Entry(key: Key, value: real)

  /** The device and interface send_metrics asks about. */
  const SnapshotDevice: string := "nvme0n1"
  const SnapshotInterface: string := "wlp1s0"

  /** What each file read by send_metrics holds when its reader opens it. */
  datatype ProcFiles = ProcFiles(
    cpuFirst: File, cpuSecond: File, cpuLeftover1: CpuTimes, cpuLeftover2: CpuTimes,
    meminfo: File, diskstats: File, netDev: File, statForSwitches: File, statForRunning: File)

  /** The reader results send_metrics obtains. */
  datatype Readings = Readings(cpuUsage: real, memory: MemoryInfo, disk: DiskStats, net: NetStats, contextSwitches: int, runningProcesses: int)

  function ReadingsOf(files: ProcFiles): Readings {
    Readings(
      CpuUsageOf(files.cpuFirst, files.cpuSecond, files.cpuLeftover1, files.cpuLeftover2),
      MemoryOf(files.meminfo),
      DiskStatsOf(files.diskstats, SnapshotDevice),
      NetStatsOf(files.netDev, SnapshotInterface),
      ContextSwitchesOf(files.statForSwitches),
      RunningProcessesOf(files.statForRunning))
  }

  /** The reading reported under a key, as the `double` cJSON stores. */
  function ReadingFor(k: Key, r: Readings): real {
    match k
    case CpuUsageKey => r.cpuUsage
    case TotalMemoryKey => r.memory.totalMem
    case UsedMemoryKey => r.memory.usedMem
    case FreeMemoryKey => r.memory.freeMem
    case DiskReadsKey => r.disk.readsCompleted as real
    case DiskWritesKey => r.disk.writesCompleted as real
    case RxBytesKey => r.net.rxBytes as real
    case TxBytesKey => r.net.txBytes as real
    case ContextSwitchesKey => r.contextSwitches as real
    case RunningProcessesKey => r.runningProcesses as real
  }

  /** Where the snapshot takes its values from: fresh reader results or the gauges. */
  datatype Values = FromReadings(r: Readings) | FromGauges(gauges: map<Gauge, real>)

  function ValueOf(src: Values, k: Key): real {
    match src
    case FromReadings(r) => ReadingFor(k, r)
    case FromGauges(gauges) => GaugeValue(gauges, k)
  }

  /** The entries of the enabled keys, in order, each with the value `src` gives it. */
  function Entries(sel: Selection, keys: seq<Key>, src: Values): seq<Entry> {
    if keys == [] then []
    else (if sel.Has(keys[0].Enabler()) then [Entry(keys[0], ValueOf(src, keys[0]))] else [])
         + Entries(sel, keys[1..], src)
  }

  function KeysOf(entries: seq<Entry>): set<Key> {
    set e | e in entries :: e.key
  }

  /** The snapshot object send_metrics builds from fresh reader results. */
  function SnapshotOf(sel: Selection, r: Readings): seq<Entry> {
    Entries(sel, SnapshotKeys, FromReadings(r))
  }

  /**
   * Every enabled key has its entry, carrying the value `src` gives it,
   * and every entry is that of an enabled key.
   */
  lemma {:induction false} EntriesExact(sel: Selection, keys: seq<Key>, src: Values)
    ensures forall k :: k in keys && sel.Has(k.Enabler()) ==> Entry(k, ValueOf(src, k)) in Entries(sel, keys, src)
    ensures forall e :: e in Entries(sel, keys, src) ==>
              e.key in keys && sel.Has(e.key.Enabler()) && e.value == ValueOf(src, e.key)
  {
    if keys != [] {
      EntriesExact(sel, keys[1..], src);
      var head := if sel.Has(keys[0].Enabler()) then [Entry(keys[0], ValueOf(src, keys[0]))] else [];
      var tail := Entries(sel, keys[1..], src);
      assert Entries(sel, keys, src) == head + tail;
      forall k | k in keys && sel.Has(k.Enabler())
        ensures Entry(k, ValueOf(src, k)) in head + tail
      {
        if k != keys[0] {
          assert k in keys[1..];
        }
      }
      forall e: Entry | e in head + tail
        ensures e.key in keys && sel.Has(e.key.Enabler()) && e.value == ValueOf(src, e.key)
      {
        if e !in head {
          assert e.key in keys[1..];
        }
      }
    }
  }

  /**
   * The snapshot has a key exactly for each enabled metric: cpu_usage;
   * total_memory, used_memory and free_memory; disk_reads and disk_writes;
   * rx_bytes and tx_bytes; context_switches; running_processes. Each carries
   * the reader result unfiltered.
   */
  lemma SnapshotKeySet(sel: Selection, r: Readings)
    ensures forall k: Key :: k in KeysOf(SnapshotOf(sel, r)) <==> sel.Has(k.Enabler())
    ensures forall e :: e in SnapshotOf(sel, r) ==> e.value == ReadingFor(e.key, r)
  {
    var src := FromReadings(r);
    EntriesExact(sel, SnapshotKeys, src);
    forall k: Key | sel.Has(k.Enabler())
      ensures k in KeysOf(SnapshotOf(sel, r))
    {
      assert k in SnapshotKeys by {
        match k
        case CpuUsageKey => assert SnapshotKeys[0] == k;
        case TotalMemoryKey => assert SnapshotKeys[1] == k;
        case UsedMemoryKey => assert SnapshotKeys[2] == k;
        case FreeMemoryKey => assert SnapshotKeys[3] == k;
        case DiskReadsKey => assert SnapshotKeys[4] == k;
        case DiskWritesKey => assert SnapshotKeys[5] == k;
        case RxBytesKey => assert SnapshotKeys[6] == k;
        case TxBytesKey => assert SnapshotKeys[7] == k;
        case ContextSwitchesKey => assert SnapshotKeys[8] == k;
        case RunningProcessesKey => assert SnapshotKeys[9] == k;
      }
      assert Entry(k, ValueOf(src, k)) in SnapshotOf(sel, r);
    }
  }

  /**
   * A failed read goes into the snapshot as it is: -1 for memory when
   * /proc/meminfo cannot be opened, `(unsigned long)-1` for the disk
   * counters when /proc/diskstats cannot be opened.
   */
  lemma SnapshotLeaksSentinels(sel: Selection, files: ProcFiles)
    ensures sel.memory && files.meminfo.None? ==> Entry(TotalMemoryKey, -1.0) in SnapshotOf(sel, ReadingsOf(files))
    ensures sel.disk && files.diskstats.None? ==> Entry(DiskReadsKey, ULongMax as real) in SnapshotOf(sel, ReadingsOf(files))
  {
    var r := ReadingsOf(files);
    var snapshot := SnapshotOf(sel, r);
    SnapshotKeySet(sel, r);
    if sel.memory && files.meminfo.None? {
      assert TotalMemoryKey in KeysOf(snapshot);
      var e :| e in snapshot && e.key == TotalMemoryKey;
      assert e == Entry(TotalMemoryKey, -1.0);
    }
    if sel.disk && files.diskstats.None? {
      assert DiskReadsKey in KeysOf(snapshot);
      var e :| e in snapshot && e.key == DiskReadsKey;
      assert e == Entry(DiskReadsKey, ULongMax as real);
    }
  }

  /** The value of the gauge behind a key. */
  function GaugeValue(values: map<Gauge, real>, k: Key): real {
    if k.Source() in values then values[k.Source()] else 0.0
  }

  /** A snapshot taken from the gauges instead of from fresh reads. */
  function GaugeSnapshotOf(sel: Selection, values: map<Gauge, real>): seq<Entry> {
    Entries(sel, SnapshotKeys, FromGauges(values))
  }

  /**
   * Taken from gauges the updaters maintain, the snapshot holds no sentinel:
   * every value is non-negative and no disk counter is `(unsigned long)-1`.
   */
  lemma GaugeSnapshotHasNoSentinels(sel: Selection, values: map<Gauge, real>)
    requires ValidGauges(values)
    ensures forall e :: e in GaugeSnapshotOf(sel, values) ==> e.value >= 0.0
    ensures forall e :: e in GaugeSnapshotOf(sel, values) && (e.key == DiskReadsKey || e.key == DiskWritesKey) ==>
              e.value != ULongMax as real
  {
    EntriesExact(sel, SnapshotKeys, FromGauges(values));
  }

  /** The keys send_metrics adds for a metric, in the order it adds them. */
  function MetricKeys(m: Metric): (keys: seq<Key>)
    ensures forall k | k in keys :: k.Enabler() == m
  {
    match m
    case Cpu => [CpuUsageKey]
    case Memory => [TotalMemoryKey, UsedMemoryKey, FreeMemoryKey]
    case Disk => [DiskReadsKey, DiskWritesKey]
    case Net => [RxBytesKey, TxBytesKey]
    case ContextSwitchCount => [ContextSwitchesKey]
    case RunningProcessCount => [RunningProcessesKey]
  }

  /** Each key with the value `src` gives it. */
  function Tagged(keys: seq<Key>, src: Values): seq<Entry> {
    seq(|keys|, i requires 0 <= i < |keys| => Entry(keys[i], ValueOf(src, keys[i])))
  }

  lemma {:induction false} EntriesAppend(sel: Selection, a: seq<Key>, b: seq<Key>, src: Values)
    ensures Entries(sel, a + b, src) == Entries(sel, a, src) + Entries(sel, b, src)
  {
    if a == [] {
      assert a + b == b;
    } else {
      assert (a + b)[0] == a[0] && (a + b)[1..] == a[1..] + b;
      EntriesAppend(sel, a[1..], b, src);
    }
  }

  /** Keys that share one enabling metric are all present or all absent. */
  lemma {:induction false} EntriesUniform(sel: Selection, keys: seq<Key>, m: Metric, src: Values)
    requires forall k | k in keys :: k.Enabler() == m
    ensures Entries(sel, keys, src) == if sel.Has(m) then Tagged(keys, src) else []
  {
    if keys != [] {
      EntriesUniform(sel, keys[1..], m, src);
    }
  }

  /** The entries send_metrics adds for one metric: all its keys when it is enabled, none otherwise. */
  function Block(sel: Selection, m: Metric, src: Values): seq<Entry> {
    if sel.Has(m) then Tagged(MetricKeys(m), src) else []
  }

  lemma MetricEntries(sel: Selection, m: Metric, src: Values)
    ensures Entries(sel, MetricKeys(m), src) == Block(sel, m, src)
  {
    EntriesUniform(sel, MetricKeys(m), m, src);
  }

  /** The snapshot keys are the metrics' keys, metric after metric. */
  lemma EntriesBlocks(sel: Selection, src: Values)
    ensures Entries(sel, SnapshotKeys, src)
         == Entries(sel, MetricKeys(Cpu), src) + Entries(sel, MetricKeys(Memory), src)
          + Entries(sel, MetricKeys(Disk), src) + Entries(sel, MetricKeys(Net), src)
          + Entries(sel, MetricKeys(ContextSwitchCount), src) + Entries(sel, MetricKeys(RunningProcessCount), src)
  {
    var c, m, d, n := MetricKeys(Cpu), MetricKeys(Memory), MetricKeys(Disk), MetricKeys(Net);
    var x, r := MetricKeys(ContextSwitchCount), MetricKeys(RunningProcessCount);
    assert SnapshotKeys == c + m + d + n + x + r;
    EntriesAppend(sel, c + m + d + n + x, r, src);
    EntriesAppend(sel, c + m + d + n, x, src);
    EntriesAppend(sel, c + m + d, n, src);
    EntriesAppend(sel, c + m, d, src);
    EntriesAppend(sel, c, m, src);
  }

  /** The snapshot is the metrics' blocks, in the order send_metrics adds them. */
  lemma SnapshotBlocks(sel: Selection, src: Values)
    ensures Entries(sel, SnapshotKeys, src)
         == Block(sel, Cpu, src) + Block(sel, Memory, src) + Block(sel, Disk, src) + Block(sel, Net, src)
          + Block(sel, ContextSwitchCount, src) + Block(sel, RunningProcessCount, src)
  {
    EntriesBlocks(sel, src);
    MetricEntries(sel, Cpu, src);
    MetricEntries(sel, Memory, src);
    MetricEntries(sel, Disk, src);
    MetricEntries(sel, Net, src);
    MetricEntries(sel, ContextSwitchCount, src);
    MetricEntries(sel, RunningProcessCount, src);
  }

  /** config_t */
  class Config {
    var samplingInterval: int
    var collectCpu: bool
    var collectMemory: bool
    var collectDisk: bool
    var collectNet: bool
    var collectContextSwitches: bool
    var collectRunningProcesses: bool
    var logFile: string

    /** A `config_t` holding whatever its owner put there before loading. */
    constructor(interval: int, selection: Selection, log: string)
      ensures samplingInterval == interval && Selected() == selection && logFile == log
    {
      samplingInterval := interval;
      collectCpu := selection.cpu;
      collectMemory := selection.memory;
      collectDisk := selection.disk;
      collectNet := selection.net;
      collectContextSwitches := selection.contextSwitches;
      collectRunningProcesses := selection.runningProcesses;
      logFile := log;
    }

    function Selected(): Selection
      reads this
    {
      Selection(collectCpu, collectMemory, collectDisk, collectNet, collectContextSwitches, collectRunningProcesses)
    }

    /**
     * load_config: false, with nothing changed, when the file cannot be read
     * or parsed; otherwise the interval (default 1), the flags (each true
     * exactly when its name is listed) and, when given as a string, the log
     * file truncated to 255 characters.
     */
    method LoadConfig(file: ConfigFile) returns (ok: bool)
      modifies this
      ensures ok == file.Parsed?
      ensures !ok ==> samplingInterval == old(samplingInterval) && Selected() == old(Selected()) && logFile == old(logFile)
      ensures ok ==> samplingInterval == IntervalOf(file.root)
      ensures ok ==> forall m: Metric :: Selected().Has(m) == Requested(file.root.metrics, m)
      ensures ok ==> logFile == match file.root.logFile
                                case Some(JString(path)) => Truncate(path, LogFileCapacity)
                                case _ => old(logFile)
    {
      if !file.Parsed? {
        return false;
      }
      var root := file.root;
      var interval := root.interval;
      if interval.Some? && interval.value.JNumber? {
        samplingInterval := interval.value.valueint;
      } else {
        samplingInterval := 1;
      }
      collectCpu, collectMemory, collectDisk, collectNet := false, false, false, false;
      collectContextSwitches, collectRunningProcesses := false, false;
      var metrics := root.metrics;
      if metrics.Some? && metrics.value.JArray? {
        var items := metrics.value.items;
        for i := 0 to |items|
          invariant samplingInterval == IntervalOf(root) && logFile == old(logFile)
          invariant forall m: Metric :: Selected().Has(m) == (JString(m.Name()) in items[..i])
        {
          assert items[..i + 1] == items[..i] + [items[i]];
          match items[i]
          case JString(name) =>
            if name == "cpu" {
              collectCpu := true;
            } else if name == "memory" {
              collectMemory := true;
            } else if name == "disk" {
              collectDisk := true;
            } else if name == "net" {
              collectNet := true;
            } else if name == "context_switches" {
              collectContextSwitches := true;
            } else if name == "running_processes" {
              collectRunningProcesses := true;
            }
          case _ =>
        }
        assert items[..|items|] == items;
      }
      var log := root.logFile;
      if log.Some? && log.value.JString? {
        logFile := Truncate(log.value.text, LogFileCapacity);
      }
      return true;
    }

    /** The CPU usage part of send_metrics: call the reader and add its keys when enabled. */
    method ReadCpuBlock(files: ProcFiles) returns (part: seq<Entry>)
      ensures part == Block(Selected(), Cpu, FromReadings(ReadingsOf(files)))
    {
      part := [];
      if collectCpu {
        var usage := CpuUsageOf(files.cpuFirst, files.cpuSecond, files.cpuLeftover1, files.cpuLeftover2);
        part := [Entry(CpuUsageKey, usage)];
      }
    }

    /** The memory part of send_metrics: call the reader and add its keys when enabled. */
    method ReadMemoryBlock(files: ProcFiles) returns (part: seq<Entry>)
      ensures part == Block(Selected(), Memory, FromReadings(ReadingsOf(files)))
    {
      part := [];
      if collectMemory {
        var info := GetMemoryUsage(files.meminfo);
        part := [Entry(TotalMemoryKey, info.totalMem), Entry(UsedMemoryKey, info.usedMem), Entry(FreeMemoryKey, info.freeMem)];
      }
    }

    /** The disk part of send_metrics: call the reader and add its keys when enabled. */
    method ReadDiskBlock(files: ProcFiles) returns (part: seq<Entry>)
      ensures part == Block(Selected(), Disk, FromReadings(ReadingsOf(files)))
    {
      part := [];
      if collectDisk {
        var disk := GetDiskStats(files.diskstats, SnapshotDevice);
        part := [Entry(DiskReadsKey, disk.readsCompleted as real), Entry(DiskWritesKey, disk.writesCompleted as real)];
      }
    }

    /** The network part of send_metrics: call the reader and add its keys when enabled. */
    method ReadNetBlock(files: ProcFiles) returns (part: seq<Entry>)
      ensures part == Block(Selected(), Net, FromReadings(ReadingsOf(files)))
    {
      part := [];
      if collectNet {
        var net := GetNetStats(files.netDev, SnapshotInterface);
        part := [Entry(RxBytesKey, net.rxBytes as real), Entry(TxBytesKey, net.txBytes as real)];
      }
    }

    /** The context switch part of send_metrics: call the reader and add its keys when enabled. */
    method ReadContextSwitchBlock(files: ProcFiles) returns (part: seq<Entry>)
      ensures part == Block(Selected(), ContextSwitchCount, FromReadings(ReadingsOf(files)))
    {
      part := [];
      if collectContextSwitches {
        var ctxt := GetContextSwitches(files.statForSwitches);
        part := [Entry(ContextSwitchesKey, ctxt as real)];
      }
    }

    /** The running process part of send_metrics: call the reader and add its keys when enabled. */
    method ReadRunningProcessBlock(files: ProcFiles) returns (part: seq<Entry>)
      ensures part == Block(Selected(), RunningProcessCount, FromReadings(ReadingsOf(files)))
    {
      part := [];
      if collectRunningProcesses {
        var running := GetRunningProcesses(files.statForRunning);
        part := [Entry(RunningProcessesKey, running as real)];
      }
    }

    /**
     * send_metrics: an object with a key for each enabled metric, in order,
     * each holding what a fresh call of its reader returns.
     */
    method SendMetrics(files: ProcFiles) returns (snapshot: seq<Entry>)
      ensures snapshot == SnapshotOf(Selected(), ReadingsOf(files))
    {
      var cpu := ReadCpuBlock(files);
      var memory := ReadMemoryBlock(files);
      var disk := ReadDiskBlock(files);
      var net := ReadNetBlock(files);
      var switches := ReadContextSwitchBlock(files);
      var running := ReadRunningProcessBlock(files);
      snapshot := cpu + memory + disk + net + switches + running;
      SnapshotBlocks(Selected(), FromReadings(ReadingsOf(files)));
    }

    /** One metric's part of the snapshot, read from the gauges. */
    method GaugeBlock(registry: Registry, m: Metric) returns (part: seq<Entry>)
      requires registry.Valid()
      ensures part == Block(Selected(), m, FromGauges(registry.values))
    {
      part := [];
      if Selected().Has(m) {
        var keys, values := MetricKeys(m), registry.values;
        part := seq(|keys|, i requires 0 <= i < |keys| && keys[i].Source() in values => Entry(keys[i], values[keys[i].Source()]));
      }
    }

    /**
     * The snapshot read from the gauges while the lock is held, instead of
     * from fresh reads: the updaters keep every sentinel out of the gauges.
     */
    method SendMetricsFromGauges(registry: Registry) returns (snapshot: seq<Entry>)
      requires registry.Valid() && !registry.locked
      modifies registry
      ensures snapshot == GaugeSnapshotOf(Selected(), registry.values)
      ensures registry.values == old(registry.values) && registry.registered == old(registry.registered)
      ensures registry.Valid() && !registry.locked
    {
      registry.Lock();
      var cpu := GaugeBlock(registry, Cpu);
      var memory := GaugeBlock(registry, Memory);
      var disk := GaugeBlock(registry, Disk);
      var net := GaugeBlock(registry, Net);
      var switches := GaugeBlock(registry, ContextSwitchCount);
      var running := GaugeBlock(registry, RunningProcessCount);
      snapshot := cpu + memory + disk + net + switches + running;
      SnapshotBlocks(Selected(), FromGauges(registry.values));
      registry.Unlock();
    }
  }
}
