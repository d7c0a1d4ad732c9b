# Monitor: readers, gauges and configuration

This project models the sampling core of a small Linux system monitor
written in C. It has four parts:

- The **stat readers** of `src/metrics.c`. They parse `/proc/net/dev`,
  `/proc/diskstats`, `/proc/stat` and `/proc/meminfo`. Each returns the
  documented error value ("sentinel") of `include/metrics.h` when the file
  cannot be opened or the line is not found.
- The **gauge updaters** and `init_metrics` of `src/expose_metrics.c`.
  The gauges form a `Registry` class whose `values` map stands in for the
  Prometheus gauges and whose `locked` flag stands in for the mutex. Each
  updater calls its reader and writes the gauge only when the result is not
  a sentinel. `init_metrics` registers the gauges in a fixed order and
  returns at the first call that fails.
- `load_config` and `send_metrics` of `src/config.c`. The configuration is
  a `Config` class with the sampling interval, the six `collect_*` flags
  and the log file path. `send_metrics` builds the snapshot as an ordered
  list of key/value entries.
- One piece of `src/main.c`: the disk argument of the sampling loop, for the
  first finding below.

Files:

- `optional.dfy`: the `Option` type.
- `libc.dfy`: the C library conversions the readers rely on:
  - `sscanf` as a character-level interpreter of the directives used;
  - `strtoull` and `strtoll` saturation;
  - the `%d` store, modulo 2^32;
  - `strtok_r` tokens;
  - `strncpy` truncation.
- `metrics.dfy`: the readers. Each reader method loops over the lines of its
  file and is proved equal to a specification function.
- `expose_metrics.dfy`: the registry, the updaters and `init_metrics`.
- `config.dfy`: the configuration and the snapshot.
- `main.dfy`: the disk branch of the main loop.

A file is `Option<seq<string>>`, where `None` means `fopen` failed. Counters
are unbounded integers. The C widths are written out where they matter:
`unsigned long` saturation, the wrap of `unsigned long long` to `long long`,
and the `int` store of `%d`. Gauge values are `real`.

## Model

| member | source | states |
|---|---|---|
| LibC.Truncate | src/config.c:84-91 | The copy holds at most `cap` characters, is a prefix of the input, and equals the input when the input fits |
| LibC.ToUnsignedLong | src/metrics.c:58-63 | Magnitudes below 2^64 pass unchanged, larger ones saturate at ULONG_MAX, and a minus sign negates modulo 2^64 |
| LibC.ToLongLong | src/metrics.c:176-178 | The value is clamped into the `long long` range and is unchanged when it already fits |
| LibC.WrapInt | src/metrics.c:145-147 | The `%d` store lands in the `int` range, is unchanged on values that fit, and differs from the input by a multiple of 2^32 |
| LibC.AsLongLong | src/metrics.c:64-69 | The conversion to `long long` is non-negative exactly below 2^63 and is the input minus 2^64 above that |
| LibC.Strtoull | src/metrics.c:62 | A token without digits gives 0 |
| LibC.StrtoullDecimal | src/metrics.c:62 | A decimal token gives its value, or ULONG_MAX when the value does not fit in 64 bits |
| LibC.Tokens | src/metrics.c:43-60 | The pieces `strtok_r` returns with delimiters " \t\n" are non-empty and hold no delimiter |
| LibC.Scanf | src/metrics.c:111-112 | `sscanf` assigns at most one item per directive; the first directive that fails ends the scan |
| LibC.ScanfAssigns | src/metrics.c:111-112 | `sscanf` assigns at most as many items as the format has `%u`/`%d`/`%Ns` conversions; `%*s` assigns none |
| LibC.ScanfWordWidth | src/metrics.c:111 | Every word that `sscanf` stores through `%Ns` has at most N characters |
| Metrics.NetFromLine | src/metrics.c:56-74 | A matching line yields an interface name of at most 15 characters and counters in the `long long` range |
| Metrics.NetScan | src/metrics.c:36-76 | The scan of the data lines yields a name of at most 15 characters and counters in the `long long` range |
| Metrics.NetStatsOf | src/metrics.c:15-86 | get_net_stats returns a result that fits `net_stats_t`, including on the error paths |
| Metrics.GetNetStats | src/metrics.c:15-86 | The imperative reader (header skip, tokenising loop, counter loop) returns exactly `NetStatsOf` |
| Metrics.ReadNetCounters | src/metrics.c:58-63 | The counter array has 16 cells; the first min(16, tokens after the name) hold `strtoull` of those tokens, in order |
| Metrics.NetScanNoMatch | src/metrics.c:36-85 | With no line naming the interface, the scan returns the (-1, -1) sentinel |
| Metrics.NetScanFirstMatch | src/metrics.c:43-75 | The first line naming the interface decides the result; later lines are ignored |
| Metrics.NetNotFound | src/metrics.c:17-33 | An unopenable file, or one where no line after the two header lines names the interface, gives the sentinel |
| Metrics.NetFirstMatch | src/metrics.c:58-74 | The first matching data line gives rx from its 1st counter and tx from its 9th, or the sentinel when it has fewer than 16 |
| Metrics.NetCounterBeyondLongLong | include/metrics.h:48-53 | A received-bytes counter of 2^63 or more is reported negative, which the updater reads as an error |
| Metrics.NameTokenCutAtColon | src/metrics.c:43-56 | A line "name:tail c1 c2 …" names interface `name`, and its counters are exactly c1, c2, … |
| Metrics.NetGluedCounterLost | src/metrics.c:47-56 | When the first counter is glued to the colon and 16 counters follow in all, only 15 are seen and the reader returns the sentinel |
| Metrics.InterfaceNameCut | src/metrics.c:47-50 | The interface name of a token is the text before its first colon |
| Metrics.DiskScan | src/metrics.c:105-128 | The device in the result is the requested name truncated to 31 characters |
| Metrics.DiskStatsOf | src/metrics.c:88-129 | get_disk_stats copies the device name truncated to 31 characters on every path |
| Metrics.GetDiskStats | src/metrics.c:88-129 | The imperative reader returns exactly `DiskStatsOf`, with a name of at most 31 characters |
| Metrics.DiskScanNoMatch | src/metrics.c:105-128 | With no line naming the device, both counters are ULONG_MAX |
| Metrics.DiskScanFirstMatch | src/metrics.c:111-120 | The first line naming the device decides the result |
| Metrics.DiskNotFound | src/metrics.c:90-128 | An unopenable file, or one without the device, gives the ULONG_MAX sentinel |
| Metrics.DiskFirstMatch | src/metrics.c:111-120 | The first matching line supplies reads from its 4th field and writes from its 8th |
| Metrics.DiskNameWidth | src/metrics.c:111-114 | A line can match only a device name of at most 31 characters (`%31s`) |
| Metrics.DiskLongNameNeverMatches | src/metrics.c:111-128 | A device name longer than 31 characters is never found |
| Metrics.DiskLineFields | src/metrics.c:111-112 | A well-formed diskstats line scans to its major, minor, name, reads and writes fields |
| Metrics.FirstWithPrefix | src/metrics.c:141-150 | Finds the first line starting with the key, and no earlier line starts with it; None when no line does |
| Metrics.RunningFromLine | src/metrics.c:143-147 | The value read from a `procs_running` line lies in the `int` range |
| Metrics.ContextSwitchesFromLine | src/metrics.c:174-182 | The value read from a `ctxt` line lies in the `long long` range |
| Metrics.RunningProcessesOf | src/metrics.c:131-160 | get_running_processes returns an `int` on every path, and -1 when the file cannot be opened |
| Metrics.ContextSwitchesOf | src/metrics.c:162-195 | get_context_switches returns a `long long` on every path, and -1 when the file cannot be opened |
| Metrics.RunningNotFound | src/metrics.c:131-160 | With no file, or no line starting with `procs_running`, the result is -1 |
| Metrics.ContextSwitchesNotFound | src/metrics.c:162-195 | With no file, or no line starting with `ctxt`, the result is -1 |
| Metrics.GetRunningProcesses | src/metrics.c:131-160 | The imperative reader returns exactly `RunningProcessesOf` |
| Metrics.GetContextSwitches | src/metrics.c:162-195 | The imperative reader returns exactly `ContextSwitchesOf` |
| Metrics.FirstWithPrefixIgnoresLater | src/metrics.c:141-150 | Lines after the first match do not change what is found |
| Metrics.RunningFirstLineDecides | src/metrics.c:141-150 | The first `procs_running` line decides the result, whatever follows |
| Metrics.ContextSwitchesFirstLineDecides | src/metrics.c:172-185 | The first `ctxt` line decides the result, whatever follows |
| Metrics.RunningLine | src/metrics.c:145-147 | "procs_running N…" gives N when N fits an `int` |
| Metrics.RunningLineWithoutNumber | src/metrics.c:145-150 | A `procs_running` line without a number gives -1 |
| Metrics.ContextSwitchesLine | src/metrics.c:176-178 | "ctxt N…" gives N when N fits a `long long` |
| Metrics.ContextSwitchesLineWithoutNumber | src/metrics.c:176-182 | A `ctxt` line without a number gives -1 |
| Metrics.MemoryFromCounters | src/metrics.c:227-241 | The result is the all -1 error exactly when MemTotal or MemAvailable is 0; otherwise total and free are positive, used is non-negative, used + free = total when available <= total, and the three values are MemTotal, total − available (modulo 2^64) and MemAvailable, each divided by 1024 |
| Metrics.UsedKb | src/metrics.c:234 | `total_mem - free_mem` is the true difference when available <= total, and wraps by 2^64 otherwise |
| Metrics.MemoryOf | src/metrics.c:197-244 | An unopenable file gives the error value; any other result has positive total and free and non-negative used |
| Metrics.GetMemoryUsage | src/metrics.c:197-244 | The imperative reader returns exactly `MemoryOf`, whose values MemFound, MemAvailableBeforeTotal and MemNoAvailable fix |
| Metrics.MemFound | src/metrics.c:197-244 | With the last MemTotal line before the first MemAvailable line, the result is computed from those two lines' counters; when both are non-zero it is (total, total − available, available) in MB |
| Metrics.MemScanThroughTotal | src/metrics.c:212-216 | A MemTotal line with no MemAvailable line before it overrides every earlier total, and the scan goes on after it |
| Metrics.MemScanToStop | src/metrics.c:218-221 | The first MemAvailable line, with no MemTotal line before it, sets the available count and ends the scan |
| Metrics.MemScan | src/metrics.c:212-222 | Each counter either keeps its initial value or holds the value of some MemTotal line (total) or of a MemAvailable line that ends the scan (available) |
| Metrics.MemScanStops | src/metrics.c:218-221 | Reading stops at the first MemAvailable line; later lines change nothing |
| Metrics.MemScanKeepsTotal | src/metrics.c:212-216 | Without a MemTotal line, the total stays at its initial 0 |
| Metrics.MemScanKeepsAvailable | src/metrics.c:212-222 | Without a MemAvailable line, the available count stays at its initial 0 |
| Metrics.MemAvailableBeforeTotal | src/metrics.c:212-231 | A MemAvailable line before any MemTotal line ends the loop with total 0, so the reader fails |
| Metrics.MemNoAvailable | src/metrics.c:212-231 | A file without a MemAvailable line makes the reader fail |
| Metrics.MemTotalLine | src/metrics.c:214 | "MemTotal: N kB" scans to N |
| Metrics.MemAvailableLine | src/metrics.c:218 | "MemAvailable: N kB" scans to N and stops the loop |
| Metrics.CpuSample | src/metrics.c:254-273 | A sample exists only when the file opens and its first line gives at least four conversions |
| Metrics.CpuUsageFrom | src/metrics.c:300-315 | No elapsed time gives -1; any other result is at most 100 |
| Metrics.CpuUsageOf | src/metrics.c:246-316 | A failed read gives -1; any other result is at most 100 |
| Metrics.TotalDelta | src/metrics.c:301-305 | `totald` is the true difference of the two sums when the sum does not go back, and that difference plus 2^64 when it does |
| Metrics.IdleDelta | src/metrics.c:301-305 | `idled` is the true difference of idle + iowait when it does not go back, and that difference plus 2^64 when it does |
| Metrics.AdvancingDeltas | src/metrics.c:301-305 | When no counter goes back, the total delta is the growth of the sum and the idle delta does not exceed it |
| Metrics.CpuUsageInRange | include/metrics.h:85-90 | When no counter goes back and the sum of the second reading stays below 2^64, the result is -1 exactly when nothing elapsed, and in [0, 100] otherwise |
| Metrics.CpuLineItems | src/metrics.c:268-269 | A "cpu" line with eight decimal fields scans to those eight values |
| Metrics.CpuLineSample | src/metrics.c:260-273 | Such a line as the first line of the file gives the sample of its eight values |
| ExposeMetrics.Position | src/expose_metrics.c:181-283 | Every gauge has a position in the registration order |
| ExposeMetrics.RegistrationOrderDistinct | src/expose_metrics.c:181-283 | init_metrics names every gauge once, at exactly one position |
| ExposeMetrics.NameInjective | src/expose_metrics.c:182-273 | No two gauges are created with the same metric name |
| ExposeMetrics.ReachedIffAttempted | src/expose_metrics.c:165-283 | A registration is reached exactly when the mutex and registry initialise, every earlier creation succeeds and every earlier registration succeeds |
| ExposeMetrics.LaterImpliesEarlier | src/expose_metrics.c:165-283 | A registered gauge implies every earlier gauge is registered |
| ExposeMetrics.RegisteredCount | src/expose_metrics.c:165-283 | The number of gauges registered lies between the starting position and the eleven gauges |
| ExposeMetrics.RegisteredCountExact | src/expose_metrics.c:165-283 | The count of registered gauges covers exactly the gauges that register |
| ExposeMetrics.AllRegisteredWhenAllSucceed | src/expose_metrics.c:165-283 | When every library call succeeds, all eleven gauges are registered |
| ExposeMetrics.CreationFailureStops | src/expose_metrics.c:181-283 | A gauge that cannot be created is not registered, and neither is any gauge after it |
| ExposeMetrics.Registry.constructor | src/expose_metrics.c:7-21 | The registry starts unlocked, with nothing registered and every gauge at 0 |
| ExposeMetrics.Registry.Lock | src/expose_metrics.c:29 | Taking the lock changes no gauge |
| ExposeMetrics.Registry.Unlock | src/expose_metrics.c:31 | Releasing the lock changes no gauge |
| ExposeMetrics.Registry.Set | src/expose_metrics.c:30 | `prom_gauge_set` under the lock changes that one gauge only |
| ExposeMetrics.Registry.UpdateCpuGauge | src/expose_metrics.c:24-37 | The CPU gauge takes the usage when it is >= 0; otherwise nothing changes |
| ExposeMetrics.Registry.UpdateRunningProcessesGauge | src/expose_metrics.c:39-52 | The gauge takes the count when it is >= 0; otherwise nothing changes |
| ExposeMetrics.Registry.UpdateNetStatsGauge | src/expose_metrics.c:54-72 | rx and tx are set together when both are >= 0; otherwise nothing changes |
| ExposeMetrics.Registry.UpdateDiskStatsGauge | src/expose_metrics.c:74-92 | reads and writes are set together when neither is ULONG_MAX; otherwise nothing changes |
| ExposeMetrics.Registry.UpdateContextSwitchesGauge | src/expose_metrics.c:94-107 | The gauge takes the count when it is >= 0; otherwise nothing changes |
| ExposeMetrics.Registry.UpdateMemoryGauge | src/expose_metrics.c:109-128 | total, used and free are set together when total is >= 0; otherwise nothing changes |
| ExposeMetrics.Registry.CreateGroup | src/expose_metrics.c:189-198 | The creation step succeeds exactly when its gauges can be created; on failure the registered prefix is final |
| ExposeMetrics.Registry.RegisterNext | src/expose_metrics.c:200-208 | A successful registration appends the next gauge in order; a failed one leaves the list, and it is final |
| ExposeMetrics.Registry.InitMetrics | src/expose_metrics.c:165-284 | The registered gauges are exactly the prefix of the registration order up to the first failing call; no value changes |
| Config.KeyNameInjective | src/config.c:111-135 | No two snapshot keys share a JSON name |
| Config.EntriesExact | src/config.c:108-135 | An entry appears exactly for each key whose metric is selected, and it carries that key's value |
| Config.SnapshotKeySet | src/config.c:108-135 | The snapshot has a key exactly when its metric is selected, and each value is what the reader returns |
| Config.SnapshotLeaksSentinels | src/config.c:114-124 | With memory selected and meminfo unreadable, the snapshot sends total_memory -1; with disk selected and diskstats unreadable, it sends ULONG_MAX |
| Config.GaugeSnapshotHasNoSentinels | src/config.c:108-135 | A snapshot built from the gauges holds no negative value and no ULONG_MAX disk counter |
| Config.MetricKeys | src/config.c:111-135 | Every key listed for a metric is enabled by that metric |
| Config.Config.constructor | include/config.h:13-22 | A configuration holds the interval, the six flags and the log file path it is given |
| Config.Config.LoadConfig | src/config.c:15-104 | Fails, changing nothing, when the file cannot be opened or parsed. Otherwise: the interval is the number given or 1; a flag is set exactly when its name is in "metrics"; the log file path is the string given, truncated to 255 characters |
| Config.Config.ReadCpuBlock | src/config.c:111-113 | The CPU block holds `cpu_usage` when CPU is selected, and nothing otherwise |
| Config.Config.ReadMemoryBlock | src/config.c:114-119 | The memory block holds the three memory entries when memory is selected |
| Config.Config.ReadDiskBlock | src/config.c:120-124 | The disk block holds reads and writes when disk is selected |
| Config.Config.ReadNetBlock | src/config.c:125-129 | The net block holds rx and tx when net is selected |
| Config.Config.ReadContextSwitchBlock | src/config.c:130-132 | The block holds `context_switches` when it is selected |
| Config.Config.ReadRunningProcessBlock | src/config.c:133-135 | The block holds `running_processes` when it is selected |
| Config.Config.SendMetrics | src/config.c:108-135 | The snapshot is exactly the entries of the selected metrics, in the code's order, each with what its reader returns now |
| Config.Config.GaugeBlock | src/config.c:108-135 | One metric's block, taken from the gauges' current values |
| Config.Config.SendMetricsFromGauges | src/config.c:108-135 | The snapshot is the selected entries with the gauges' current values, read under the lock; no gauge changes and the lock is released |
| Monitor.DiskArgument | src/main.c:82-84 | The path holds at most 255 characters, is a prefix of "/dev/" + name, and is exactly that when it fits |
| Monitor.DiskArgumentSlash | src/main.c:84 | The path always starts with '/' |
| Monitor.DevPathNeverMatches | src/main.c:82-85 | Passing "/dev/<name>" to the disk reader always yields the ULONG_MAX sentinel, whenever no diskstats name starts with '/' (kernel disk names such as "sda1" or "cciss/c0d0" are relative) |
| Monitor.CorrectedArgumentFindsDevice | src/metrics.c:111-120 | Passing the bare name finds the device's first line and its reads and writes counters |
| Monitor.CollectDisk | src/main.c:80-86 | One pass of the disk branch as written leaves every gauge unchanged when no diskstats name starts with '/' |
| Monitor.CollectDiskCorrected | src/main.c:80-86 | One pass with the bare name sets the disk gauges from what the reader finds |

## Left out

- The HTTP exposition thread, `expose_metrics` (src/expose_metrics.c:139-162), only starts the Prometheus library's HTTP daemon and sleeps. The rendering of the gauges happens inside that library, which is not part of this model. The visible code takes no lock for rendering: only the updaters take the mutex.
- The mutex is modelled as a `locked` flag that every gauge write requires. This models one thread; interleaving with the HTTP thread is not modelled.
- The memory fragmentation gauge's updater (src/expose_metrics.c:130-135) calls `calculate_memory_fragmentation()` from memory.h. That header is not part of this model, so the updater is not modelled; only the gauge's creation and registration are.
- `fgets` into a 256-byte buffer is not modelled. A file is a sequence of whole lines, so the model does not cover a line longer than 255 characters being split in two.
- Floating point is not modelled. Gauge values and the CPU and memory arithmetic are exact reals, so the rounding of `double` (including of ULONG_MAX) is not captured.
- The `usleep`/`sleep` between the two CPU readings are not modelled. Each reading is its own file parameter.
- Metrics.CpuSample: when the first line parses only four to seven counters, C leaves the rest uninitialised. The model passes those leftover values in as parameters.
- The JSON parser is not modelled. `cJSON_Parse` and `cJSON_GetObjectItem` are abstracted to what they return for "sampling_interval", "metrics" and "log_file". cJSON's case-insensitive lookup and its clamping of `valueint` are not modelled.
- The FIFO is not modelled. `send_metrics` returns the snapshot instead of printing JSON into the FIFO, and `save_sampling_interval` is not modelled. Both are I/O.
- Most of src/main.c is not modelled: argument handling, `detect_disk` (which runs `lsblk` through `popen`), thread start-up, the endless sampling loop and the sleep. Only the disk argument is modelled.
- ExposeMetrics.Registry.InitMetrics: `accepted` holds the gauges whose `prom_collector_registry_must_register_metric` call returns a non-zero value, which is what the code treats as success. The library's own return convention is not part of this model. The model is also not used to claim which gauges a real run registers.
- ExposeMetrics.Registry.UpdateCpuGauge: the updaters require the registry to be unlocked and valid. An updater called after a failed `init_metrics`, on a gauge that was never created, is not modelled.
- Metrics.MemScan: its own contract says only where each counter can come from. The exact counters are stated by MemScanThroughTotal, MemScanToStop and MemFound.
- Metrics.CpuUsageOf: the header promises a value in [0, 100], but the contract states only "at most 100". The code gives that lower bound only when no counter goes back and the sum of the second reading stays below 2^64. CpuUsageInRange proves it under those conditions.
- Metrics.RunningProcessesOf: the result is stated as an `int`, not as >= 0, because `%d` would also accept a negative number written in the file.
- Metrics.ContextSwitchesOf: the result is stated as a `long long`, not as "-1 on error, a count otherwise", because `%lld` also accepts a negative number written in the file. The error cases are stated by ContextSwitchesNotFound and ContextSwitchesLineWithoutNumber.

## Findings

| source | as written | input that shows it | evidently intended | confidence | as-written member | corrected member |
|---|---|---|---|---|---|---|
| src/main.c:82-85 | The disk branch hands "/dev/<name>" to update_disk_stats_gauge, which compares it with the bare name column of /proc/diskstats (src/metrics.c:114) | any disk, e.g. `detect_disk()` returning "nvme0n1" with a diskstats line `259 0 nvme0n1 100 …`: the reader returns (ULONG_MAX, ULONG_MAX) and the disk gauges never change | pass the bare device name, so the first line naming it supplies reads and writes | high, not executed | Monitor.DevPathNeverMatches | Monitor.CorrectedArgumentFindsDevice |
| src/config.c:108-135 | send_metrics calls the readers again instead of reading the gauges, so a failed read reaches the snapshot as its sentinel. The updaters (src/expose_metrics.c:24-128) keep every sentinel out of the gauges, but send_metrics writes the fresh values to the FIFO unfiltered | memory selected and /proc/meminfo unreadable: the snapshot carries `total_memory` -1 while the gauge keeps its last good value | build the snapshot from the gauges under the lock | medium, not executed | Config.SnapshotLeaksSentinels | Config.GaugeSnapshotHasNoSentinels |
