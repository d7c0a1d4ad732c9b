/**
 * The /proc text readers of src/metrics.c and the record types and error
 * values that include/metrics.h documents for them.
 *
 * Each reader opens its file afresh; here a file is its contents at that
 * moment, `None` when it cannot be opened. Every reader is a method that
 * scans the lines as the C loop does, proved equal to a specification
 * function; the lemmas state what the readers promise about that function.
 */
module Metrics {
  import opened Optional
  import opened LibC

  /** A /proc text file as a reader sees it: `None` when `fopen` fails. */
  type File = Option<seq<string>>

  // ---------------------------------------------------------------------------
  // include/metrics.h

  /** memory_info_t: total, used and available memory in MB. */
  datatype MemoryInfo = MemoryInfo(totalMem: real, usedMem: real, freeMem: real)

  /** The documented error value of get_memory_usage. */
  const MemoryError: MemoryInfo := MemoryInfo(-1.0, -1.0, -1.0)

  /** disk_stats_t; `device` is a `char[32]`. */
  datatype DiskStats = DiskStats(device: string, readsCompleted: U64, writesCompleted: U64)

  const DeviceCapacity: nat := 31

  /** net_stats_t; `iface` is a `char[16]`, the counters are `long long`. */
  datatype NetStats = NetStats(iface: string, rxBytes: int, txBytes: int)

  const IfaceCapacity: nat := 15

  /** The documented error value of get_net_stats. */
  const NetError: NetStats := NetStats("", -1, -1)

  // ---------------------------------------------------------------------------
  // get_net_stats: /proc/net/dev

  /** Number of counters read after the interface name. */
  const NetFieldCount: nat := 16

  /** The interface name in a first token: cut at its first ':', leading white space dropped. */
  function InterfaceName(token: string): string {
    SkipSpace(token[..Span(token, NotColon)])
  }

  /** Whether the first token of `line` names `iface`. */
  predicate NamesInterface(line: string, iface: string) {
    var ts := Tokens(line);
    |ts| > 0 && InterfaceName(ts[0]) == iface
  }

  /** The tokens after the name token. */
  function NetFields(line: string): seq<string> {
    var ts := Tokens(line);
    if ts == [] then [] else ts[1..]
  }

  /** What the first line naming `iface` yields. */
  function NetFromLine(line: string, iface: string): (r: NetStats)
    ensures |r.iface| <= IfaceCapacity && InLongLongRange(r.rxBytes) && InLongLongRange(r.txBytes)
  {
    var fields := NetFields(line);
    if |fields| >= NetFieldCount then
      NetStats(Truncate(iface, IfaceCapacity), AsLongLong(Strtoull(fields[0])), AsLongLong(Strtoull(fields[8])))
    else
      NetError
  }

  /** The data lines scanned in order; the first line naming `iface` decides. */
  function NetScan(lines: seq<string>, iface: string): (r: NetStats)
    ensures |r.iface| <= IfaceCapacity && InLongLongRange(r.rxBytes) && InLongLongRange(r.txBytes)
  {
    if lines == [] then NetError
    else if NamesInterface(lines[0], iface) then NetFromLine(lines[0], iface)
    else NetScan(lines[1..], iface)
  }

  /** The lines after the two header lines of /proc/net/dev. */
  function NetDataLines(lines: seq<string>): seq<string> {
    if |lines| >= 2 then lines[2..] else []
  }

  function NetStatsOf(file: File, iface: string): (r: NetStats)
    ensures |r.iface| <= IfaceCapacity && InLongLongRange(r.rxBytes) && InLongLongRange(r.txBytes)
  {
    match file
    case None => NetError
    case Some(lines) => NetScan(NetDataLines(lines), iface)
  }

  /** get_net_stats(iface) */
  method GetNetStats(netDev: File, iface: string) returns (stats: NetStats)
    ensures stats == NetStatsOf(netDev, iface)
    ensures |stats.iface| <= IfaceCapacity
  {
    stats := NetError;
    if netDev.None? {
      return;
    }
    var lines := netDev.value;
    // the two header lines are read and dropped
    var i := if |lines| >= 2 then 2 else |lines|;
    assert lines[i..] == NetDataLines(lines);
    while i < |lines|
      invariant i <= |lines|
      invariant NetScan(lines[i..], iface) == NetStatsOf(netDev, iface)
      invariant stats == NetError
    {
      assert lines[i..][0] == lines[i] && lines[i..][1..] == lines[i + 1..];
      var tokens := Tokens(lines[i]);
      if tokens == [] {
        i := i + 1;
        continue;
      }
      if InterfaceName(tokens[0]) == iface {
        var values, n := ReadNetCounters(tokens);
        if n >= NetFieldCount {
          stats := NetStats(Truncate(iface, IfaceCapacity), AsLongLong(values[0]), AsLongLong(values[8]));
        }
        break;
      }
      i := i + 1;
    }
  }

  /** The counters after the name token, up to 16 of them, as `strtoull` reads them. */
  method ReadNetCounters(tokens: seq<string>) returns (values: array<U64>, n: nat)
    requires tokens != []
    ensures fresh(values) && values.Length == NetFieldCount
    ensures n == if |tokens| - 1 < NetFieldCount then |tokens| - 1 else NetFieldCount
    ensures forall k :: 0 <= k < n ==> values[k] == Strtoull(tokens[k + 1])
  {
    values := new U64[NetFieldCount];
    n := 0;
    while n < NetFieldCount && n + 1 < |tokens|
      invariant 0 <= n <= NetFieldCount && n + 1 <= |tokens|
      invariant forall k :: 0 <= k < n ==> values[k] == Strtoull(tokens[k + 1])
    {
      values[n] := Strtoull(tokens[n + 1]);
      n := n + 1;
    }
  }

  lemma {:induction false} NetScanNoMatch(lines: seq<string>, iface: string)
    requires forall k :: 0 <= k < |lines| ==> !NamesInterface(lines[k], iface)
    ensures NetScan(lines, iface) == NetError
  {
    if lines != [] {
      NetScanNoMatch(lines[1..], iface);
    }
  }

  lemma {:induction false} NetScanFirstMatch(lines: seq<string>, iface: string, k: nat)
    requires k < |lines| && NamesInterface(lines[k], iface)
    requires forall j :: 0 <= j < k ==> !NamesInterface(lines[j], iface)
    ensures NetScan(lines, iface) == NetFromLine(lines[k], iface)
  {
    if k > 0 {
      NetScanFirstMatch(lines[1..], iface, k - 1);
    }
  }

  /**
   * The two header lines are never examined, and when no later line names
   * `iface` (or the file cannot be opened) the result is {-1, -1}.
   */
  lemma NetNotFound(lines: seq<string>, iface: string)
    requires forall k :: 2 <= k < |lines| ==> !NamesInterface(lines[k], iface)
    ensures NetStatsOf(Some(lines), iface) == NetError
    ensures NetStatsOf(None, iface) == NetError
  {
    NetScanNoMatch(NetDataLines(lines), iface);
  }

  /**
   * The first data line naming `iface` decides, whatever follows: with at
   * least 16 counters after the name, rx is counter 0 and tx counter 8;
   * with fewer, both stay -1.
   */
  lemma NetFirstMatch(lines: seq<string>, iface: string, k: nat)
    requires 2 <= k < |lines| && NamesInterface(lines[k], iface)
    requires forall j :: 2 <= j < k ==> !NamesInterface(lines[j], iface)
    ensures var r := NetStatsOf(Some(lines), iface);
            var fields := NetFields(lines[k]);
            if |fields| >= NetFieldCount then
              r.rxBytes == AsLongLong(Strtoull(fields[0])) && r.txBytes == AsLongLong(Strtoull(fields[8]))
              && r.iface == Truncate(iface, IfaceCapacity)
            else
              r == NetError
  {
    NetScanFirstMatch(NetDataLines(lines), iface, k - 2);
  }

  /**
   * A counter too large for `long long` turns negative, so the updater's
   * `>= 0` test rejects it.
   */
  lemma NetCounterBeyondLongLong(lines: seq<string>, iface: string, k: nat)
    requires 2 <= k < |lines| && NamesInterface(lines[k], iface)
    requires forall j :: 2 <= j < k ==> !NamesInterface(lines[j], iface)
    requires |NetFields(lines[k])| >= NetFieldCount
    requires Strtoull(NetFields(lines[k])[0]) >= TwoTo63
    ensures NetStatsOf(Some(lines), iface).rxBytes < 0
  {
    NetFirstMatch(lines, iface, k);
  }

  /**
   * In a name token such as `eth0:123` everything from the ':' on is cut
   * off: the line names `eth0`, and `123` is not read as the first counter.
   */
  lemma NameTokenCutAtColon(name: string, tail: string, counters: seq<string>)
    requires IsToken(name + ":" + tail)
    requires forall i :: 0 <= i < |name| ==> NotColon(name[i])
    requires name == [] || !IsSpace(name[0])
    requires forall k :: 0 <= k < |counters| ==> IsToken(counters[k])
    ensures NamesInterface(Spaced([name + ":" + tail] + counters), name)
    ensures NetFields(Spaced([name + ":" + tail] + counters)) == counters
  {
    var first := name + ":" + tail;
    var ts := [first] + counters;
    forall k | 0 <= k < |ts|
      ensures IsToken(ts[k])
    {
      if k > 0 {
        assert ts[k] == counters[k - 1];
      }
    }
    TokensSpaced(ts);
    InterfaceNameCut(name, tail);
    assert ts[1..] == counters;
  }

  /**
   * A data line in which the first counter abuts the colon ("eth0:12345678"
   * followed by the other 15 counters) is the line that names `eth0`, but
   * only 15 tokens follow its name token, so the result is {-1, -1}.
   */
  lemma NetGluedCounterLost(lines: seq<string>, name: string, first: string, counters: seq<string>, k: nat)
    requires IsToken(name + ":" + first)
    requires forall i :: 0 <= i < |name| ==> NotColon(name[i])
    requires name == [] || !IsSpace(name[0])
    requires |counters| == NetFieldCount - 1
    requires forall j :: 0 <= j < |counters| ==> IsToken(counters[j])
    requires 2 <= k < |lines| && lines[k] == Spaced([name + ":" + first] + counters)
    requires forall j :: 2 <= j < k ==> !NamesInterface(lines[j], name)
    ensures NetStatsOf(Some(lines), name) == NetError
  {
    NameTokenCutAtColon(name, first, counters);
    NetFirstMatch(lines, name, k);
  }

  /** The interface name of a token "name:tail" is `name`. */
  lemma InterfaceNameCut(name: string, tail: string)
    requires forall i :: 0 <= i < |name| ==> NotColon(name[i])
    requires name == [] || !IsSpace(name[0])
    ensures InterfaceName(name + ":" + tail) == name
  {
    var first := name + ":" + tail;
    assert first == name + (":" + tail);
    SpanOfRun(name, ":" + tail, NotColon);
    assert first[..|name|] == name;
    SkipLead([], name);
    assert [] + name == name;
  }

  // ---------------------------------------------------------------------------
  // get_disk_stats: /proc/diskstats

  /** "%u %u %31s %lu %*s %*s %*s %lu" */
  const DiskFormat: seq<Directive> :=
    [Integer, Blank, Integer, Blank, Chars(DeviceCapacity), Blank, Integer,
     Blank, SkipChars, Blank, SkipChars, Blank, SkipChars, Blank, Integer]

  /** Whether all five assignments of the line are made and the name read equals `device`. */
  predicate DiskLineFor(line: string, device: string) {
    var items := Scanf(line, DiskFormat);
    |items| >= 5 && items[2] == Word(device)
  }

  /** The error value: the device copied, both counters `(unsigned long)-1`. */
  function DiskError(device: string): DiskStats {
    DiskStats(Truncate(device, DeviceCapacity), ULongMax, ULongMax)
  }

  /** What a line that matches `device` yields: the fourth and fifth values assigned. */
  function DiskFromLine(line: string, device: string): (r: DiskStats)
    requires DiskLineFor(line, device)
  {
    var items := Scanf(line, DiskFormat);
    DiskStats(Truncate(device, DeviceCapacity), UnsignedItem(items[3]), UnsignedItem(items[4]))
  }

  function DiskScan(lines: seq<string>, device: string): (r: DiskStats)
    ensures r.device == Truncate(device, DeviceCapacity)
  {
    if lines == [] then DiskError(device)
    else if DiskLineFor(lines[0], device) then DiskFromLine(lines[0], device)
    else DiskScan(lines[1..], device)
  }

  function DiskStatsOf(file: File, device: string): (r: DiskStats)
    ensures r.device == Truncate(device, DeviceCapacity)
  {
    match file
    case None => DiskError(device)
    case Some(lines) => DiskScan(lines, device)
  }

  /** get_disk_stats(device) */
  method GetDiskStats(diskstats: File, device: string) returns (stats: DiskStats)
    ensures stats == DiskStatsOf(diskstats, device)
    ensures |stats.device| <= DeviceCapacity
  {
    if diskstats.None? {
      return DiskError(device);
    }
    var lines := diskstats.value;
    stats := DiskStats(Truncate(device, DeviceCapacity), 0, 0);
    var i := 0;
    while i < |lines|
      invariant i <= |lines|
      invariant DiskScan(lines[i..], device) == DiskStatsOf(diskstats, device)
      invariant stats == DiskStats(Truncate(device, DeviceCapacity), 0, 0)
    {
      assert lines[i..][0] == lines[i] && lines[i..][1..] == lines[i + 1..];
      var items := Scanf(lines[i], DiskFormat);
      if |items| >= 5 && items[2] == Word(device) {
        stats := stats.(readsCompleted := UnsignedItem(items[3]), writesCompleted := UnsignedItem(items[4]));
        return;
      }
      i := i + 1;
    }
    stats := stats.(readsCompleted := ULongMax, writesCompleted := ULongMax);
  }

  lemma {:induction false} DiskScanNoMatch(lines: seq<string>, device: string)
    requires forall k :: 0 <= k < |lines| ==> !DiskLineFor(lines[k], device)
    ensures DiskScan(lines, device) == DiskError(device)
  {
    if lines != [] {
      DiskScanNoMatch(lines[1..], device);
    }
  }

  lemma {:induction false} DiskScanFirstMatch(lines: seq<string>, device: string, k: nat)
    requires k < |lines| && DiskLineFor(lines[k], device)
    requires forall j :: 0 <= j < k ==> !DiskLineFor(lines[j], device)
    ensures DiskScan(lines, device) == DiskFromLine(lines[k], device)
  {
    if k > 0 {
      DiskScanFirstMatch(lines[1..], device, k - 1);
    }
  }

  /**
   * When the file cannot be opened or no line yields five values with the
   * name `device`, both counters are `(unsigned long)-1`.
   */
  lemma DiskNotFound(file: File, device: string)
    requires file.Some? ==> forall k :: 0 <= k < |file.value| ==> !DiskLineFor(file.value[k], device)
    ensures DiskStatsOf(file, device) == DiskError(device)
  {
    if file.Some? {
      DiskScanNoMatch(file.value, device);
    }
  }

  /** The first line that yields five values with the name `device` decides, whatever follows. */
  lemma DiskFirstMatch(lines: seq<string>, device: string, k: nat)
    requires k < |lines| && DiskLineFor(lines[k], device)
    requires forall j :: 0 <= j < k ==> !DiskLineFor(lines[j], device)
    ensures var r := DiskStatsOf(Some(lines), device);
            var items := Scanf(lines[k], DiskFormat);
            r.readsCompleted == UnsignedItem(items[3]) && r.writesCompleted == UnsignedItem(items[4])
  {
    DiskScanFirstMatch(lines, device, k);
  }

  /** `%31s` reads at most 31 characters, so a longer device name matches no line. */
  lemma DiskNameWidth(line: string, device: string)
    requires DiskLineFor(line, device)
    ensures |device| <= DeviceCapacity
  {
    var items := Scanf(line, DiskFormat);
    ScanfWordWidth(line, DiskFormat, DeviceCapacity);
    assert items[2].Word? && 2 < |items|;
  }

  lemma DiskLongNameNeverMatches(file: File, device: string)
    requires |device| > DeviceCapacity
    ensures DiskStatsOf(file, device) == DiskError(device)
  {
    if file.Some? {
      forall k | 0 <= k < |file.value|
        ensures !DiskLineFor(file.value[k], device)
      {
        if DiskLineFor(file.value[k], device) {
          DiskNameWidth(file.value[k], device);
        }
      }
    }
    DiskNotFound(file, device);
  }

  /** The conversions of the diskstats format, in order. */
  const DiskConversions: seq<Conversion> :=
    [Decimal, Decimal, Text(DeviceCapacity), Decimal, SkipText, SkipText, SkipText, Decimal]

  lemma DiskFormatSpread()
    ensures [Blank] + DiskFormat == Spread(DiskConversions)
  {
    var cs := DiskConversions;
    assert Spread(cs[7..]) == [Blank, Integer];
    assert Spread(cs[6..]) == [Blank, SkipChars] + Spread(cs[7..]);
    assert Spread(cs[5..]) == [Blank, SkipChars] + Spread(cs[6..]);
    assert Spread(cs[4..]) == [Blank, SkipChars] + Spread(cs[5..]);
    assert Spread(cs[3..]) == [Blank, Integer] + Spread(cs[4..]);
    assert Spread(cs[2..]) == [Blank, Chars(DeviceCapacity)] + Spread(cs[3..]);
    assert Spread(cs[1..]) == [Blank, Integer] + Spread(cs[2..]);
    assert Spread(cs) == [Blank, Integer] + Spread(cs[1..]);
  }

  /**
   * On a line whose fields are separated by single spaces, with the first
   * two, the fourth and the eighth fields decimal and the third at most 31
   * characters, the values assigned are: the name (third field) and fields
   * 4 and 8, reads and writes completed.
   */
  lemma DiskLineFields(fields: seq<string>)
    requires |fields| >= 8
    requires IsDecimalField(fields[0]) && IsDecimalField(fields[1])
    requires IsField(fields[2]) && |fields[2]| <= DeviceCapacity
    requires IsDecimalField(fields[3]) && IsDecimalField(fields[7])
    requires IsField(fields[4]) && IsField(fields[5]) && IsField(fields[6])
    ensures var items := Scanf(Spaced(fields), DiskFormat);
            |items| == 5 && items[2] == Word(fields[2])
            && items[3] == Numeral(Number(false, DecimalValue(fields[3])))
            && items[4] == Numeral(Number(false, DecimalValue(fields[7])))
  {
    var cs := DiskConversions;
    var f := fields;
    forall i | 0 <= i < 8
      ensures FieldFits(f[i], cs[i])
    {
      if cs[i] == Decimal {
        DecimalIsField(f[i]);
      }
    }
    DiskFormatSpread();
    ScanfSpaced(f, cs);
    ScanfBlankBeforeInteger(Spaced(f), [Blank] + DiskFormat);
    assert ([Blank] + DiskFormat)[1..] == DiskFormat;
    DiskAssigned(f);
  }

  lemma DiskAssigned(f: seq<string>)
    requires |f| >= 8
    requires IsDecimalField(f[0]) && IsDecimalField(f[1])
    requires IsField(f[2]) && |f[2]| <= DeviceCapacity
    requires IsDecimalField(f[3]) && IsDecimalField(f[7])
    requires IsField(f[4]) && IsField(f[5]) && IsField(f[6])
    ensures AssignedAll(f, DiskConversions)
         == [Numeral(Number(false, DecimalValue(f[0]))), Numeral(Number(false, DecimalValue(f[1]))), Word(f[2]),
             Numeral(Number(false, DecimalValue(f[3]))), Numeral(Number(false, DecimalValue(f[7])))]
  {
    var cs := DiskConversions;
    DecimalIsField(f[0]);
    DecimalIsField(f[1]);
    DecimalIsField(f[3]);
    DecimalIsField(f[7]);
    var a8 := AssignedAll(f[8..], cs[8..]);
    assert cs[8..] == [];
    var a7 := AssignedAll(f[7..], cs[7..]);
    assert a7 == [Numeral(Number(false, DecimalValue(f[7])))] + a8;
    var a6 := AssignedAll(f[6..], cs[6..]);
    assert a6 == a7;
    var a5 := AssignedAll(f[5..], cs[5..]);
    assert a5 == a6;
    var a4 := AssignedAll(f[4..], cs[4..]);
    assert a4 == a5;
    var a3 := AssignedAll(f[3..], cs[3..]);
    assert a3 == [Numeral(Number(false, DecimalValue(f[3])))] + a4;
    var a2 := AssignedAll(f[2..], cs[2..]);
    assert a2 == [Word(f[2])] + a3;
    var a1 := AssignedAll(f[1..], cs[1..]);
    assert a1 == [Numeral(Number(false, DecimalValue(f[1])))] + a2;
    assert AssignedAll(f, cs) == [Numeral(Number(false, DecimalValue(f[0])))] + a1;
  }

  // ---------------------------------------------------------------------------
  // get_running_processes and get_context_switches: /proc/stat

  /**
   * The index of the first line that starts with `key` (the test
   * `strncmp(line, key, strlen(key)) == 0`), if there is one.
   */
  function FirstWithPrefix(lines: seq<string>, key: string): (r: Option<nat>)
    ensures r.Some? ==> r.value < |lines| && key <= lines[r.value]
    ensures r.Some? ==> forall j :: 0 <= j < r.value ==> !(key <= lines[j])
    ensures r.None? ==> forall j :: 0 <= j < |lines| ==> !(key <= lines[j])
  {
    if lines == [] then None
    else if key <= lines[0] then Some(0)
    else match FirstWithPrefix(lines[1..], key)
      case None => None
      case Some(k) => Some(k + 1)
  }

  const RunningKey: string := "procs_running"

  /** "procs_running %d" */
  const RunningFormat: seq<Directive> := [Literal(RunningKey), Blank, Integer]

  const ContextSwitchKey: string := "ctxt"

  /** "ctxt %lld" */
  const ContextSwitchFormat: seq<Directive> := [Literal(ContextSwitchKey), Blank, Integer]

  /** The count on a `procs_running` line: `%d` stores an `int`, -1 stays when nothing is assigned. */
  function RunningFromLine(line: string): (r: int)
    ensures InIntRange(r)
  {
    var items := Scanf(line, RunningFormat);
    if |items| >= 1 then WrapInt(SignedItem(items[0])) else -1
  }

  /** The count on a `ctxt` line, -1 when `sscanf` does not return 1. */
  function ContextSwitchesFromLine(line: string): (r: int)
    ensures InLongLongRange(r)
  {
    var items := Scanf(line, ContextSwitchFormat);
    if |items| == 1 then SignedItem(items[0]) else -1
  }

  function RunningProcessesOf(stat: File): (r: int)
    ensures InIntRange(r)
    ensures stat.None? ==> r == -1
  {
    match stat
    case None => -1
    case Some(lines) =>
      match FirstWithPrefix(lines, RunningKey)
      case None => -1
      case Some(k) => RunningFromLine(lines[k])
  }

  function ContextSwitchesOf(stat: File): (r: int)
    ensures InLongLongRange(r)
    ensures stat.None? ==> r == -1
  {
    match stat
    case None => -1
    case Some(lines) =>
      match FirstWithPrefix(lines, ContextSwitchKey)
      case None => -1
      case Some(k) => ContextSwitchesFromLine(lines[k])
  }

  /** get_running_processes() */
  method GetRunningProcesses(stat: File) returns (running: int)
    ensures running == RunningProcessesOf(stat)
  {
    if stat.None? {
      return -1;
    }
    var lines := stat.value;
    running := -1;
    var i := 0;
    while i < |lines|
      invariant i <= |lines|
      invariant forall j :: 0 <= j < i ==> !(RunningKey <= lines[j])
    {
      if RunningKey <= lines[i] {
        var items := Scanf(lines[i], RunningFormat);
        if |items| >= 1 {
          running := WrapInt(SignedItem(items[0]));
        }
        break;
      }
      i := i + 1;
    }
  }

  /** get_context_switches() */
  method GetContextSwitches(stat: File) returns (ctxt: int)
    ensures ctxt == ContextSwitchesOf(stat)
  {
    if stat.None? {
      return -1;
    }
    var lines := stat.value;
    ctxt := -1;
    var i := 0;
    while i < |lines|
      invariant i <= |lines|
      invariant forall j :: 0 <= j < i ==> !(ContextSwitchKey <= lines[j])
    {
      if ContextSwitchKey <= lines[i] {
        var items := Scanf(lines[i], ContextSwitchFormat);
        if |items| == 1 {
          ctxt := SignedItem(items[0]);
        } else {
          ctxt := -1;
        }
        break;
      }
      i := i + 1;
    }
  }

  /** The first line with the key decides: lines after it are never examined. */
  lemma FirstWithPrefixIgnoresLater(lines: seq<string>, key: string, k: nat, later: seq<string>)
    requires FirstWithPrefix(lines, key) == Some(k)
    ensures FirstWithPrefix(lines[..k + 1] + later, key) == Some(k)
  {
    var cut := lines[..k + 1] + later;
    assert cut[k] == lines[k];
    assert forall j :: 0 <= j < k ==> cut[j] == lines[j];
  }

  /** `get_running_processes` reads the first `procs_running` line only, whatever follows it. */
  lemma RunningFirstLineDecides(lines: seq<string>, k: nat, later: seq<string>)
    requires k < |lines| && RunningKey <= lines[k]
    requires forall j :: 0 <= j < k ==> !(RunningKey <= lines[j])
    ensures RunningProcessesOf(Some(lines)) == RunningFromLine(lines[k])
    ensures RunningProcessesOf(Some(lines[..k + 1] + later)) == RunningFromLine(lines[k])
  {
    FirstWithPrefixIgnoresLater(lines, RunningKey, k, later);
  }

  /** `get_context_switches` reads the first `ctxt` line only, whatever follows it. */
  lemma ContextSwitchesFirstLineDecides(lines: seq<string>, k: nat, later: seq<string>)
    requires k < |lines| && ContextSwitchKey <= lines[k]
    requires forall j :: 0 <= j < k ==> !(ContextSwitchKey <= lines[j])
    ensures ContextSwitchesOf(Some(lines)) == ContextSwitchesFromLine(lines[k])
    ensures ContextSwitchesOf(Some(lines[..k + 1] + later)) == ContextSwitchesFromLine(lines[k])
  {
    FirstWithPrefixIgnoresLater(lines, ContextSwitchKey, k, later);
  }

  /** No `procs_running` line, or no file, gives -1. */
  lemma RunningNotFound(stat: File)
    requires stat.Some? ==> forall j :: 0 <= j < |stat.value| ==> !(RunningKey <= stat.value[j])
    ensures RunningProcessesOf(stat) == -1
  {
  }

  /** No `ctxt` line, or no file, gives -1. */
  lemma ContextSwitchesNotFound(stat: File)
    requires stat.Some? ==> forall j :: 0 <= j < |stat.value| ==> !(ContextSwitchKey <= stat.value[j])
    ensures ContextSwitchesOf(stat) == -1
  {
  }

  /** "procs_running N": the count is N when N fits an `int`. */
  lemma RunningLine(d: string, rest: string)
    requires IsDecimalField(d) && DecimalValue(d) < TwoTo31
    requires rest == [] || !IsDigit(rest[0])
    ensures RunningFromLine(RunningKey + " " + d + rest) == DecimalValue(d)
  {
    var F := RunningFormat;
    assert RunningKey + " " + d + rest == RunningKey + (" " + (d + rest));
    assert F[0..] == F;
    ScanfLiteral(RunningKey, " " + (d + rest), F, 0);
    ScanfBlank(" ", d + rest, F, 1);
    ScanfInteger(d, rest, F, 2);
    assert Scanf(rest, F[3..]) == [];
  }

  /** "procs_running" followed by no number: the count stays -1. */
  lemma RunningLineWithoutNumber(rest: string)
    requires ScanNumber(rest).None?
    ensures RunningFromLine(RunningKey + rest) == -1
  {
    var F := RunningFormat;
    assert F[0..] == F;
    ScanfLiteral(RunningKey, rest, F, 0);
    assert ScanNumber(SkipSpace(rest)).None? by {
      SkipSpaceIdempotent(rest);
    }
  }

  /** "ctxt N": the count is N when N fits a `long long`. */
  lemma ContextSwitchesLine(d: string, rest: string)
    requires IsDecimalField(d) && DecimalValue(d) < TwoTo63
    requires rest == [] || !IsDigit(rest[0])
    ensures ContextSwitchesFromLine(ContextSwitchKey + " " + d + rest) == DecimalValue(d)
  {
    var F := ContextSwitchFormat;
    assert ContextSwitchKey + " " + d + rest == ContextSwitchKey + (" " + (d + rest));
    assert F[0..] == F;
    ScanfLiteral(ContextSwitchKey, " " + (d + rest), F, 0);
    ScanfBlank(" ", d + rest, F, 1);
    ScanfInteger(d, rest, F, 2);
    assert Scanf(rest, F[3..]) == [];
  }

  /** "ctxt" followed by no number: the result is -1. */
  lemma ContextSwitchesLineWithoutNumber(rest: string)
    requires ScanNumber(rest).None?
    ensures ContextSwitchesFromLine(ContextSwitchKey + rest) == -1
  {
    var F := ContextSwitchFormat;
    assert F[0..] == F;
    ScanfLiteral(ContextSwitchKey, rest, F, 0);
    assert ScanNumber(SkipSpace(rest)).None? by {
      SkipSpaceIdempotent(rest);
    }
  }

  // ---------------------------------------------------------------------------
  // get_memory_usage: /proc/meminfo

  /** "MemTotal: %llu kB" */
  const MemTotalKey: string := "MemTotal:"
  const MemAvailableKey: string := "MemAvailable:"
  const KiloBytes: string := "kB"

  const MemTotalFormat: seq<Directive> := [Literal(MemTotalKey), Blank, Integer, Blank, Literal(KiloBytes)]

  /** "MemAvailable: %llu kB" */
  const MemAvailableFormat: seq<Directive> := [Literal(MemAvailableKey), Blank, Integer, Blank, Literal(KiloBytes)]

  /** The two `unsigned long long` counters the loop keeps, in kB; both start at 0. */
  datatype MemCounters = MemCounters(total: U64, available: U64)

  predicate IsTotalLine(line: string) {
    |Scanf(line, MemTotalFormat)| == 1
  }

  predicate IsAvailableLine(line: string) {
    |Scanf(line, MemAvailableFormat)| == 1
  }

  /** The line that ends the scan: a MemAvailable line that is not a MemTotal line. */
  predicate IsStopLine(line: string) {
    !IsTotalLine(line) && IsAvailableLine(line)
  }

  /** The count a MemTotal line carries. */
  function TotalOn(line: string): U64
    requires IsTotalLine(line)
  {
    UnsignedItem(Scanf(line, MemTotalFormat)[0])
  }

  /** The count a MemAvailable line carries. */
  function AvailableOn(line: string): U64
    requires IsAvailableLine(line)
  {
    UnsignedItem(Scanf(line, MemAvailableFormat)[0])
  }

  /**
   * The counters after scanning `lines`: every MemTotal line overwrites
   * the total and the scan goes on; the first MemAvailable line sets the
   * available count and ends the scan.
   */
  function MemScan(lines: seq<string>, c: MemCounters): (r: MemCounters)
    ensures r.total == c.total || exists j :: 0 <= j < |lines| && IsTotalLine(lines[j]) && r.total == TotalOn(lines[j])
    ensures r.available == c.available || exists j :: 0 <= j < |lines| && IsStopLine(lines[j]) && r.available == AvailableOn(lines[j])
  {
    if lines == [] then c
    else if IsTotalLine(lines[0]) then
      MemScan(lines[1..], c.(total := TotalOn(lines[0])))
    else if IsAvailableLine(lines[0]) then
      c.(available := AvailableOn(lines[0]))
    else MemScan(lines[1..], c)
  }

  /** `total - available` as `unsigned long long` arithmetic: modulo 2^64. */
  function UsedKb(c: MemCounters): (used: U64)
    ensures c.available <= c.total ==> used == c.total - c.available
    ensures c.available > c.total ==> used == TwoTo64 - (c.available - c.total)
  {
    (c.total - c.available) % TwoTo64
  }

  /** kB to MB. */
  function Megabytes(kb: int): real {
    (kb as real) / 1024.0
  }

  /**
   * The result of get_memory_usage from the counters: the error value when
   * either is 0, otherwise total, used and available in MB.
   */
  function MemoryFromCounters(c: MemCounters): (r: MemoryInfo)
    ensures r == MemoryError <==> c.total == 0 || c.available == 0
    ensures r != MemoryError ==> r.totalMem > 0.0 && r.usedMem >= 0.0 && r.freeMem > 0.0
    ensures r != MemoryError && c.available <= c.total ==> r.usedMem + r.freeMem == r.totalMem
    ensures r != MemoryError ==>
              r.totalMem == Megabytes(c.total) && r.usedMem == Megabytes(UsedKb(c)) && r.freeMem == Megabytes(c.available)
  {
    if c.total == 0 || c.available == 0 then MemoryError
    else MemoryInfo(Megabytes(c.total), Megabytes(UsedKb(c)), Megabytes(c.available))
  }

  function MemoryOf(meminfo: File): (r: MemoryInfo)
    ensures r == MemoryError || (r.totalMem > 0.0 && r.usedMem >= 0.0 && r.freeMem > 0.0)
    ensures meminfo.None? ==> r == MemoryError
  {
    match meminfo
    case None => MemoryError
    case Some(lines) => MemoryFromCounters(MemScan(lines, MemCounters(0, 0)))
  }

  /** get_memory_usage() */
  method GetMemoryUsage(meminfo: File) returns (info: MemoryInfo)
    ensures info == MemoryOf(meminfo)
  {
    if meminfo.None? {
      return MemoryError;
    }
    var lines := meminfo.value;
    var totalMem: U64 := 0;
    var freeMem: U64 := 0;
    var i := 0;
    while i < |lines|
      invariant i <= |lines|
      invariant MemScan(lines[i..], MemCounters(totalMem, freeMem)) == MemScan(lines, MemCounters(0, 0))
    {
      assert lines[i..][0] == lines[i] && lines[i..][1..] == lines[i + 1..];
      var items := Scanf(lines[i], MemTotalFormat);
      if |items| == 1 {
        totalMem := UnsignedItem(items[0]);
        i := i + 1;
        continue;
      }
      items := Scanf(lines[i], MemAvailableFormat);
      if |items| == 1 {
        freeMem := UnsignedItem(items[0]);
        assert MemScan(lines, MemCounters(0, 0)) == MemCounters(totalMem, freeMem);
        return MemoryFromCounters(MemCounters(totalMem, freeMem));
      }
      i := i + 1;
    }
    info := MemoryFromCounters(MemCounters(totalMem, freeMem));
  }

  /** Lines after the first stop line are never examined. */
  lemma {:induction false} MemScanStops(lines: seq<string>, c: MemCounters, k: nat)
    requires k < |lines| && IsStopLine(lines[k])
    ensures MemScan(lines, c) == MemScan(lines[..k + 1], c)
  {
    if k > 0 && !IsStopLine(lines[0]) {
      assert lines[..k + 1][1..] == lines[1..][..k];
      MemScanStops(lines[1..], if IsTotalLine(lines[0]) then c.(total := TotalOn(lines[0])) else c, k - 1);
    }
  }

  /** Up to the first stop line, only MemTotal lines change the total. */
  lemma {:induction false} MemScanKeepsTotal(lines: seq<string>, c: MemCounters)
    requires forall j :: 0 <= j < |lines| ==> !IsTotalLine(lines[j])
    ensures MemScan(lines, c).total == c.total
  {
    if lines != [] && !IsAvailableLine(lines[0]) {
      MemScanKeepsTotal(lines[1..], c);
    }
  }

  /** Without a stop line the available count is never written. */
  lemma {:induction false} MemScanKeepsAvailable(lines: seq<string>, c: MemCounters)
    requires forall j :: 0 <= j < |lines| ==> !IsStopLine(lines[j])
    ensures MemScan(lines, c).available == c.available
  {
    if lines != [] {
      var next := if IsTotalLine(lines[0]) then c.(total := TotalOn(lines[0])) else c;
      MemScanKeepsAvailable(lines[1..], next);
    }
  }

  /**
   * A MemAvailable line before any MemTotal line ends the scan with the
   * total still 0, so the result is the error value.
   */
  lemma MemAvailableBeforeTotal(lines: seq<string>, k: nat)
    requires k < |lines| && IsStopLine(lines[k])
    requires forall j :: 0 <= j < k ==> !IsTotalLine(lines[j])
    ensures MemoryOf(Some(lines)) == MemoryError
  {
    var c := MemCounters(0, 0);
    MemScanStops(lines, c, k);
    MemScanKeepsTotal(lines[..k + 1], c);
  }

  /** Without a MemAvailable line the result is the error value. */
  lemma MemNoAvailable(lines: seq<string>)
    requires forall j :: 0 <= j < |lines| ==> !IsAvailableLine(lines[j])
    ensures MemoryOf(Some(lines)) == MemoryError
  {
    MemScanKeepsAvailable(lines, MemCounters(0, 0));
  }

  /**
   * Up to a MemTotal line with no stop line before it, the scan ends with
   * that line's total, whatever earlier MemTotal lines said.
   */
  lemma {:induction false} MemScanThroughTotal(lines: seq<string>, c: MemCounters, i: nat)
    requires i < |lines| && IsTotalLine(lines[i])
    requires forall j :: 0 <= j < i ==> !IsStopLine(lines[j])
    ensures MemScan(lines, c) == MemScan(lines[i + 1..], c.(total := TotalOn(lines[i])))
  {
    if i > 0 {
      assert lines[1..][i - 1..] == lines[i..] && lines[1..][i..] == lines[i + 1..];
      assert !IsStopLine(lines[0]);
      var next := if IsTotalLine(lines[0]) then c.(total := TotalOn(lines[0])) else c;
      MemScanThroughTotal(lines[1..], next, i - 1);
    }
  }

  /** With no MemTotal or MemAvailable line before it, a stop line sets the available count and ends the scan. */
  lemma {:induction false} MemScanToStop(lines: seq<string>, c: MemCounters, k: nat)
    requires k < |lines| && IsStopLine(lines[k])
    requires forall j :: 0 <= j < k ==> !IsTotalLine(lines[j]) && !IsStopLine(lines[j])
    ensures MemScan(lines, c) == c.(available := AvailableOn(lines[k]))
  {
    if k > 0 {
      assert lines[1..][k - 1] == lines[k];
      MemScanToStop(lines[1..], c, k - 1);
    }
  }

  /**
   * A readable /proc/meminfo whose last MemTotal line before the first
   * MemAvailable line is line i, and whose first MemAvailable line is k,
   * gives the counters of those two lines: total and available in MB, and
   * used as their `unsigned long long` difference, when neither is 0.
   */
  lemma MemFound(lines: seq<string>, i: nat, k: nat)
    requires i < k < |lines| && IsTotalLine(lines[i]) && IsStopLine(lines[k])
    requires forall j :: 0 <= j < k ==> !IsStopLine(lines[j])
    requires forall j :: i < j < k ==> !IsTotalLine(lines[j])
    ensures MemoryOf(Some(lines)) == MemoryFromCounters(MemCounters(TotalOn(lines[i]), AvailableOn(lines[k])))
    ensures TotalOn(lines[i]) > 0 && AvailableOn(lines[k]) > 0 ==>
              MemoryOf(Some(lines)) ==
              MemoryInfo(Megabytes(TotalOn(lines[i])),
                         Megabytes((TotalOn(lines[i]) - AvailableOn(lines[k])) % TwoTo64),
                         Megabytes(AvailableOn(lines[k])))
  {
    var c := MemCounters(0, 0);
    var c1 := c.(total := TotalOn(lines[i]));
    MemScanThroughTotal(lines, c, i);
    var rest := lines[i + 1..];
    assert rest[k - i - 1] == lines[k];
    assert forall j :: 0 <= j < k - i - 1 ==> rest[j] == lines[i + 1 + j];
    MemScanToStop(rest, c1, k - i - 1);
  }

  /** "MemTotal: N kB" is a line that sets the total to N. */
  lemma MemTotalLine(d: string)
    requires IsDecimalField(d)
    ensures Scanf(MemTotalKey + " " + d + " " + KiloBytes, MemTotalFormat) == [Numeral(Number(false, DecimalValue(d)))]
    ensures IsTotalLine(MemTotalKey + " " + d + " " + KiloBytes)
  {
    MemLine(MemTotalKey, d, MemTotalFormat);
  }

  /** "MemAvailable: N kB" is a line that ends the scan with N available. */
  lemma MemAvailableLine(d: string)
    requires IsDecimalField(d)
    ensures Scanf(MemAvailableKey + " " + d + " " + KiloBytes, MemAvailableFormat) == [Numeral(Number(false, DecimalValue(d)))]
    ensures IsStopLine(MemAvailableKey + " " + d + " " + KiloBytes)
  {
    MemLine(MemAvailableKey, d, MemAvailableFormat);
    var line := MemAvailableKey + " " + d + " " + KiloBytes;
    assert line[3] == MemAvailableKey[3] == 'A' != MemTotalKey[3];
    assert Scanf(line, MemTotalFormat) == [];
  }

  lemma MemLine(key: string, d: string, format: seq<Directive>)
    requires IsDecimalField(d)
    requires format == [Literal(key), Blank, Integer, Blank, Literal(KiloBytes)]
    ensures Scanf(key + " " + d + " " + KiloBytes, format) == [Numeral(Number(false, DecimalValue(d)))]
  {
    var rest := " " + KiloBytes;
    assert key + " " + d + " " + KiloBytes == key + (" " + (d + rest));
    assert Scanf(key + (" " + (d + rest)), format) == Scanf(" " + (d + rest), format[1..]) by {
      ScanfLiteral(key, " " + (d + rest), format, 0);
      assert format[0..] == format;
    }
    assert Scanf(" " + (d + rest), format[1..]) == Scanf(d + rest, format[2..]) by {
      assert (d + rest)[0] == d[0] && IsDigit(d[0]);
      ScanfBlank(" ", d + rest, format, 1);
    }
    MemLineValue(d, KiloBytes, format);
  }

  /** The value and its unit: " %lu kB" after the key. */
  lemma MemLineValue(d: string, unit: string, format: seq<Directive>)
    requires IsDecimalField(d)
    requires unit != [] && !IsSpace(unit[0])
    requires |format| == 5 && format[2] == Integer && format[3] == Blank && format[4] == Literal(unit)
    ensures Scanf(d + (" " + unit), format[2..]) == [Numeral(Number(false, DecimalValue(d)))]
  {
    var rest := " " + unit;
    assert Scanf(d + rest, format[2..]) == [Numeral(Number(false, DecimalValue(d)))] + Scanf(rest, format[3..]) by {
      ScanfInteger(d, rest, format, 2);
    }
    assert Scanf(rest, format[3..]) == Scanf(unit, format[4..]) by {
      ScanfBlank(" ", unit, format, 3);
    }
    assert Scanf(unit, format[4..]) == [] by {
      assert unit == unit + [];
      ScanfLiteral(unit, [], format, 4);
      assert format[5..] == [];
    }
  }

  // ---------------------------------------------------------------------------
  // get_cpu_usage: the aggregate `cpu` line of /proc/stat, read twice

  const CpuKey: string := "cpu"

  /** "cpu %llu %llu %llu %llu %llu %llu %llu %llu" */
  const CpuFormat: seq<Directive> :=
    [Literal(CpuKey), Blank, Integer, Blank, Integer, Blank, Integer, Blank, Integer,
     Blank, Integer, Blank, Integer, Blank, Integer, Blank, Integer]

  /** user, nice, system, idle, iowait, irq, softirq, steal. */
  type CpuTimes = t: seq<U64> | |t| == 8 witness [0, 0, 0, 0, 0, 0, 0, 0]

  const IdleIndex: nat := 3
  const IowaitIndex: nat := 4

  /**
   * One reading: `None` when the file cannot be opened, has no first line,
   * or `sscanf` assigns fewer than 4 counters. Counters past the ones
   * assigned keep whatever the uninitialised variables held: `leftover`.
   */
  function CpuSample(stat: File, leftover: CpuTimes): (r: Option<CpuTimes>)
    ensures r.Some? ==> stat.Some? && |stat.value| > 0 && |Scanf(stat.value[0], CpuFormat)| >= 4
  {
    if stat.None? || stat.value == [] then None
    else
      var items := Scanf(stat.value[0], CpuFormat);
      if |items| < 4 then None
      else Some(seq(8, k requires 0 <= k < 8 => if k < |items| then UnsignedItem(items[k]) else leftover[k]))
  }

  /** The sum of the eight counters as `unsigned long long`: modulo 2^64. */
  function Total(t: CpuTimes): U64 {
    (t[0] as nat + t[1] + t[2] + t[3] + t[4] + t[5] + t[6] + t[7]) % TwoTo64
  }

  /** idle + iowait, modulo 2^64. */
  function Idle(t: CpuTimes): U64 {
    (t[IdleIndex] as nat + t[IowaitIndex]) % TwoTo64
  }

  /** `totald`: the difference of the sums, modulo 2^64. */
  function TotalDelta(t1: CpuTimes, t2: CpuTimes): (d: U64)
    ensures Total(t1) <= Total(t2) ==> d == Total(t2) - Total(t1)
    ensures Total(t1) > Total(t2) ==> d == TwoTo64 - (Total(t1) - Total(t2))
  {
    (Total(t2) - Total(t1)) % TwoTo64
  }

  /** `idled`: the difference of idle + iowait, modulo 2^64. */
  function IdleDelta(t1: CpuTimes, t2: CpuTimes): (d: U64)
    ensures Idle(t1) <= Idle(t2) ==> d == Idle(t2) - Idle(t1)
    ensures Idle(t1) > Idle(t2) ==> d == TwoTo64 - (Idle(t1) - Idle(t2))
  {
    (Idle(t2) - Idle(t1)) % TwoTo64
  }

  /**
   * The percentage from two readings: -1.0 when `totald` is 0, otherwise
   * the share of the elapsed time that was not idle.
   */
  function CpuUsageFrom(t1: CpuTimes, t2: CpuTimes): (usage: real)
    ensures TotalDelta(t1, t2) == 0 ==> usage == -1.0
    ensures usage <= 100.0
  {
    var totald := TotalDelta(t1, t2);
    if totald == 0 then -1.0
    else (1.0 - (IdleDelta(t1, t2) as real) / (totald as real)) * 100.0
  }

  /** get_cpu_usage(), with the two readings of /proc/stat as `first` and `second`. */
  function CpuUsageOf(first: File, second: File, leftover1: CpuTimes, leftover2: CpuTimes): (usage: real)
    ensures CpuSample(first, leftover1).None? || CpuSample(second, leftover2).None? ==> usage == -1.0
    ensures usage <= 100.0
  {
    match CpuSample(first, leftover1)
    case None => -1.0
    case Some(t1) =>
      match CpuSample(second, leftover2)
      case None => -1.0
      case Some(t2) => CpuUsageFrom(t1, t2)
  }

  /** The exact sum of the eight counters. */
  function Sum(t: CpuTimes): nat {
    t[0] as nat + t[1] + t[2] + t[3] + t[4] + t[5] + t[6] + t[7]
  }

  /** Counters that did not go backwards and whose sum stays below 2^64. */
  predicate Advances(t1: CpuTimes, t2: CpuTimes) {
    (forall k :: 0 <= k < 8 ==> t1[k] <= t2[k]) && Sum(t2) < TwoTo64
  }

  /** Without wrap-around the deltas are exact, and idle time is part of the elapsed time. */
  lemma {:induction false} AdvancingDeltas(t1: CpuTimes, t2: CpuTimes)
    requires Advances(t1, t2)
    ensures TotalDelta(t1, t2) == Sum(t2) - Sum(t1)
    ensures IdleDelta(t1, t2) <= TotalDelta(t1, t2)
  {
    assert t1[0] <= t2[0] && t1[1] <= t2[1] && t1[2] <= t2[2] && t1[3] <= t2[3];
    assert t1[4] <= t2[4] && t1[5] <= t2[5] && t1[6] <= t2[6] && t1[7] <= t2[7];
    assert Total(t1) == Sum(t1) && Total(t2) == Sum(t2);
    assert Idle(t1) == t1[3] + t1[4] && Idle(t2) == t2[3] + t2[4];
  }

  /**
   * When no counter went backwards and nothing wrapped, the usage is -1.0
   * exactly when no time elapsed, and otherwise lies in [0, 100].
   */
  lemma CpuUsageInRange(t1: CpuTimes, t2: CpuTimes)
    requires Advances(t1, t2)
    ensures CpuUsageFrom(t1, t2) == -1.0 <==> Sum(t1) == Sum(t2)
    ensures CpuUsageFrom(t1, t2) == -1.0 || 0.0 <= CpuUsageFrom(t1, t2) <= 100.0
  {
    AdvancingDeltas(t1, t2);
    var totald := TotalDelta(t1, t2);
    if totald != 0 {
      ShareOfWhole(IdleDelta(t1, t2), totald);
    }
  }

  lemma ShareOfWhole(part: nat, whole: nat)
    requires part <= whole && whole > 0
    ensures 0.0 <= (1.0 - (part as real) / (whole as real)) * 100.0 <= 100.0
  {
    var q := (part as real) / (whole as real);
    assert q * (whole as real) == part as real;
    assert 0.0 <= q <= 1.0;
  }

  const CpuConversions: seq<Conversion> :=
    [Decimal, Decimal, Decimal, Decimal, Decimal, Decimal, Decimal, Decimal]

  lemma CpuFormatSpread()
    ensures CpuFormat == [Literal(CpuKey)] + Spread(CpuConversions)
  {
    var cs := CpuConversions;
    assert Spread(cs[7..]) == [Blank, Integer];
    assert Spread(cs[6..]) == [Blank, Integer] + Spread(cs[7..]);
    assert Spread(cs[5..]) == [Blank, Integer] + Spread(cs[6..]);
    assert Spread(cs[4..]) == [Blank, Integer] + Spread(cs[5..]);
    assert Spread(cs[3..]) == [Blank, Integer] + Spread(cs[4..]);
    assert Spread(cs[2..]) == [Blank, Integer] + Spread(cs[3..]);
    assert Spread(cs[1..]) == [Blank, Integer] + Spread(cs[2..]);
    assert Spread(cs) == [Blank, Integer] + Spread(cs[1..]);
  }

  /** Fields of decimal digits against `%llu` conversions give their values, in order. */
  lemma {:induction false} AssignedDecimals(fields: seq<string>, cs: seq<Conversion>)
    requires |cs| <= |fields|
    requires forall i :: 0 <= i < |cs| ==> cs[i] == Decimal
    requires forall i :: 0 <= i < |cs| ==> fields[i] != [] && AllDigits(fields[i])
    ensures |AssignedAll(fields, cs)| == |cs|
    ensures forall i :: 0 <= i < |cs| ==>
              AssignedAll(fields, cs)[i] == Numeral(Number(false, DecimalValue(fields[i])))
    decreases |cs|
  {
    if cs != [] {
      DecimalIsField(fields[0]);
      assert FieldFits(fields[0], cs[0]);
      AssignedDecimals(fields[1..], cs[1..]);
      var tail := AssignedAll(fields[1..], cs[1..]);
      assert AssignedAll(fields, cs) == [Numeral(Number(false, DecimalValue(fields[0])))] + tail;
      forall i | 1 <= i < |cs|
        ensures AssignedAll(fields, cs)[i] == Numeral(Number(false, DecimalValue(fields[i])))
      {
        assert fields[1..][i - 1] == fields[i];
      }
    }
  }

  /** The line "cpu f0 ... f7" of decimal fields scans to their eight values. */
  lemma CpuLineItems(fields: seq<string>)
    requires |fields| == 8
    requires forall i :: 0 <= i < 8 ==> fields[i] != [] && AllDigits(fields[i])
    ensures var items := Scanf(CpuKey + Spaced(fields), CpuFormat);
            |items| == 8 && forall i :: 0 <= i < 8 ==> items[i] == Numeral(Number(false, DecimalValue(fields[i])))
  {
    var cs := CpuConversions;
    assert Scanf(Spaced(fields), Spread(cs)) == AssignedAll(fields, cs) by {
      forall i | 0 <= i < 8
        ensures FieldFits(fields[i], cs[i])
      {
        DecimalIsField(fields[i]);
      }
      ScanfSpaced(fields, cs);
    }
    assert Scanf(CpuKey + Spaced(fields), CpuFormat) == Scanf(Spaced(fields), Spread(cs)) by {
      CpuFormatSpread();
      ScanfLiteral(CpuKey, Spaced(fields), CpuFormat, 0);
      assert CpuFormat[0..] == CpuFormat && CpuFormat[1..] == Spread(cs);
    }
    assert |AssignedAll(fields, cs)| == 8
        && forall i :: 0 <= i < 8 ==> AssignedAll(fields, cs)[i] == Numeral(Number(false, DecimalValue(fields[i]))) by {
      AssignedDecimals(fields, cs);
    }
  }

  /** A first line "cpu f0 ... f7" with values below 2^64 gives exactly those counters. */
  lemma CpuLineSample(fields: seq<string>, more: seq<string>, leftover: CpuTimes)
    requires |fields| == 8
    requires forall i :: 0 <= i < 8 ==> fields[i] != [] && AllDigits(fields[i]) && DecimalValue(fields[i]) < TwoTo64
    ensures var r := CpuSample(Some([CpuKey + Spaced(fields)] + more), leftover);
            r.Some? && forall k :: 0 <= k < 8 ==> r.value[k] == DecimalValue(fields[k])
  {
    CpuLineItems(fields);
    var lines := [CpuKey + Spaced(fields)] + more;
    assert lines[0] == CpuKey + Spaced(fields);
  }
}
