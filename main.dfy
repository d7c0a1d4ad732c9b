/**
 * The disk branch of the main loop in src/main.c: the name of the first
 * block device is formatted as "/dev/<name>" and that path is handed to
 * update_disk_stats_gauge, which looks it up in the name column of
 * /proc/diskstats. That column holds kernel disk names ("nvme0n1",
 * "sda1", "cciss/c0d0"), which are relative: none starts with '/', so a
 * path that does never matches.
 */
module Monitor {
  import opened Optional
  import opened LibC
  import opened Metrics
  import opened ExposeMetrics

  /** `char disk_path[256]` holds at most 255 characters before its NUL. */
  const PathCapacity: nat := 255

  /** `snprintf(disk_path, sizeof(disk_path), "/dev/%s", disk)`, as written. */
  function DiskArgument(name: string): (path: string)
    ensures |path| <= PathCapacity && path <= "/dev/" + name
    ensures |name| + 5 <= PathCapacity ==> path == "/dev/" + name
  {
    Truncate("/dev/" + name, PathCapacity)
  }

  /** The name field of a /proc/diskstats line, when it has one, does not start with '/'. */
  predicate RelativeName(line: string) {
    var items := Scanf(line, DiskFormat);
    |items| >= 3 && items[2].Word? ==> !("/" <= items[2].text)
  }

  predicate RelativeNames(file: File) {
    file.Some? ==> forall k :: 0 <= k < |file.value| ==> RelativeName(file.value[k])
  }

  /** The path always starts with '/'. */
  lemma DiskArgumentSlash(name: string)
    ensures |DiskArgument(name)| > 0 && DiskArgument(name)[0] == '/'
  {
    var s := "/dev/" + name;
    assert s[0] == '/';
    assert |s| >= 5;
  }

  /**
   * As written, the disk branch finds no line: the reader returns its error
   * value, with both counters `(unsigned long)-1`, whatever disk is found.
   */
  lemma DevPathNeverMatches(file: File, name: string)
    requires RelativeNames(file)
    ensures DiskStatsOf(file, DiskArgument(name)) == DiskError(DiskArgument(name))
    ensures DiskStatsOf(file, DiskArgument(name)).readsCompleted == ULongMax
  {
    var path := DiskArgument(name);
    DiskArgumentSlash(name);
    assert "/" <= path;
    DiskNotFound(file, path);
  }

  /**
   * With the bare name, as the lookup evidently wants it, the first line
   * naming the device supplies the reads and writes completed.
   */
  lemma CorrectedArgumentFindsDevice(lines: seq<string>, name: string, k: nat)
    requires k < |lines| && DiskLineFor(lines[k], name)
    requires forall j :: 0 <= j < k ==> !DiskLineFor(lines[j], name)
    ensures var r := DiskStatsOf(Some(lines), name);
            var items := Scanf(lines[k], DiskFormat);
            r.readsCompleted == UnsignedItem(items[3]) && r.writesCompleted == UnsignedItem(items[4])
  {
    DiskFirstMatch(lines, name, k);
  }

  /** One pass of the disk branch as written: the disk gauges keep their values. */
  method CollectDisk(registry: Registry, diskstats: File, name: string)
    requires registry.Valid() && !registry.locked
    requires RelativeNames(diskstats)
    modifies registry
    ensures registry.Valid() && !registry.locked && registry.registered == old(registry.registered)
    ensures registry.values == old(registry.values)
  {
    var path := DiskArgument(name);
    registry.UpdateDiskStatsGauge(diskstats, path);
    DevPathNeverMatches(diskstats, name);
  }

  /** One pass of the disk branch with the bare name: the gauges take what the reader finds. */
  method CollectDiskCorrected(registry: Registry, diskstats: File, name: string)
    requires registry.Valid() && !registry.locked
    modifies registry
    ensures registry.Valid() && !registry.locked && registry.registered == old(registry.registered)
    ensures var stats := DiskStatsOf(diskstats, name);
            registry.values == if stats.readsCompleted != ULongMax && stats.writesCompleted != ULongMax
                               then old(registry.values)[DiskReads := stats.readsCompleted as real][DiskWrites := stats.writesCompleted as real]
                               else old(registry.values)
  {
    registry.UpdateDiskStatsGauge(diskstats, name);
  }
}
