/** `check_disk_health`: one entry per local partition with its usage and, for
    devices that look like disks, the SMART verdict of `smartctl --health`. */
module DiskProbe {
  import opened Common
  import Text

  /** One element of `psutil.disk_partitions()`; `opts` is the comma-separated
      mount options string. */
  datatype Partition = Partition(device: string, mountpoint: string, fstype: string, opts: string)

  /** The `Health` field of an entry. */
  datatype Health = Unknown | Pass | Fail | Unavailable

  /** The literal text the report holds for each health value. */
  function HealthText(h: Health): string {
    match h
    case Unknown => "Unknown"
    case Pass => "PASS"
    case Fail => "FAIL"
    case Unavailable => "SMART check unavailable"
  }

  /** One element of the disk list: an entry, or the `{"Error": ...}` record. */
  datatype DiskEntry = DiskEntry(disk: string, mountPoint: string, fileSystem: string, usage: real, health: Health)
  datatype DiskRow = Entry(entry: DiskEntry) | ErrorRow(message: string)

  /** `subprocess.run(argv, timeout=seconds)`: the captured standard output of the
      finished command (whatever its exit status), or the exception it raised.
      A run that outlives its timeout raises `TimeoutExpired`; a missing tool
      raises `FileNotFoundError`. */
  type Runner = (seq<string>, nat) -> Sampled<string>

  /** `psutil.disk_usage(mountpoint).percent`, or the exception it raised. */
  type UsageQuery = string -> Sampled<real>

  const SmartTimeout: nat := 5

  function SmartCommand(device: string): seq<string> {
    ["smartctl", "--health", device]
  }

  /** File system types that are never listed. */
  const NetworkFsTypes: set<string> := {"nfs", "smbfs", "remote"}

  /** An optical drive or a network file system: the partition is skipped. */
  function Skipped(p: Partition): (b: bool)
    ensures b <==> Text.IsSubstring("cdrom", p.opts) || p.fstype in NetworkFsTypes
  {
    Text.Contains(p.opts, "cdrom") || p.fstype in NetworkFsTypes
  }

  /** Whether a SMART query is attempted, as Python parses
      `system in ("Linux", "Darwin") and "sd" in device or "nvme" in device`:
      `and` binds tighter than `or`, so the platform test guards only the "sd" half. */
  function SmartGate(system: string, device: string): (b: bool)
    ensures b <==> ((system == "Linux" || system == "Darwin") && Text.IsSubstring("sd", device))
                   || Text.IsSubstring("nvme", device)
  {
    (system in {"Linux", "Darwin"} && Text.Contains(device, "sd")) || Text.Contains(device, "nvme")
  }

  /** An NVMe device is queried on every platform, Windows included. */
  lemma NvmeQueriedOnAnyPlatform(system: string, device: string)
    requires Text.IsSubstring("nvme", device)
    ensures SmartGate(system, device)
  {
  }

  /** The reading where the platform test guards both device patterns. */
  predicate PlatformGuardedGate(system: string, device: string) {
    (system == "Linux" || system == "Darwin") && (Text.Contains(device, "sd") || Text.Contains(device, "nvme"))
  }

  /** The code as written and the platform-guarded reading disagree exactly on
      NVMe devices of platforms other than Linux and Darwin. */
  lemma GateDiffersOnlyForForeignNvme(system: string, device: string)
    ensures SmartGate(system, device) != PlatformGuardedGate(system, device) <==>
              system != "Linux" && system != "Darwin" && Text.IsSubstring("nvme", device)
  {
  }

  /** How `smartctl`'s outcome becomes a health value. A finished run passes
      exactly when its output mentions "PASSED" (the exit status is ignored);
      a `SubprocessError` (the timeout among them) or a missing tool gives
      "SMART check unavailable"; any other exception escapes. */
  function SmartHealth(run: Sampled<string>): (r: Sampled<Health>)
    ensures r == Returned(Pass) <==> run.Returned? && Text.IsSubstring("PASSED", run.value)
    ensures r == Returned(Fail) <==> run.Returned? && !Text.IsSubstring("PASSED", run.value)
    ensures r == Returned(Unavailable) <==>
              run.Raised? && (run.fault.kind.IsSubprocessError() || run.fault.kind == FileNotFoundError)
    ensures r.Raised? ==> run.Raised? && r.fault == run.fault
    ensures r != Returned(Unknown)
  {
    match run
    case Returned(stdout) => Returned(if Text.Contains(stdout, "PASSED") then Pass else Fail)
    case Raised(f) =>
      if f.kind.IsSubprocessError() || f.kind == FileNotFoundError then Returned(Unavailable) else Raised(f)
  }

  /** The entry for one partition that is not skipped, or the exception that
      aborts the scan: a failing usage query, or a `smartctl` run raising
      something other than a `SubprocessError` or `FileNotFoundError`. */
  function ProbePartition(system: string, usage: UsageQuery, run: Runner, p: Partition): (r: Sampled<DiskEntry>)
    ensures usage(p.mountpoint).Raised? ==> r == Raised(usage(p.mountpoint).fault)
    ensures r.Returned? ==> && r.value.disk == p.device && r.value.mountPoint == p.mountpoint
                            && r.value.fileSystem == p.fstype && r.value.usage == usage(p.mountpoint).value
    ensures !SmartGate(system, p.device) ==>
              r == if usage(p.mountpoint).Raised? then Raised(usage(p.mountpoint).fault)
                   else Returned(DiskEntry(p.device, p.mountpoint, p.fstype, usage(p.mountpoint).value, Unknown))
    ensures SmartGate(system, p.device) && usage(p.mountpoint).Returned? ==>
              match SmartHealth(run(SmartCommand(p.device), SmartTimeout))
              case Returned(h) => r.Returned? && r.value.health == h
              case Raised(f) => r == Raised(f)
  {
    match usage(p.mountpoint)
    case Raised(f) => Raised(f)
    case Returned(percent) =>
      if SmartGate(system, p.device) then
        match SmartHealth(run(SmartCommand(p.device), SmartTimeout))
        case Raised(f) => Raised(f)
        case Returned(h) => Returned(DiskEntry(p.device, p.mountpoint, p.fstype, percent, h))
      else
        Returned(DiskEntry(p.device, p.mountpoint, p.fstype, percent, Unknown))
  }

  /** A SMART query that runs past its five-second timeout leaves the entry
      listed as "SMART check unavailable". */
  lemma TimeoutGivesUnavailable(system: string, usage: UsageQuery, run: Runner, p: Partition, msg: string)
    requires SmartGate(system, p.device) && usage(p.mountpoint).Returned?
    requires run(SmartCommand(p.device), SmartTimeout) == Raised(Fault(TimeoutExpired, msg))
    ensures ProbePartition(system, usage, run, p).Returned?
    ensures ProbePartition(system, usage, run, p).value.health == Unavailable
  {
  }

  /** The partitions that are listed, in their original order. */
  function Kept(parts: seq<Partition>): (r: seq<Partition>)
    ensures |r| <= |parts|
    ensures forall i :: 0 <= i < |r| ==> !Skipped(r[i]) && r[i] in parts
  {
    if parts == [] then []
    else if Skipped(parts[0]) then Kept(parts[1..])
    else [parts[0]] + Kept(parts[1..])
  }

  /** Filtering distributes over concatenation, so relative order is kept. */
  lemma {:induction false} KeptAppend(a: seq<Partition>, b: seq<Partition>)
    ensures Kept(a + b) == Kept(a) + Kept(b)
    decreases |a|
  {
    if a == [] {
      assert a + b == b;
    } else {
      assert (a + b)[0] == a[0];
      assert (a + b)[1..] == a[1..] + b;
      KeptAppend(a[1..], b);
      if !Skipped(a[0]) {
        assert Kept(a + b) == [a[0]] + (Kept(a[1..]) + Kept(b));
        assert [a[0]] + (Kept(a[1..]) + Kept(b)) == ([a[0]] + Kept(a[1..])) + Kept(b);
      }
    }
  }

  /** A skipped partition never survives the filter, and every other partition
      survives exactly as many times as it occurs. */
  lemma {:induction false} KeptCounts(parts: seq<Partition>, p: Partition)
    ensures multiset(Kept(parts))[p] == if Skipped(p) then 0 else multiset(parts)[p]
    decreases |parts|
  {
    if parts != [] {
      KeptCounts(parts[1..], p);
      assert parts == [parts[0]] + parts[1..];
      assert multiset(parts) == multiset([parts[0]]) + multiset(parts[1..]);
    }
  }

  /** The scan over the partitions that are not skipped; the first exception
      ends it with one error row. */
  function ScanKept(system: string, usage: UsageQuery, run: Runner, kept: seq<Partition>): seq<DiskRow> {
    if kept == [] then []
    else match ProbePartition(system, usage, run, kept[0])
      case Raised(f) => [ErrorRow(f.message)]
      case Returned(e) => [Entry(e)] + ScanKept(system, usage, run, kept[1..])
  }

  /** The loop of `check_disk_health` over the partition list, skipping as it
      goes: never more rows than partitions, and every row but the last is an entry. */
  function ScanPartitions(system: string, usage: UsageQuery, run: Runner, parts: seq<Partition>): (r: seq<DiskRow>)
    ensures |r| <= |parts|
    ensures forall i :: 0 <= i < |r| - 1 ==> r[i].Entry?
    decreases |parts|
  {
    if parts == [] then []
    else if Skipped(parts[0]) then ScanPartitions(system, usage, run, parts[1..])
    else match ProbePartition(system, usage, run, parts[0])
      case Raised(f) => [ErrorRow(f.message)]
      case Returned(e) => [Entry(e)] + ScanPartitions(system, usage, run, parts[1..])
  }

  /** Skipping while scanning is the same as scanning the filtered list. */
  lemma {:induction false} ScanSkipsExactlyFiltered(system: string, usage: UsageQuery, run: Runner, parts: seq<Partition>)
    ensures ScanPartitions(system, usage, run, parts) == ScanKept(system, usage, run, Kept(parts))
    decreases |parts|
  {
    if parts != [] {
      ScanSkipsExactlyFiltered(system, usage, run, parts[1..]);
      if !Skipped(parts[0]) {
        assert Kept(parts)[1..] == Kept(parts[1..]);
      }
    }
  }

  /** The shape of the scan: row `i` belongs to the `i`-th listed partition; an
      error row can only be the last row and carries the message of that
      partition's exception; and a scan that ends without an error row has one
      entry for every listed partition. */
  lemma {:induction false} ScanKeptShape(system: string, usage: UsageQuery, run: Runner, kept: seq<Partition>)
    ensures var r := ScanKept(system, usage, run, kept);
      && |r| <= |kept|
      && (forall i :: 0 <= i < |r| && r[i].Entry? ==>
            ProbePartition(system, usage, run, kept[i]) == Returned(r[i].entry))
      && (forall i :: 0 <= i < |r| && r[i].ErrorRow? ==>
            i == |r| - 1 && ProbePartition(system, usage, run, kept[i]).Raised?
            && r[i].message == ProbePartition(system, usage, run, kept[i]).fault.message)
      && ((r == [] || r[|r| - 1].Entry?) ==> |r| == |kept|)
    decreases |kept|
  {
    if kept != [] {
      var tail := ScanKept(system, usage, run, kept[1..]);
      ScanKeptShape(system, usage, run, kept[1..]);
      var r := ScanKept(system, usage, run, kept);
      if ProbePartition(system, usage, run, kept[0]).Returned? {
        assert r == [Entry(ProbePartition(system, usage, run, kept[0]).value)] + tail;
        forall i | 1 <= i < |r|
          ensures r[i] == tail[i - 1] && kept[i] == kept[1..][i - 1]
        {
        }
      }
    }
  }

  /** `check_disk_health`. A failure to list the partitions gives a list holding
      only the error record. Otherwise row `i` belongs to the `i`-th partition
      that is not skipped: an entry is what probing that partition returned, and
      an exception while probing it replaces its entry with an error record
      carrying the message and ends the list, so the rows never outnumber the
      partitions that are not skipped. */
  function CheckDiskHealth(system: string, partitions: Sampled<seq<Partition>>, usage: UsageQuery, run: Runner)
    : (r: seq<DiskRow>)
    ensures partitions.Raised? ==> r == [ErrorRow(partitions.fault.message)]
    ensures partitions.Returned? ==> var kept := Kept(partitions.value);
      && |r| <= |kept|
      && (forall i :: 0 <= i < |r| && r[i].Entry? ==>
            ProbePartition(system, usage, run, kept[i]) == Returned(r[i].entry))
      && (forall i :: 0 <= i < |r| && r[i].ErrorRow? ==>
            i == |r| - 1 && ProbePartition(system, usage, run, kept[i]).Raised?
            && r[i].message == ProbePartition(system, usage, run, kept[i]).fault.message)
      && ((r == [] || r[|r| - 1].Entry?) ==> |r| == |kept|)
  {
    match partitions
    case Raised(f) => [ErrorRow(f.message)]
    case Returned(parts) =>
      ScanSkipsExactlyFiltered(system, usage, run, parts);
      ScanKeptShape(system, usage, run, Kept(parts));
      ScanPartitions(system, usage, run, parts)
  }

  /** Each entry copies the device, mount point and file system of a partition
      that is neither an optical drive nor a network mount. */
  lemma DiskListFollowsPartitions(system: string, parts: seq<Partition>, usage: UsageQuery, run: Runner)
    ensures var r := CheckDiskHealth(system, Returned(parts), usage, run);
            var kept := Kept(parts);
      forall i :: 0 <= i < |r| && r[i].Entry? ==>
        && !Skipped(kept[i])
        && r[i].entry.disk == kept[i].device
        && r[i].entry.mountPoint == kept[i].mountpoint
        && r[i].entry.fileSystem == kept[i].fstype
  {
  }

  /** No entry comes from an NFS, SMB or remote mount; optical drives are
      excluded by DiskListFollowsPartitions. */
  lemma SkippedNeverListed(system: string, parts: seq<Partition>, usage: UsageQuery, run: Runner)
    ensures var r := CheckDiskHealth(system, Returned(parts), usage, run);
      forall i :: 0 <= i < |r| && r[i].Entry? ==> r[i].entry.fileSystem !in NetworkFsTypes
  {
    DiskListFollowsPartitions(system, parts, usage, run);
  }
}
