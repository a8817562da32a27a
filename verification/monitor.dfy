/** `run_health_check`: the four probes composed into one report, with every
    section rendered as the dictionary the program returns. */
module Monitor {
  import opened Common
  import opened Sensors
  import opened CpuProbe
  import opened MemoryProbe
  import opened DiskProbe
  import opened FanProbe
  import Numbers

  /** Everything the monitor observes of the machine during one check. */
  datatype Host = Host(
    system: string,                        // platform.system()
    files: FileSystem,                     // the sensor files
    cpu: CpuSamples,
    virtualMemory: Sampled<VirtualMemory>, // psutil.virtual_memory()
    swapMemory: Sampled<SwapMemory>,       // psutil.swap_memory()
    partitions: Sampled<seq<Partition>>,   // psutil.disk_partitions()
    usage: UsageQuery,                     // psutil.disk_usage(...)
    run: Runner                            // subprocess.run(...)
  )

  /** A value in a report dictionary. */
  datatype Value = Float(x: real) | Int(n: int) | Str(s: string) | NoneValue

  /** A dictionary, keys in insertion order. */
  type Record = seq<(string, Value)>

  /** A top-level entry: a dictionary, or the disk section's list of dictionaries. */
  datatype Section = Dict(fields: Record) | List(items: seq<Record>)

  type Report = seq<(string, Section)>

  const NotAvailable := "Not Available"
  const FanNotSupportedText := "Not supported on this platform"
  const NoFanSensorText := "No fan sensor found"

  function Keys<V>(entries: seq<(string, V)>): (ks: seq<string>)
    ensures |ks| == |entries|
    ensures forall i :: 0 <= i < |entries| ==> ks[i] == entries[i].0
  {
    if entries == [] then [] else [entries[0].0] + Keys(entries[1..])
  }

  /** `d[key]`: the value under the first occurrence of `key`. */
  function Lookup<V>(entries: seq<(string, V)>, key: string): Option<V> {
    if entries == [] then None
    else if entries[0].0 == key then Some(entries[0].1)
    else Lookup(entries[1..], key)
  }

  /** `d[key]` raises `KeyError` (finds nothing) exactly when `key` is not among the keys. */
  lemma {:induction false} LookupMissing<V>(entries: seq<(string, V)>, key: string)
    ensures Lookup(entries, key).None? <==> key !in Keys(entries)
    decreases |entries|
  {
    if entries != [] {
      LookupMissing(entries[1..], key);
      assert Keys(entries) == [entries[0].0] + Keys(entries[1..]);
    }
  }

  /** Two keys that visibly differ: in length or in their first character. */
  predicate KeysDiffer(a: string, b: string) {
    |a| != |b| || (a != [] && b != [] && a[0] != b[0])
  }

  /** `d[key]` finds the entry at `j` when every earlier key differs from its key. */
  lemma {:induction false} LookupAt<V>(entries: seq<(string, V)>, j: nat)
    requires j < |entries|
    requires forall i :: 0 <= i < j ==> KeysDiffer(entries[i].0, entries[j].0)
    ensures Lookup(entries, entries[j].0) == Some(entries[j].1)
    decreases j
  {
    if j > 0 {
      assert entries[0].0 != entries[j].0 by {
        assert KeysDiffer(entries[0].0, entries[j].0);
      }
      assert entries[1..][j - 1] == entries[j];
      forall i | 0 <= i < j - 1
        ensures KeysDiffer(entries[1..][i].0, entries[1..][j - 1].0)
      {
        assert entries[1..][i] == entries[i + 1];
      }
      LookupAt(entries[1..], j - 1);
    }
  }

  /** An optional reading as the report shows it: the number, or "Not Available". */
  function OrNotAvailable(v: Option<real>): (r: Value)
    ensures r == Str(NotAvailable) <==> v.None?
    ensures v.Some? ==> r == Float(v.value)
  {
    match v
    case Some(x) => Float(x)
    case None => Str(NotAvailable)
  }

  /** The CPU dictionary: the four keys in order, each holding its sample, with a
      missing temperature or frequency shown as "Not Available" and a missing
      count as None; or the one-key error record. */
  function CpuRecord(c: CpuReport): (r: Record)
    ensures Keys(r) == if c.CpuFields? then ["CPU Usage (%)", "CPU Temperature (°C)", "CPU Count", "CPU Frequency (MHz)"]
                       else ["Error"]
    ensures c.CpuError? ==> Lookup(r, "Error") == Some(Str(c.message))
    ensures c.CpuFields? ==>
      && Lookup(r, "CPU Usage (%)") == Some(Float(c.usage))
      && Lookup(r, "CPU Temperature (°C)") == Some(OrNotAvailable(c.temperature))
      && Lookup(r, "CPU Count") == Some(if c.count.Some? then Int(c.count.value) else NoneValue)
      && Lookup(r, "CPU Frequency (MHz)") == Some(OrNotAvailable(c.frequency))
  {
    match c
    case CpuError(msg) => [("Error", Str(msg))]
    case CpuFields(usage, temperature, count, frequency) =>
      var r := [("CPU Usage (%)", Float(usage)),
                ("CPU Temperature (°C)", OrNotAvailable(temperature)),
                ("CPU Count", match count case Some(n) => Int(n) case None => NoneValue),
                ("CPU Frequency (MHz)", OrNotAvailable(frequency))];
      LookupAt(r, 1);
      LookupAt(r, 2);
      LookupAt(r, 3);
      r
  }

  /** A size in hundredths of a GiB as the float Python prints. */
  function GiBValue(hundredths: nat): (v: Value)
    ensures v.Float? && v.x * 100.0 == hundredths as real
  {
    Float(hundredths as real / 100.0)
  }

  /** The memory dictionary: the five keys in order, each holding its own
      percentage or rounded size; or the one-key error record. */
  function MemoryRecord(m: MemoryReport): (r: Record)
    ensures Keys(r) == if m.MemoryFields? then ["Memory Usage (%)", "Total Memory (GB)", "Available Memory (GB)",
                                                "Swap Usage (%)", "Swap Total (GB)"]
                       else ["Error"]
    ensures m.MemoryError? ==> Lookup(r, "Error") == Some(Str(m.message))
    ensures m.MemoryFields? ==>
      && Lookup(r, "Memory Usage (%)") == Some(Float(m.usage))
      && Lookup(r, "Total Memory (GB)") == Some(GiBValue(m.totalGiB))
      && Lookup(r, "Available Memory (GB)") == Some(GiBValue(m.availableGiB))
      && Lookup(r, "Swap Usage (%)") == Some(Float(m.swapUsage))
      && Lookup(r, "Swap Total (GB)") == Some(GiBValue(m.swapTotalGiB))
  {
    match m
    case MemoryError(msg) => [("Error", Str(msg))]
    case MemoryFields(usage, total, available, swapUsage, swapTotal) =>
      MemoryFieldsRecord(usage, GiBValue(total), GiBValue(available), swapUsage, GiBValue(swapTotal))
  }

  function MemoryFieldsRecord(usage: real, total: Value, available: Value, swapUsage: real, swapTotal: Value)
    : (r: Record)
    ensures Keys(r) == ["Memory Usage (%)", "Total Memory (GB)", "Available Memory (GB)",
                        "Swap Usage (%)", "Swap Total (GB)"]
    ensures Lookup(r, "Memory Usage (%)") == Some(Float(usage))
    ensures Lookup(r, "Total Memory (GB)") == Some(total)
    ensures Lookup(r, "Available Memory (GB)") == Some(available)
    ensures Lookup(r, "Swap Usage (%)") == Some(Float(swapUsage))
    ensures Lookup(r, "Swap Total (GB)") == Some(swapTotal)
  {
    var r := [("Memory Usage (%)", Float(usage)),
              ("Total Memory (GB)", total),
              ("Available Memory (GB)", available),
              ("Swap Usage (%)", Float(swapUsage)),
              ("Swap Total (GB)", swapTotal)];
    LookupAt(r, 1);
    LookupAt(r, 2);
    LookupAt(r, 3);
    LookupAt(r, 4);
    r
  }

  /** A disk dictionary: the five keys in order, holding the partition's device,
      mount point, file system, usage and the health marker ("Unknown", "PASS",
      "FAIL" or "SMART check unavailable"); or the one-key error record. */
  function DiskRecord(row: DiskRow): (r: Record)
    ensures Keys(r) == if row.Entry? then ["Disk", "Mount Point", "File System", "Usage (%)", "Health"]
                       else ["Error"]
    ensures row.ErrorRow? ==> Lookup(r, "Error") == Some(Str(row.message))
    ensures row.Entry? ==>
      && Lookup(r, "Disk") == Some(Str(row.entry.disk))
      && Lookup(r, "Mount Point") == Some(Str(row.entry.mountPoint))
      && Lookup(r, "File System") == Some(Str(row.entry.fileSystem))
      && Lookup(r, "Usage (%)") == Some(Float(row.entry.usage))
      && (row.entry.health == Unknown ==> Lookup(r, "Health") == Some(Str("Unknown")))
      && (row.entry.health == Pass ==> Lookup(r, "Health") == Some(Str("PASS")))
      && (row.entry.health == Fail ==> Lookup(r, "Health") == Some(Str("FAIL")))
      && (row.entry.health == Unavailable ==> Lookup(r, "Health") == Some(Str("SMART check unavailable")))
  {
    match row
    case ErrorRow(msg) => [("Error", Str(msg))]
    case Entry(e) => EntryRecord(e.disk, e.mountPoint, e.fileSystem, e.usage, HealthText(e.health))
  }

  function EntryRecord(disk: string, mountPoint: string, fileSystem: string, usage: real, health: string)
    : (r: Record)
    ensures Keys(r) == ["Disk", "Mount Point", "File System", "Usage (%)", "Health"]
    ensures Lookup(r, "Disk") == Some(Str(disk))
    ensures Lookup(r, "Mount Point") == Some(Str(mountPoint))
    ensures Lookup(r, "File System") == Some(Str(fileSystem))
    ensures Lookup(r, "Usage (%)") == Some(Float(usage))
    ensures Lookup(r, "Health") == Some(Str(health))
  {
    var r := [("Disk", Str(disk)),
              ("Mount Point", Str(mountPoint)),
              ("File System", Str(fileSystem)),
              ("Usage (%)", Float(usage)),
              ("Health", Str(health))];
    LookupAt(r, 1);
    LookupAt(r, 2);
    LookupAt(r, 3);
    LookupAt(r, 4);
    r
  }

  function DiskRecords(rows: seq<DiskRow>): (rs: seq<Record>)
    ensures |rs| == |rows|
    ensures forall i :: 0 <= i < |rows| ==> rs[i] == DiskRecord(rows[i])
  {
    if rows == [] then [] else [DiskRecord(rows[0])] + DiskRecords(rows[1..])
  }

  /** The fan dictionary: its one key holds the speed read, or the marker text
      of the unsupported or no-sensor case. */
  function FanRecord(f: FanReport): (r: Record)
    ensures Keys(r) == ["Fan Speed (RPM)"]
    ensures r[0].1.Int? <==> f.Rpm?
    ensures f.Rpm? ==> r[0].1 == Int(f.speed)
    ensures f.NotSupported? ==> r[0].1 == Str(FanNotSupportedText)
    ensures f.NoSensor? ==> r[0].1 == Str(NoFanSensorText)
  {
    match f
    case Rpm(speed) => [("Fan Speed (RPM)", Int(speed))]
    case NotSupported => [("Fan Speed (RPM)", Str(FanNotSupportedText))]
    case NoSensor => [("Fan Speed (RPM)", Str(NoFanSensorText))]
  }

  function CpuSection(h: Host): Section {
    Dict(CpuRecord(CheckCpuHealth(h.system, h.files, h.cpu)))
  }

  function MemorySection(h: Host): Section {
    Dict(MemoryRecord(CheckMemoryHealth(h.virtualMemory, h.swapMemory)))
  }

  function DiskSection(h: Host): Section {
    List(DiskRecords(CheckDiskHealth(h.system, h.partitions, h.usage, h.run)))
  }

  function FanSection(h: Host): Section {
    Dict(FanRecord(CheckFanSpeed(h.system, h.files)))
  }

  /** `run_health_check`: the four sections, in this order, whatever the host
      does; no probe's failure removes or replaces another probe's section. */
  function RunHealthCheck(h: Host): (r: Report)
    ensures Keys(r) == ["CPU Health", "Memory Health", "Disk Health", "Fan Health"]
    ensures Lookup(r, "CPU Health") == Some(CpuSection(h))
    ensures Lookup(r, "Memory Health") == Some(MemorySection(h))
    ensures Lookup(r, "Disk Health") == Some(DiskSection(h))
    ensures Lookup(r, "Fan Health") == Some(FanSection(h))
  {
    FourSections(CpuSection(h), MemorySection(h), DiskSection(h), FanSection(h));
    [("CPU Health", CpuSection(h)), ("Memory Health", MemorySection(h)),
     ("Disk Health", DiskSection(h)), ("Fan Health", FanSection(h))]
  }

  /** The report's four keys are distinct, so each finds its own section. */
  lemma FourSections(cpu: Section, memory: Section, disk: Section, fan: Section)
    ensures var r := [("CPU Health", cpu), ("Memory Health", memory), ("Disk Health", disk), ("Fan Health", fan)];
      && Keys(r) == ["CPU Health", "Memory Health", "Disk Health", "Fan Health"]
      && Lookup(r, "CPU Health") == Some(cpu) && Lookup(r, "Memory Health") == Some(memory)
      && Lookup(r, "Disk Health") == Some(disk) && Lookup(r, "Fan Health") == Some(fan)
  {
    var r := [("CPU Health", cpu), ("Memory Health", memory), ("Disk Health", disk), ("Fan Health", fan)];
    assert "CPU Health"[0] != "Disk Health"[0] && "Memory Health"[0] != "Disk Health"[0];
    assert "CPU Health"[0] != "Fan Health"[0] && "Memory Health"[0] != "Fan Health"[0];
    assert "Disk Health"[0] != "Fan Health"[0];
    assert Lookup(r, "Disk Health") == Lookup(r[1..], "Disk Health") == Lookup(r[2..], "Disk Health");
    assert Lookup(r, "Fan Health") == Lookup(r[1..], "Fan Health") == Lookup(r[2..], "Fan Health")
           == Lookup(r[3..], "Fan Health");
  }

  /** The fan section always holds exactly the one key, and its text markers
      appear exactly in the unsupported and no-sensor cases. */
  lemma FanSectionMarkers(h: Host)
    ensures var fan := FanRecord(CheckFanSpeed(h.system, h.files));
      && Keys(fan) == ["Fan Speed (RPM)"]
      && (Lookup(fan, "Fan Speed (RPM)") == Some(Str(FanNotSupportedText)) <==> h.system != "Linux")
      && (Lookup(fan, "Fan Speed (RPM)") == Some(Str(NoFanSensorText)) <==>
            h.system == "Linux" &&
            forall i :: 0 <= i < |FanPaths["Linux"]| ==> !Usable(h.files, FanPaths["Linux"][i], Numbers.ParseInt))
  {
    if h.system == "Linux" {
      FanNoSensor(h.system, h.files);
    }
  }

  /** Absence is explicit: unless the CPU section is an error record, the
      temperature and frequency fields hold a number or "Not Available", and the
      temperature is "Not Available" exactly when no candidate sensor yields a float. */
  lemma CpuSectionMarkers(h: Host)
    requires h.cpu.percent.Returned? && h.cpu.count.Returned? && h.cpu.frequency.Returned?
    ensures var cpu := CpuRecord(CheckCpuHealth(h.system, h.files, h.cpu));
            var paths := TempCandidates(h.system);
      && Lookup(cpu, "CPU Temperature (°C)").Some?
      && Lookup(cpu, "CPU Temperature (°C)").value != NoneValue
      && (Lookup(cpu, "CPU Temperature (°C)") == Some(Str(NotAvailable)) <==>
            forall i :: 0 <= i < |paths| ==> !Usable(h.files, paths[i], Numbers.ParseFloat))
      && Lookup(cpu, "CPU Frequency (MHz)").Some?
      && Lookup(cpu, "CPU Frequency (MHz)").value != NoneValue
  {
    TemperatureNotAvailable(h.system, h.files);
  }
}
