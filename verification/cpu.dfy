/** `check_cpu_health`: CPU utilisation, temperature, core count and frequency. */
module CpuProbe {
  import opened Common
  import opened Sensors
  import Numbers
  import Text

  /** What psutil answers for the CPU; every call may raise. */
  datatype CpuSamples = CpuSamples(
    percent: Sampled<real>,            // psutil.cpu_percent(interval=1)
    count: Sampled<Option<nat>>,       // psutil.cpu_count(logical=True), None when undetermined
    frequency: Sampled<Option<real>>   // psutil.cpu_freq().current in MHz, None when not exposed
  )

  /** The CPU section of the report. `None` in `temperature` or `frequency` is
      rendered as "Not Available"; a `None` count is passed through as Python's None. */
  datatype CpuReport =
    | CpuFields(usage: real, temperature: Option<real>, count: Option<nat>, frequency: Option<real>)
    | CpuError(message: string)

  /** The temperature candidates for a platform: none when the platform is
      missing from the catalogue or mapped to `None`. */
  function TempCandidates(system: string): (paths: seq<string>)
    ensures system != "Linux" ==> paths == []
  {
    if system in TempPaths && TempPaths[system].Some? then TempPaths[system].value else []
  }

  /** The first usable candidate, read in millidegrees by `parse`, in degrees. */
  function Degrees(fs: FileSystem, paths: seq<string>, parse: string -> Option<real>): Option<real> {
    match FirstMatch(fs, paths, parse)
    case Some(milli) => Some(milli / 1000.0)
    case None => None
  }

  /** The CPU temperature in degrees Celsius: the first usable candidate as a
      float, divided by 1000 because the kernel reports millidegrees. A platform
      without candidates never enters the loop. */
  function CpuTemperature(system: string, fs: FileSystem): Option<real> {
    Degrees(fs, TempCandidates(system), Numbers.ParseFloat)
  }

  /** The temperature is "Not Available" exactly when no candidate is present,
      non-empty and a float. */
  lemma TemperatureNotAvailable(system: string, fs: FileSystem)
    ensures var paths := TempCandidates(system);
            CpuTemperature(system, fs).None? <==>
              forall i :: 0 <= i < |paths| ==> !Usable(fs, paths[i], Numbers.ParseFloat)
  {
    FirstMatchNone(fs, TempCandidates(system), Numbers.ParseFloat);
  }

  /** Only Linux has temperature candidates, so every other platform reports
      "Not Available" whatever the files hold. */
  lemma TemperatureOnlyOnLinux(system: string, fs: FileSystem)
    requires system != "Linux"
    ensures CpuTemperature(system, fs) == None
  {
  }

  /** With candidate `k` the first usable one, the temperature is its value in
      millidegrees divided by 1000. */
  lemma TemperatureFirstMatch(system: string, fs: FileSystem, k: int)
    requires 0 <= k < |TempCandidates(system)|
    ensures FirstUsable(fs, TempCandidates(system), Numbers.ParseFloat, k) ==>
              CpuTemperature(system, fs) ==
                Some(ValueAt(fs, TempCandidates(system)[k], Numbers.ParseFloat) / 1000.0)
  {
    DegreesOfFirstUsable(fs, TempCandidates(system), Numbers.ParseFloat, k);
  }

  /** For any parser, the first usable candidate gives the reading. */
  lemma DegreesOfFirstUsable(fs: FileSystem, paths: seq<string>, parse: string -> Option<real>, k: int)
    requires 0 <= k < |paths|
    ensures FirstUsable(fs, paths, parse, k) ==>
              Degrees(fs, paths, parse) == Some(ValueAt(fs, paths[k], parse) / 1000.0)
  {
    if FirstUsable(fs, paths, parse, k) {
      FirstMatchSome(fs, paths, parse, k);
    }
  }

  /** The worked case: whatever else the file system holds, when the thermal
      zone holds garbage and the hwmon file holds 36500, the reading is 36.5 degrees. */
  lemma TemperatureSkipsGarbage(fs: FileSystem)
    requires ThermalZoneTemp in fs && fs[ThermalZoneTemp] == Contents("n/a\n")
    requires HwmonTemp in fs && fs[HwmonTemp] == Contents("36500\n")
    ensures CpuTemperature("Linux", fs) == Some(36.5)
  {
    GarbageZoneSkipped(fs);
    HwmonReadingUsed(fs);
    LinuxTempCandidates();
    assert FirstUsable(fs, TempCandidates("Linux"), Numbers.ParseFloat, 1);
    TemperatureFirstMatch("Linux", fs, 1);
  }

  lemma GarbageZoneSkipped(fs: FileSystem)
    requires ThermalZoneTemp in fs && fs[ThermalZoneTemp] == Contents("n/a\n")
    ensures !Usable(fs, ThermalZoneTemp, Numbers.ParseFloat)
  {
    GarbageIsNotAFloat();
    assert "n/a" + "\n" == "n/a\n";
    LineUnusable(fs, ThermalZoneTemp, "n/a", Numbers.ParseFloat);
  }

  lemma HwmonReadingUsed(fs: FileSystem)
    requires HwmonTemp in fs && fs[HwmonTemp] == Contents("36500\n")
    ensures Usable(fs, HwmonTemp, Numbers.ParseFloat)
    ensures ValueAt(fs, HwmonTemp, Numbers.ParseFloat) == 36500.0
  {
    MilliDegreesParse();
    assert "36500" + "\n" == "36500\n";
    LineUsable(fs, HwmonTemp, "36500", Numbers.ParseFloat);
  }

  lemma LinuxTempCandidates()
    ensures TempCandidates("Linux") == [ThermalZoneTemp, HwmonTemp]
  {
  }

  lemma GarbageIsNotAFloat()
    ensures Numbers.ParseFloat("n/a") == None
  {
    Numbers.NoDigitNoInt("n/a");
  }

  lemma MilliDegreesParse()
    ensures Numbers.ParseFloat("36500") == Some(36500.0)
  {
    assert "36500"[..4] == "3650";
    assert "3650"[..3] == "365";
    assert "365"[..2] == "36";
    assert "36"[..1] == "3";
    assert "3"[..0] == "";
    assert Numbers.DigitsValue("36500") == 36500;
    Numbers.FloatAgreesWithInt("36500");
  }

  /** `check_cpu_health`. A failing psutil call turns the whole section into an
      error carrying that call's message; an unreadable temperature never does. */
  function CheckCpuHealth(system: string, fs: FileSystem, cpu: CpuSamples): (r: CpuReport)
    ensures r.CpuError? <==> cpu.percent.Raised? || cpu.count.Raised? || cpu.frequency.Raised?
    ensures cpu.percent.Raised? ==> r == CpuError(cpu.percent.fault.message)
    ensures cpu.percent.Returned? && cpu.count.Raised? ==> r == CpuError(cpu.count.fault.message)
    ensures cpu.percent.Returned? && cpu.count.Returned? && cpu.frequency.Raised? ==>
              r == CpuError(cpu.frequency.fault.message)
    ensures r.CpuFields? ==> r.usage == cpu.percent.value && r.temperature == CpuTemperature(system, fs)
                             && r.count == cpu.count.value && r.frequency == cpu.frequency.value
  {
    match cpu.percent
    case Raised(f) => CpuError(f.message)
    case Returned(usage) =>
      var temperature := CpuTemperature(system, fs);
      match cpu.count
      case Raised(f) => CpuError(f.message)
      case Returned(count) =>
        match cpu.frequency
        case Raised(f) => CpuError(f.message)
        case Returned(frequency) => CpuFields(usage, temperature, count, frequency)
  }
}
