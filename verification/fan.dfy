/** `check_fan_speed`: the first fan sensor that reads as an integer, in RPM. */
module FanProbe {
  import opened Common
  import opened Sensors
  import Numbers

  /** The fan section: a speed, "Not supported on this platform" or "No fan sensor found". */
  datatype FanReport = Rpm(speed: int) | NotSupported | NoSensor

  /** `check_fan_speed`. It never raises: every outcome is one of the three cases. */
  function CheckFanSpeed(system: string, fs: FileSystem): (r: FanReport)
    ensures r.NotSupported? <==> system !in FanPaths
  {
    if system !in FanPaths then
      NotSupported
    else
      match FirstMatch(fs, FanPaths[system], Numbers.ParseInt)
      case Some(rpm) => Rpm(rpm)
      case None => NoSensor
  }

  /** Only Linux has fan candidates: on any other platform the answer is
      "Not supported on this platform", whatever the files hold. */
  lemma FanUnsupportedOffLinux(system: string, fs: FileSystem)
    requires system != "Linux"
    ensures CheckFanSpeed(system, fs) == NotSupported
  {
  }

  /** With candidate `k` the first present, non-empty, integer one, the speed is its value. */
  lemma FanFirstMatch(fs: FileSystem, k: int)
    requires FirstUsable(fs, FanPaths["Linux"], Numbers.ParseInt, k)
    ensures CheckFanSpeed("Linux", fs) == Rpm(ValueAt(fs, FanPaths["Linux"][k], Numbers.ParseInt))
  {
    FirstMatchSome(fs, FanPaths["Linux"], Numbers.ParseInt, k);
  }

  /** On a supported platform the answer is "No fan sensor found" exactly when
      every candidate is absent, empty or not an integer. */
  lemma FanNoSensor(system: string, fs: FileSystem)
    requires system in FanPaths
    ensures var paths := FanPaths[system];
            CheckFanSpeed(system, fs) == NoSensor <==>
              forall i :: 0 <= i < |paths| ==> !Usable(fs, paths[i], Numbers.ParseInt)
  {
    FirstMatchNone(fs, FanPaths[system], Numbers.ParseInt);
  }

  /** When the first fan file gives a speed the second is never consulted:
      any file system that agrees on the first file gives the same answer. */
  lemma SecondFanIgnoredWhenFirstReads(fs: FileSystem, gs: FileSystem)
    requires Usable(fs, Hwmon0Fan, Numbers.ParseInt)
    requires ReadSensorFile(gs, Hwmon0Fan) == ReadSensorFile(fs, Hwmon0Fan)
    ensures CheckFanSpeed("Linux", gs) == CheckFanSpeed("Linux", fs)
  {
    var paths := FanPaths["Linux"];
    assert paths[0] == Hwmon0Fan;
    assert FirstUsable(fs, paths, Numbers.ParseInt, 0);
    OnlyConsultedFilesMatter(fs, gs, paths, Numbers.ParseInt, 0);
  }
}
