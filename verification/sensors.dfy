/** The sensor catalogue of `HardwareMonitor`, its defensive file read, and the
    first-match-wins resolution both the temperature and the fan lookups use. */
module Sensors {
  import opened Common
  import Text

  /** Why a sensor file could not be read. All three are `OSError`s, which the
      read catches. */
  datatype ReadFailure = NotFound | PermissionDenied | IoFailure

  /** What reading one path would do: give its whole text, or fail. */
  datatype FileState = Contents(text: string) | Unreadable(reason: ReadFailure)

  /** The file system as the monitor sees it; a path absent from the map does not exist. */
  type FileSystem = map<string, FileState>

  const ThermalZoneTemp := "/sys/class/thermal/thermal_zone0/temp"
  const HwmonTemp := "/sys/class/hwmon/hwmon0/temp1_input"
  const Hwmon0Fan := "/sys/class/hwmon/hwmon0/fan1_input"
  const Hwmon1Fan := "/sys/class/hwmon/hwmon1/fan1_input"

  /** CPU temperature candidates per `platform.system()` value. `None` marks a
      platform that is known but has no readable sensor. */
  const TempPaths: map<string, Option<seq<string>>> := map[
    "Linux" := Some([ThermalZoneTemp, HwmonTemp]),
    "Windows" := None,
    "Darwin" := None
  ]

  /** Fan speed candidates per `platform.system()` value. */
  const FanPaths: map<string, seq<string>> := map["Linux" := [Hwmon0Fan, Hwmon1Fan]]

  /** `_read_sensor_file`: the stripped contents of the file, or `None` when it
      is missing, not permitted or fails to read. It never raises. */
  function ReadSensorFile(fs: FileSystem, path: string): (r: Option<string>)
    ensures r.Some? <==> path in fs && fs[path].Contents?
    ensures r.Some? ==> Text.Trimmed(r.value)
  {
    if path in fs && fs[path].Contents? then Some(Text.Strip(fs[path].text)) else None
  }

  /** A file holding one trimmed line and its newline reads as that line. */
  lemma ReadLine(fs: FileSystem, path: string, line: string)
    requires path in fs && fs[path] == Contents(line + "\n")
    requires line != [] && Text.Trimmed(line)
    ensures ReadSensorFile(fs, path) == Some(line)
  {
    Text.StripLine(line);
  }

  /** A file holding one line that converts is a usable candidate with that value. */
  lemma LineUsable<T>(fs: FileSystem, path: string, line: string, parse: string -> Option<T>)
    requires path in fs && fs[path] == Contents(line + "\n")
    requires line != [] && Text.Trimmed(line) && parse(line).Some?
    ensures Usable(fs, path, parse) && ValueAt(fs, path, parse) == parse(line).value
  {
    ReadLine(fs, path, line);
  }

  /** A file holding one line that does not convert is skipped. */
  lemma LineUnusable<T>(fs: FileSystem, path: string, line: string, parse: string -> Option<T>)
    requires path in fs && fs[path] == Contents(line + "\n")
    requires line != [] && Text.Trimmed(line) && parse(line).None?
    ensures !Usable(fs, path, parse)
  {
    ReadLine(fs, path, line);
  }

  /** A candidate path yields a value: the read is present, non-empty (Python-truthy)
      and converts. */
  predicate Usable<T>(fs: FileSystem, path: string, parse: string -> Option<T>) {
    var t := ReadSensorFile(fs, path);
    t.Some? && t.value != [] && parse(t.value).Some?
  }

  function ValueAt<T>(fs: FileSystem, path: string, parse: string -> Option<T>): T
    requires Usable(fs, path, parse)
  {
    parse(ReadSensorFile(fs, path).value).value
  }

  /** `k` is the first usable candidate of `paths`. */
  predicate FirstUsable<T>(fs: FileSystem, paths: seq<string>, parse: string -> Option<T>, k: int) {
    && 0 <= k < |paths|
    && Usable(fs, paths[k], parse)
    && forall j :: 0 <= j < k ==> !Usable(fs, paths[j], parse)
  }

  /** First-match-wins: try the candidates in order and take the value of the
      first usable one. */
  function FirstMatch<T>(fs: FileSystem, paths: seq<string>, parse: string -> Option<T>): Option<T>
    decreases |paths|
  {
    if paths == [] then None
    else if Usable(fs, paths[0], parse) then Some(ValueAt(fs, paths[0], parse))
    else FirstMatch(fs, paths[1..], parse)
  }

  /** No value exactly when no candidate is usable. */
  lemma {:induction false} FirstMatchNone<T>(fs: FileSystem, paths: seq<string>, parse: string -> Option<T>)
    ensures FirstMatch(fs, paths, parse).None? <==> forall i :: 0 <= i < |paths| ==> !Usable(fs, paths[i], parse)
    decreases |paths|
  {
    if paths != [] && !Usable(fs, paths[0], parse) {
      FirstMatchNone(fs, paths[1..], parse);
      assert forall i :: 1 <= i < |paths| ==> paths[i] == paths[1..][i - 1];
    }
  }

  /** A value is the value of the first usable candidate. */
  lemma {:induction false} FirstMatchSome<T>(fs: FileSystem, paths: seq<string>, parse: string -> Option<T>, k: int)
    requires FirstUsable(fs, paths, parse, k)
    ensures FirstMatch(fs, paths, parse) == Some(ValueAt(fs, paths[k], parse))
    decreases |paths|
  {
    if k > 0 {
      var tail := paths[1..];
      forall j | 0 <= j < k - 1
        ensures !Usable(fs, tail[j], parse)
      {
        assert tail[j] == paths[j + 1];
      }
      FirstMatchSome(fs, tail, parse, k - 1);
    }
  }

  /** Once a candidate is usable the candidates after it are never consulted:
      whatever follows it, the result is the same. */
  lemma {:induction false} LaterCandidatesIgnored<T>(fs: FileSystem, before: seq<string>, p: string,
                                                    after: seq<string>, parse: string -> Option<T>)
    requires Usable(fs, p, parse)
    ensures FirstMatch(fs, before + [p] + after, parse) == FirstMatch(fs, before + [p], parse)
    decreases |before|
  {
    var whole, upto := before + [p] + after, before + [p];
    if before == [] {
      assert whole[0] == p && upto[0] == p;
    } else {
      assert whole[0] == before[0] && upto[0] == before[0];
      assert whole[1..] == before[1..] + [p] + after;
      assert upto[1..] == before[1..] + [p];
      LaterCandidatesIgnored(fs, before[1..], p, after, parse);
    }
  }

  /** The result depends only on the files at the candidates up to and including
      the first usable one: a file system that reads the same there gives the same value. */
  lemma {:induction false} OnlyConsultedFilesMatter<T>(fs: FileSystem, gs: FileSystem, paths: seq<string>,
                                                      parse: string -> Option<T>, k: int)
    requires FirstUsable(fs, paths, parse, k)
    requires forall j :: 0 <= j <= k ==> ReadSensorFile(fs, paths[j]) == ReadSensorFile(gs, paths[j])
    ensures FirstMatch(gs, paths, parse) == FirstMatch(fs, paths, parse)
    decreases |paths|
  {
    var p := paths[0];
    assert ReadSensorFile(fs, p) == ReadSensorFile(gs, p);
    assert Usable(gs, p, parse) == Usable(fs, p, parse);
    if k == 0 {
      assert ValueAt(gs, p, parse) == ValueAt(fs, p, parse);
    } else {
      var tail := paths[1..];
      forall j | 0 <= j <= k - 1
        ensures ReadSensorFile(fs, tail[j]) == ReadSensorFile(gs, tail[j])
      {
        assert tail[j] == paths[j + 1];
      }
      forall j | 0 <= j < k - 1
        ensures !Usable(fs, tail[j], parse)
      {
        assert tail[j] == paths[j + 1];
      }
      assert FirstUsable(fs, tail, parse, k - 1);
      OnlyConsultedFilesMatter(fs, gs, tail, parse, k - 1);
    }
  }
}
