# Hardware health monitor — a Dafny model of its decision layer

The monitor's `HardwareMonitor` class (`main.py`) samples a machine's CPU,
memory, disks and fans and returns one report with four sections. This project
models the logic that decides what goes into that report. Every outside effect
is an input value, so each probe is a pure function:

- **Sensor files.** The file system is a map from path to `Contents(text)` or
  `Unreadable(NotFound | PermissionDenied | IoFailure)`. A path that is missing
  from the map does not exist.
- **psutil answers.** CPU, memory, swap, partition and disk-usage queries are
  `Sampled` values: `Returned(value)` or `Raised(Fault(kind, message))`.
- **`smartctl` runs.** A `Runner` maps `(argv, timeout)` to the captured stdout
  of the finished process, or to the exception `subprocess.run` raised.
  `TimeoutExpired` is one of those exceptions.
- **Platform.** The value of `platform.system()` is a plain string.

Modules, leaf to root:

- `Common`: `Option`, `Fault` and `Sampled`.
- `Text`: Python's `str.strip()` over the full `str.isspace()` set, and the
  substring test `sub in s`. `Contains` computes the test and is proved equal
  to the occurrence-based definition `IsSubstring`.
- `Numbers`: `int()` and `float()` on already stripped text. Both are partial,
  and `None` stands for the `ValueError`.
- `Sensors`: the static catalogue `TempPaths`/`FanPaths` (`None` for Windows and
  Darwin temperatures; fans only on Linux) and `_read_sensor_file`. It also has
  `FirstMatch`, the first-match-wins loop that the temperature and fan lookups
  share.
- `CpuProbe`, `MemoryProbe`, `DiskProbe`, `FanProbe`: the four `check_*` methods.
- `Monitor`: `run_health_check`, which builds the report dictionary. Each
  section is rendered with the program's exact keys and marker strings.

Where the code and its documented intent disagree, the model follows the code:

- **SMART gate.** It is modelled as Python parses it. The expression is
  `(system in (Linux, Darwin) and "sd" in device) or "nvme" in device`, so an
  NVMe device is queried on every platform. The comment above the test suggests
  the platform check was meant to cover both patterns.
  `GateDiffersOnlyForForeignNvme` shows that the two readings disagree only on
  NVMe devices of other platforms.
- **Finished `smartctl` runs.** Any run that finishes gives `FAIL` unless its
  output contains `PASSED`. A non-zero exit status does not make the check
  "unavailable".
- **Uncaught exceptions from `subprocess.run`.** Only `SubprocessError` and
  `FileNotFoundError` give "SMART check unavailable". Any other exception,
  `PermissionError` for example, escapes to the outer handler. There the entry
  being built is dropped, one `{"Error": ...}` record is appended and the scan
  stops.
- **Partial disk lists.** When a usage query fails, the entries already built
  are kept and the error record is appended after them. The disk list is not
  reduced to a single error entry.
- **"Unknown" health.** A partition whose device does not pass the gate keeps
  the health `"Unknown"`. This outcome is separate from
  `"SMART check unavailable"`.
- **CPU count.** `psutil.cpu_count()` may return `None`, and that `None` is
  passed through into the report.

## Model

| member | source | states |
|---|---|---|
| Text.Strip | main.py:38 | the stripped text has no whitespace at either end and is never longer than the input |
| Text.StripCutsOnlySpace | main.py:38 | stripping only removes whitespace: the result sits inside the text with only whitespace around it |
| Text.StripIdempotent | main.py:38 | stripping an already stripped reading changes nothing |
| Text.StripEmptyIffAllSpace | main.py:51-52 | a read is Python-falsy (empty after stripping) exactly when the file holds only whitespace |
| Text.Contains | main.py:94 | `sub in s` holds exactly when `sub` occurs at some position of `s` |
| Numbers.ParseInt | main.py:138 | for digit strings within CPython's default 4300-digit limit, `int()` accepts exactly an optional sign followed by one or more decimal digits; an unsigned literal never converts to a negative number |
| Numbers.IntRoundTrip | main.py:138 | `int(str(n)) == n` for every integer `n` of at most 4300 digits (CPython's default int/str conversion limit) |
| Numbers.NoDigitNoInt | main.py:137-140 | under the modelled decimal grammar, text without a digit is rejected by both `int()` and `float()` (Python's own `float()` also takes "nan" and "inf") |
| Numbers.ParseFloat | main.py:54 | a converted float has text after its sign, and an unsigned literal never converts to a negative number |
| Numbers.ParseFloatAccepts | main.py:54 | `float()` accepts exactly an optional sign followed by digits with at most one point and at least one digit (`12`, `12.5`, `12.`, `.5`) |
| Numbers.FloatAgreesWithInt | main.py:54 | `float()` of an integer literal is that integer |
| Sensors.ReadSensorFile | main.py:35-41 | a read yields text exactly when the file exists and is readable; missing, forbidden and failing files give `None` rather than an exception; the text is stripped |
| Sensors.FirstMatchNone | main.py:134-142 | the lookup finds nothing exactly when every candidate is absent, empty or unparseable |
| Sensors.FirstMatchSome | main.py:50-57 | the lookup returns the parsed value of the first usable candidate |
| Sensors.LaterCandidatesIgnored | main.py:134-140 | candidates after the first usable one never affect the result |
| Sensors.OnlyConsultedFilesMatter | main.py:50-57 | two file systems that read alike up to the first usable candidate give the same result |
| CpuProbe.TempCandidates | main.py:20-27 | every platform other than Linux has no temperature candidates: it is absent or mapped to `None` |
| CpuProbe.LinuxTempCandidates | main.py:21-24 | Linux tries the thermal zone first, then the hwmon input |
| CpuProbe.TemperatureNotAvailable | main.py:49-61 | the temperature is "Not Available" exactly when no candidate is present, non-empty and a float |
| CpuProbe.TemperatureOnlyOnLinux | main.py:49 | any platform other than Linux reports "Not Available" whatever its files hold |
| CpuProbe.TemperatureFirstMatch | main.py:50-55 | the temperature is the first usable candidate's value divided by 1000 |
| CpuProbe.TemperatureSkipsGarbage | main.py:52-57 | garbage in the thermal zone and `36500` in hwmon give 36.5 degrees |
| CpuProbe.CheckCpuHealth | main.py:43-68 | the section is an error exactly when a psutil query raises, and then it carries the message of the first query that raised (percent, then count, then frequency); for the modelled file states (readable text or an `OSError`) the temperature never causes an error; otherwise it reports the sampled values and the looked-up temperature |
| MemoryProbe.RoundGiB | main.py:78-81 | a byte total becomes the hundredth of a GiB nearest to `bytes / 1024**3`, with exact ties going to even |
| MemoryProbe.RoundedGiBUnique | main.py:78 | only one hundredth is correctly rounded, so the reported size is fully determined |
| MemoryProbe.RoundGiBIsClose | main.py:78-81 | the reported size is within 0.005 GiB of the exact size |
| MemoryProbe.CheckMemoryHealth | main.py:70-85 | the section is an error exactly when a psutil query raises, with the first failing query's message; otherwise the percentages pass through and all three sizes are correctly rounded |
| DiskProbe.SmartGate | main.py:109 | a SMART query is attempted iff (platform is Linux or Darwin and "sd" occurs in the device) or "nvme" occurs in it |
| DiskProbe.NvmeQueriedOnAnyPlatform | main.py:109 | a device whose name contains "nvme" is queried on every platform |
| DiskProbe.GateDiffersOnlyForForeignNvme | main.py:108-109 | the gate as written and the platform-guarded reading differ exactly for NVMe devices off Linux and Darwin |
| DiskProbe.SmartHealth | main.py:110-119 | PASS iff the run finished with "PASSED" in stdout; FAIL iff it finished without it; unavailable iff it raised a SubprocessError or FileNotFoundError; any other exception propagates unchanged |
| DiskProbe.TimeoutGivesUnavailable | main.py:111-119 | a query that outlives its 5-second timeout leaves the entry listed as "SMART check unavailable" |
| DiskProbe.ProbePartition | main.py:97-121 | an entry copies device, mount point and file system and carries the usage percent; a failed usage query aborts with its exception; an ungated device keeps "Unknown"; a gated one takes the SMART verdict or aborts |
| DiskProbe.Skipped | main.py:94 | a partition is skipped exactly when "cdrom" occurs in its mount options or its file system is nfs, smbfs or remote |
| DiskProbe.Kept | main.py:92-95 | no kept partition is a cdrom or network mount, and each one comes from the input |
| DiskProbe.KeptAppend | main.py:92-95 | the filter distributes over concatenation, so it keeps relative order |
| DiskProbe.KeptCounts | main.py:94-95 | a skipped partition is dropped; every other partition is kept exactly as often as it occurs |
| DiskProbe.ScanPartitions | main.py:92-121 | the loop never produces more rows than there are partitions, and every row but the last is an entry |
| DiskProbe.ScanSkipsExactlyFiltered | main.py:92-121 | skipping inside the loop is the same as scanning the filtered list |
| DiskProbe.ScanKeptShape | main.py:89-127 | row i belongs to the i-th kept partition; an error row can only come last and carries that partition's message; a list with no error row has one entry per kept partition |
| DiskProbe.CheckDiskHealth | main.py:87-127 | a failed partition listing gives exactly one error record; otherwise row i belongs to the i-th kept partition: an entry is what probing it returned, and an exception while probing it takes the place of its entry as an error record with that message, which is then the last row; so there are never more rows than kept partitions, and exactly as many when no error row ends the list |
| DiskProbe.DiskListFollowsPartitions | main.py:97-106 | every entry copies the device, mount point and file system of a partition that is neither an optical drive nor a network mount |
| DiskProbe.SkippedNeverListed | main.py:94-95 | no entry has an nfs, smbfs or remote file system |
| FanProbe.CheckFanSpeed | main.py:129-142 | the answer is "Not supported on this platform" iff the platform has no fan catalogue entry |
| FanProbe.FanUnsupportedOffLinux | main.py:28-33 | every platform other than Linux is unsupported, whatever the files hold |
| FanProbe.FanFirstMatch | main.py:134-140 | the speed is `int()` of the first present, non-empty, integer candidate |
| FanProbe.FanNoSensor | main.py:142 | on Linux the answer is "No fan sensor found" exactly when every candidate is absent, empty or not an integer |
| FanProbe.SecondFanIgnoredWhenFirstReads | main.py:134-140 | when the first fan file gives a speed, the second file is never consulted |
| Monitor.RunHealthCheck | main.py:144-153 | for the modelled file states (readable text or an `OSError`), the report always has the keys CPU, Memory, Disk and Fan Health, in that order, and each key holds its own probe's section |
| Monitor.FourSections | main.py:148-153 | the four section keys are distinct, so each lookup finds its own section |
| Monitor.FanSectionMarkers | main.py:129-142 | the fan record has exactly one key; its marker texts appear exactly in the unsupported and no-sensor cases |
| Monitor.CpuRecord | main.py:59-68 | the CPU dictionary has its four keys in order. Usage holds the sampled percent. Temperature and frequency hold their number or "Not Available". The count holds the core count or None. A failed probe gives the one-key error record holding the message |
| Monitor.MemoryRecord | main.py:76-85 | the memory dictionary has its five keys in order. Each percentage holds its own sample. Total, available and swap total each hold their own rounded size in GiB. A failed probe gives the one-key error record holding the message |
| Monitor.DiskRecord | main.py:100-125 | a disk entry has its five keys in order, holding the device, mount point, file system and usage percent. Health holds "Unknown", "PASS", "FAIL" or "SMART check unavailable" according to the verdict. An error row gives the one-key record holding the message |
| Monitor.FanRecord | main.py:129-142 | the fan dictionary has its one key. It holds the speed read as an integer, or "Not supported on this platform", or "No fan sensor found" |
| Monitor.CpuSectionMarkers | main.py:59-65 | temperature and frequency are never a bare None; the temperature shows "Not Available" exactly when no candidate yields a float |

## Left out

- psutil, `platform.system()`, file reads and `subprocess.run` are inputs, as described above. The one-second blocking CPU sample and the five-second timeout are not modelled as time. The timeout is passed to the runner, and its expiry is the `TimeoutExpired` exception.
- `psutil.cpu_freq()` is called twice at main.py:63-64. The model assumes both calls give the same answer.
- Decode errors: `read_text()` can raise `UnicodeDecodeError`, which `_read_sensor_file` does not catch. The file states are limited to readable text and the three `OSError` cases. So the model does not show what follows from an undecodable sensor file:
  - An undecodable temperature file is read inside the `try` of `check_cpu_health` (main.py:45-68), so the CPU section becomes `{"Error": ...}`.
  - An undecodable fan file is read with no handler (main.py:135). The exception leaves `run_health_check` (main.py:152), no report is returned, and the loop at main.py:174-181 stops the monitor.
  - CpuProbe.CheckCpuHealth and Monitor.RunHealthCheck state what happens for the modelled file states only.
- `int()` and `float()` accept ASCII decimal notation only. Underscores, exponents, `inf`/`nan` and non-ASCII digits are rejected, although Python accepts them. Surrounding whitespace is never seen here, because the text is already stripped.
- Numbers.ParseInt: does not model CPython's int/str digit limit. CPython 3.11 and later, and the security releases 3.10.7, 3.9.14 and 3.8.14, refuse to convert between int and str beyond 4300 digits by default, raising `ValueError`. The model accepts digit strings of any length. So a fan file holding more than 4300 digits, which the program skips through `except ValueError: continue` (main.py:139-140), gives a speed in the model. `float()` has no such limit.
- Numbers.IntRoundTrip: holds in CPython only for integers of at most 4300 digits. Beyond that, `str(n)` itself raises.
- Floating point: temperatures and percentages are exact reals, and `/ 1000` is exact division. The GiB rounding is exact for byte totals below 2**53. Beyond that, Python's `bytes / 1024**3` would round first, and the model does not capture this.
- Logging calls and the console printing in `run_health_check` (main.py:155-164) are output formatting only.
- The `main` loop with its 60-second sleep and `KeyboardInterrupt` handling (main.py:169-181) is process lifecycle.
- Idempotence of two checks on an unchanged machine is not stated separately. It holds by construction, because every probe is a function of its inputs.
- Numbers.ParseFloat: the value of a literal with a fractional part is given only by the definition. The contracts fix which texts convert (Numbers.ParseFloatAccepts), the sign, and agreement with `int()` on integer literals.
- Sensors.ReadSensorFile: its contract states only presence and that the text is trimmed. That the text is exactly `strip()` of the contents is the definition itself, and Text.StripCutsOnlySpace states what `strip()` keeps.
