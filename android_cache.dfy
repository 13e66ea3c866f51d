/**
 * The static per-device data of the Android platform layer: `DeviceCache`,
 * the process-wide `_PerDeviceCache` keyed by USB port path, the parser of
 * `/system/build.prop`, and `_init_cache`, which reads everything through a
 * `LowDevice` and keeps the result only when every field was obtained.
 *
 * `_init_cache` is specified by `InitCacheOf`, a reading of the LowDevice
 * calls it makes (recorded in the device's trace): the calls must be exactly
 * the ones the code makes given the earlier results, and the outcome is what
 * the code returns for those results.
 */
module AndroidCache {
  import opened Wrappers
  import opened Strings
  import opened Exceptions
  import opened Ordering
  import opened AdbLow
  import opened Dialog

  /** `KNOWN_CPU_SCALING_GOVERNOR_VALUES`. */
  const KnownGovernors: seq<string> :=
    ["conservative", "interactive", "ondemand", "performance", "powersave", "userspace"]

  const StorageCommand: string := "echo -n $EXTERNAL_STORAGE"
  const BuildPropPath: string := "/system/build.prop"
  const SuPath: string := "/system/xbin/su"
  const CpuFreqDir: string := "/sys/devices/system/cpu/cpu0/cpufreq/"
  const GovernorsPath: string := CpuFreqDir + "scaling_available_governors"
  const MaxFreqPath: string := CpuFreqDir + "cpuinfo_max_freq"
  const MinFreqPath: string := CpuFreqDir + "cpuinfo_min_freq"

  /**
   * A `cpuinfo_*_freq` field: None when the file could not be read, the
   * empty string when it was empty (kept as is, since `int()` is skipped),
   * otherwise the parsed number.
   */
  datatype Freq = Unread | Blank | Hz(value: int)

  /** The `DeviceCache` namedtuple; `has_su` and the governors are never None. */
  datatype DeviceCache = DeviceCache(
    buildProps: Option<map<string, string>>,
    externalStoragePath: Option<string>,
    hasSu: bool,
    availableGovernors: seq<string>,
    cpuinfoMaxFreq: Freq,
    cpuinfoMinFreq: Freq)
  {
    /** `all(i is not None for i in cache._asdict().itervalues())`. */
    predicate Complete() {
      buildProps.Some? && externalStoragePath.Some? && !cpuinfoMaxFreq.Unread? && !cpuinfoMinFreq.Unread?
    }
  }

  // -------------------------------------------------------- per-device cache

  /** What `trim` needs of a listed device: its port path and `is_valid`. */
  datatype Listed = Listed(portPath: string, isValid: bool)

  /**
   * `{d.port_path: d for d in devices}` reduced to `is_valid`: the last
   * listed device with a given port path wins.
   */
  function ValidityByPort(devices: seq<Listed>): (m: map<string, bool>)
    ensures forall p :: p in m <==> exists i :: 0 <= i < |devices| && devices[i].portPath == p
  {
    if |devices| == 0 then map[]
    else
      var d := devices[|devices| - 1];
      var rest := ValidityByPort(devices[..|devices| - 1]);
      assert forall i :: 0 <= i < |devices| - 1 ==> devices[..|devices| - 1][i] == devices[i];
      rest[d.portPath := d.isValid]
  }

  /** A cached port path survives `trim` when the device listed last under it is valid. */
  predicate Kept(devices: seq<Listed>, p: string) {
    var m := ValidityByPort(devices);
    p in m && m[p]
  }

  /** `Kept` read directly: the last device listed under `p` is valid. */
  lemma {:induction false} KeptIsLastValid(devices: seq<Listed>, p: string, i: nat)
    requires i < |devices| && devices[i].portPath == p
    requires forall j :: i < j < |devices| ==> devices[j].portPath != p
    ensures Kept(devices, p) == devices[i].isValid
    decreases |devices|
  {
    if i < |devices| - 1 {
      var init := devices[..|devices| - 1];
      assert init[i] == devices[i];
      forall j | i < j < |init| ensures init[j].portPath != p {
        assert init[j] == devices[j];
      }
      KeptIsLastValid(init, p, i);
    }
  }

  /** A port path that no listed device has is dropped. */
  lemma UnlistedNotKept(devices: seq<Listed>, p: string)
    requires forall i :: 0 <= i < |devices| ==> devices[i].portPath != p
    ensures !Kept(devices, p)
  {
  }

  /** The cache after `trim(devices)`. */
  function Trimmed(cache: map<string, DeviceCache>, devices: seq<Listed>): (r: map<string, DeviceCache>)
    ensures forall p :: p in r <==> p in cache && Kept(devices, p)
    ensures forall p :: p in r ==> r[p] == cache[p]
  {
    map p | p in cache && Kept(devices, p) :: cache[p]
  }

  /** `_PerDeviceCache`: the lock is left out, accesses are sequential. */
  class PerDeviceCache {
    var perDevice: map<string, DeviceCache>

    constructor ()
      ensures perDevice == map[]
    {
      perDevice := map[];
    }

    /** `get`: the entry stored for the device's port path, if any. */
    method Get(portPath: string) returns (r: Option<DeviceCache>)
      ensures portPath in perDevice <==> r.Some?
      ensures r.Some? ==> r.value == perDevice[portPath]
    {
      if portPath in perDevice {
        r := Some(perDevice[portPath]);
      } else {
        r := None;
      }
    }

    /** `set`: stores `cache` for the port path, replacing any earlier entry. */
    method Set(portPath: string, cache: DeviceCache)
      modifies this
      ensures perDevice == old(perDevice)[portPath := cache]
    {
      perDevice := perDevice[portPath := cache];
    }

    /** `trim`: drops every entry whose device is gone or no longer valid. */
    method Trim(devices: seq<Listed>)
      modifies this
      ensures perDevice == Trimmed(old(perDevice), devices)
    {
      var deviceKeys: map<string, bool> := map[];
      for i := 0 to |devices|
        invariant deviceKeys == ValidityByPort(devices[..i])
      {
        assert devices[..i + 1][..i] == devices[..i];
        deviceKeys := deviceKeys[devices[i].portPath := devices[i].isValid];
      }
      assert devices[..|devices|] == devices;
      var pending := perDevice.Keys;
      while pending != {}
        invariant pending <= old(perDevice).Keys
        invariant forall p :: p in perDevice <==> p in old(perDevice) && (p in pending || Kept(devices, p))
        invariant forall p :: p in perDevice ==> perDevice[p] == old(perDevice)[p]
        decreases |pending|
      {
        var portPath :| portPath in pending;
        if portPath !in deviceKeys || !deviceKeys[portPath] {
          perDevice := map p | p in perDevice && p != portPath :: perDevice[p];
        }
        pending := pending - {portPath};
      }
    }
  }

  /** What `get` returns after `set`: the last stored value; other entries untouched. */
  lemma GetAfterSet(cache: map<string, DeviceCache>, p: string, v: DeviceCache, q: string)
    ensures p in cache[p := v] && cache[p := v][p] == v
    ensures q != p ==> (q in cache[p := v] <==> q in cache) && (q in cache ==> cache[p := v][q] == cache[q])
  {
  }

  /** After `trim`, each remaining key is the port path of a listed device that is valid. */
  lemma TrimmedKeysListed(cache: map<string, DeviceCache>, devices: seq<Listed>, p: string)
    requires p in Trimmed(cache, devices)
    ensures exists i :: 0 <= i < |devices| && devices[i].portPath == p && devices[i].isValid
  {
    var m := ValidityByPort(devices);
    var i :| 0 <= i < |devices| && devices[i].portPath == p;
    var last := LastListed(devices, p, i);
    KeptIsLastValid(devices, p, last);
  }

  /** The last position in `devices` whose port path is `p`, at or after `i`. */
  function LastListed(devices: seq<Listed>, p: string, i: nat): (k: nat)
    requires i < |devices| && devices[i].portPath == p
    ensures i <= k < |devices| && devices[k].portPath == p
    ensures forall j :: k < j < |devices| ==> devices[j].portPath != p
    decreases |devices| - i
  {
    if exists j :: i < j < |devices| && devices[j].portPath == p then
      var j :| i < j < |devices| && devices[j].portPath == p;
      LastListed(devices, p, j)
    else i
  }

  // -------------------------------------------------------------- build.prop

  /** Lines of build.prop that carry no property: empty lines and comments. */
  predicate Skipped(line: string) {
    |line| == 0 || StartsWith(line, "#")
  }

  /**
   * A line the loop raises on. `pull_content` returns bytes, and
   * `line.startswith(u'#')` first decodes the line as ASCII, so a line with a
   * byte outside ASCII raises, comments included; then a line that is not
   * skipped and holds no `=` makes `key, value = ...` raise.
   */
  predicate BadLine(line: string) {
    !IsAscii(line) || (!Skipped(line) && '=' !in line)
  }

  function LineError(line: string): Raise
    requires BadLine(line)
  {
    if !IsAscii(line) then UnicodeDecodeError(FirstNonAscii(line)) else ValueError(UnpackError)
  }

  /**
   * The properties as the loop over `out.splitlines()` leaves them: each
   * property line is split at its first `=`, a later key overwrites an
   * earlier one, and the first bad line raises its error.
   */
  function BuildPropsOf(lines: seq<string>): (r: Result<map<string, string>, Raise>)
    ensures r.Err? ==> r.error == ValueError(UnpackError) || r.error.UnicodeDecodeError?
  {
    if |lines| == 0 then Ok(map[])
    else
      match BuildPropsOf(lines[..|lines| - 1])
      case Err(e) => Err(e)
      case Ok(m) =>
        var line := lines[|lines| - 1];
        if BadLine(line) then Err(LineError(line))
        else if Skipped(line) then Ok(m)
        else
          var (key, value) := SplitAtFirst(line, '=').value;
          Ok(m[key := value])
  }

  /** The bytes `ro.x=\xc3\xa9`, `é` in UTF-8, raise at the first of the two. */
  lemma NonAsciiLineRaises()
    ensures BuildPropsOf(["ro.x=\U{c3}\U{a9}"]) == Err(UnicodeDecodeError(5))
  {
    var line := "ro.x=\U{c3}\U{a9}";
    assert line[5] as int >= 0x80;
    assert FirstNonAscii(line) == 5 by {
      assert forall k :: 0 <= k < 5 ==> line[k] as int < 0x80;
    }
    BuildPropsFirstBad([line], 0);
  }

  /** Python 2's message for `key, value = [line]`. */
  const UnpackError: string := "need more than 1 value to unpack"

  /** A property line: not skipped and holding an `=`. */
  predicate PropLine(line: string) {
    !Skipped(line) && '=' in line
  }

  function KeyOf(line: string): string
    requires PropLine(line)
  {
    SplitAtFirst(line, '=').value.0
  }

  function ValueOf(line: string): string
    requires PropLine(line)
  {
    SplitAtFirst(line, '=').value.1
  }

  /** The parse fails exactly when some line is bad. */
  lemma {:induction false} BuildPropsFails(lines: seq<string>)
    ensures BuildPropsOf(lines).Err? <==> exists i :: 0 <= i < |lines| && BadLine(lines[i])
  {
    if |lines| > 0 {
      var init := lines[..|lines| - 1];
      BuildPropsFails(init);
      assert forall i :: 0 <= i < |init| ==> init[i] == lines[i];
      if exists i :: 0 <= i < |lines| && BadLine(lines[i]) {
        var i :| 0 <= i < |lines| && BadLine(lines[i]);
        if i < |init| {
          assert BadLine(init[i]);
        }
      }
    }
  }

  /** The first bad line decides the error, as the loop raises there. */
  lemma {:induction false} BuildPropsFirstBad(lines: seq<string>, i: nat)
    requires i < |lines| && BadLine(lines[i])
    requires forall j :: 0 <= j < i ==> !BadLine(lines[j])
    ensures BuildPropsOf(lines) == Err(LineError(lines[i]))
  {
    var init := lines[..|lines| - 1];
    assert forall j :: 0 <= j < |init| ==> init[j] == lines[j];
    if i == |lines| - 1 {
      BuildPropsFails(init);
    } else {
      BuildPropsFirstBad(init, i);
    }
  }

  /**
   * The value the last property line naming `key` gives it, None when no
   * property line names it.
   */
  function LastValue(lines: seq<string>, key: string): (v: Option<string>)
    ensures v.None? <==> forall i :: 0 <= i < |lines| && PropLine(lines[i]) ==> KeyOf(lines[i]) != key
  {
    if |lines| == 0 then None
    else
      var line := lines[|lines| - 1];
      var init := lines[..|lines| - 1];
      assert forall i :: 0 <= i < |init| ==> init[i] == lines[i];
      if PropLine(line) && KeyOf(line) == key then Some(ValueOf(line))
      else LastValue(init, key)
  }

  /** A later line for the same key overrides an earlier one: each key holds its last value. */
  lemma {:induction false} BuildPropsLastWins(lines: seq<string>, key: string)
    requires BuildPropsOf(lines).Ok?
    ensures key in BuildPropsOf(lines).value <==> LastValue(lines, key).Some?
    ensures key in BuildPropsOf(lines).value ==> BuildPropsOf(lines).value[key] == LastValue(lines, key).value
  {
    if |lines| > 0 {
      BuildPropsLastWins(lines[..|lines| - 1], key);
    }
  }

  /** The value of a key is the value of the last line that names it. */
  lemma {:induction false} LastValueIsLastLine(lines: seq<string>, key: string, i: nat)
    requires i < |lines| && PropLine(lines[i]) && KeyOf(lines[i]) == key
    requires forall j :: i < j < |lines| && PropLine(lines[j]) ==> KeyOf(lines[j]) != key
    ensures LastValue(lines, key) == Some(ValueOf(lines[i]))
    decreases |lines|
  {
    if i < |lines| - 1 {
      var init := lines[..|lines| - 1];
      assert init[i] == lines[i];
      forall j | i < j < |init| && PropLine(init[j]) ensures KeyOf(init[j]) != key {
        assert init[j] == lines[j];
      }
      LastValueIsLastLine(init, key, i);
    }
  }

  /** The loop of `_init_cache` over the lines of build.prop. */
  method ParseBuildProp(out: string) returns (r: Result<map<string, string>, Raise>)
    ensures r == BuildPropsOf(SplitLines(out))
  {
    var lines := SplitLines(out);
    var properties: map<string, string> := map[];
    for i := 0 to |lines|
      invariant BuildPropsOf(lines[..i]) == Ok(properties)
    {
      assert lines[..i + 1][..i] == lines[..i];
      var line := lines[i];
      if !IsAscii(line) {
        BuildPropsStaysFailed(lines, i + 1);
        return Err(UnicodeDecodeError(FirstNonAscii(line)));
      }
      if StartsWith(line, "#") || |line| == 0 {
        continue;
      }
      var split := SplitAtFirst(line, '=');
      if split.None? {
        BuildPropsStaysFailed(lines, i + 1);
        return Err(ValueError(UnpackError));
      }
      var (key, value) := split.value;
      properties := properties[key := value];
    }
    assert lines[..|lines|] == lines;
    r := Ok(properties);
  }

  /** Once a prefix of the lines failed to parse, the whole list fails with the same error. */
  lemma {:induction false} BuildPropsStaysFailed(lines: seq<string>, n: nat)
    requires n <= |lines| && BuildPropsOf(lines[..n]).Err?
    ensures BuildPropsOf(lines) == BuildPropsOf(lines[..n])
    decreases |lines| - n
  {
    if n < |lines| {
      assert lines[..n + 1][..n] == lines[..n];
      BuildPropsStaysFailed(lines, n + 1);
    } else {
      assert lines[..n] == lines;
    }
  }

  // ---------------------------------------------------------- other fields

  /** `external_storage_path`: dropped when the echo reported a non-zero exit code. */
  function StoragePathOf(sh: ShellOut): (r: Option<string>)
    ensures sh.exitCode.Some? && sh.exitCode.value != 0 ==> r.None?
    ensures (sh.exitCode.None? || sh.exitCode == Some(0)) ==> r == sh.out
  {
    if sh.exitCode.Some? && sh.exitCode.value != 0 then None else sh.out
  }

  /** `properties`: None when build.prop could not be read or was empty. */
  function PropsOf(got: Option<string>): (r: Result<Option<map<string, string>>, Raise>)
    ensures (got.None? || got == Some("")) ==> r == Ok(None)
    ensures got.Some? && got.value != "" ==> (r.Ok? ==> r.value.Some?)
  {
    if got.None? || got.value == "" then Ok(None)
    else
      match BuildPropsOf(SplitLines(got.value))
      case Err(e) => Err(e)
      case Ok(m) => Ok(Some(m))
  }

  /** `bool(mode)` of a stat, as `has_su` and `mkstemp` test it; the sentinel has mode None. */
  function ModeSet(info: Option<StatInfo>): bool {
    info.Some? && info.value.mode != 0
  }

  /** The assertion's message names the offending list; the model keeps only its subject. */
  const UnknownGovernor: string := "available_governors"

  /** Every entry is one of `KNOWN_CPU_SCALING_GOVERNOR_VALUES`. */
  predicate AllKnown(govs: seq<string>) {
    forall g :: g in govs ==> IsKnown(g, KnownGovernors)
  }

  /** `g in known`, one element at a time. */
  predicate IsKnown(g: string, known: seq<string>) {
    |known| > 0 && (known[0] == g || IsKnown(g, known[1..]))
  }

  lemma IsKnownIsIn(g: string, known: seq<string>)
    ensures IsKnown(g, known) <==> g in known
  {
    if |known| > 0 {
      IsKnownIsIn(g, known[1..]);
      assert known == [known[0]] + known[1..];
    }
  }

  /**
   * `available_governors`: the known list when the file is missing or empty;
   * otherwise its words, sorted, which must all be known governors. The
   * subset test is made on the words before sorting, which has the same
   * outcome since sorting keeps the same elements.
   */
  function GovernorsOf(got: Option<string>): (r: Result<seq<string>, Raise>)
    ensures (got.None? || got == Some("")) ==> r == Ok(KnownGovernors)
  {
    if got.None? || got.value == "" then Ok(KnownGovernors)
    else
      var words := Words(got.value);
      if AllKnown(words) then Ok(SortStrings(words))
      else Err(AssertionError(UnknownGovernor))
  }

  /** Sequences with the same elements agree on `AllKnown`. */
  lemma AllKnownPermutation(a: seq<string>, b: seq<string>)
    requires multiset(a) == multiset(b)
    ensures AllKnown(a) == AllKnown(b)
  {
    forall g ensures g in a <==> g in b {
      assert g in a <==> g in multiset(a);
      assert g in b <==> g in multiset(b);
    }
  }

  /**
   * The governors kept are always known ones. A non-empty file is accepted
   * exactly when each of its words is a known governor, and then gives those
   * words in sorted order, as `sorted(...)` followed by the subset assertion.
   */
  lemma GovernorsRead(got: Option<string>)
    ensures GovernorsOf(got).Ok? ==> AllKnown(GovernorsOf(got).value)
    ensures got.Some? && got.value != "" ==>
      (GovernorsOf(got).Ok? <==> AllKnown(SortStrings(Words(got.value)))) &&
      (GovernorsOf(got).Ok? ==>
        Sorted(GovernorsOf(got).value) && multiset(GovernorsOf(got).value) == multiset(Words(got.value)))
  {
    if got.Some? && got.value != "" {
      var w := Words(got.value);
      AllKnownPermutation(w, SortStrings(w));
    } else {
      forall g | g in KnownGovernors ensures IsKnown(g, KnownGovernors) {
        IsKnownIsIn(g, KnownGovernors);
      }
    }
  }

  /** A `cpuinfo_*_freq` file: kept as read when falsy, else `int()` of it. */
  function FreqOf(got: Option<string>): (r: Result<Freq, Raise>)
    ensures got.None? ==> r == Ok(Unread)
    ensures got == Some("") ==> r == Ok(Blank)
    ensures r.Err? <==> got.Some? && got.value != "" && ParseInt(got.value).None?
  {
    if got.None? then Ok(Unread)
    else if got.value == "" then Ok(Blank)
    else
      match ParseInt(got.value)
      case None => Err(ValueError(got.value))
      case Some(n) => Ok(Hz(n))
  }

  predicate IsPull(op: DeviceOp, path: string) {
    op.PullContentOp? && op.path == path
  }

  /** The calls end here with outcome `x`: Some(x) when no further call follows. */
  function Ends<T>(ops: seq<DeviceOp>, x: T): Option<T> {
    if |ops| == 0 then Some(x) else None
  }

  /**
   * The reading of the calls `_init_cache` made on a device whose cache entry was
   * missing: Some(outcome) exactly when `ops` are the calls the code makes for
   * the results they carry. An escaping exception ends the calls.
   */
  function InitCacheOf(ops: seq<DeviceOp>): Option<Result<DeviceCache, Raise>> {
    if |ops| == 0 || !ops[0].ShellOp? || ops[0].cmd != StorageCommand then None
    else match ops[0].result
    case Err(e) => Ends(ops[1..], Err(e))
    case Ok(sh) => AfterStorage(StoragePathOf(sh), ops[1..])
  }

  /** After the storage path: build.prop is read and parsed. */
  function AfterStorage(path: Option<string>, ops: seq<DeviceOp>): Option<Result<DeviceCache, Raise>> {
    if |ops| == 0 || !IsPull(ops[0], BuildPropPath) then None
    else match PropsOf(ops[0].got)
    case Err(e) => Ends(ops[1..], Err(e))
    case Ok(props) => AfterProps(path, props, ops[1..])
  }

  /** After the properties: `su` is looked for. */
  function AfterProps(path: Option<string>, props: Option<map<string, string>>, ops: seq<DeviceOp>)
    : Option<Result<DeviceCache, Raise>>
  {
    if |ops| == 0 || !ops[0].StatOp? || ops[0].path != SuPath then None
    else AfterSu(path, props, ModeSet(ops[0].info), ops[1..])
  }

  /** After `su`: the available governors are read. */
  function AfterSu(path: Option<string>, props: Option<map<string, string>>, hasSu: bool, ops: seq<DeviceOp>)
    : Option<Result<DeviceCache, Raise>>
  {
    if |ops| == 0 || !IsPull(ops[0], GovernorsPath) then None
    else GovernorsThen(GovernorsOf(ops[0].got), path, props, hasSu, ops[1..])
  }

  /** What follows the governors read `g`. */
  function GovernorsThen(g: Result<seq<string>, Raise>, path: Option<string>, props: Option<map<string, string>>,
                         hasSu: bool, ops: seq<DeviceOp>): Option<Result<DeviceCache, Raise>>
  {
    match g
    case Err(e) => Ends(ops, Err(e))
    case Ok(govs) => AfterGovernors(path, props, hasSu, govs, ops)
  }

  /** After the governors: the maximum frequency is read. */
  function AfterGovernors(path: Option<string>, props: Option<map<string, string>>, hasSu: bool,
                          govs: seq<string>, ops: seq<DeviceOp>): Option<Result<DeviceCache, Raise>>
  {
    if |ops| == 0 || !IsPull(ops[0], MaxFreqPath) then None
    else match FreqOf(ops[0].got)
    case Err(e) => Ends(ops[1..], Err(e))
    case Ok(maxFreq) => AfterMaxFreq(path, props, hasSu, govs, maxFreq, ops[1..])
  }

  /** Last, the minimum frequency is read and the cache is assembled. */
  function AfterMaxFreq(path: Option<string>, props: Option<map<string, string>>, hasSu: bool,
                        govs: seq<string>, maxFreq: Freq, ops: seq<DeviceOp>): Option<Result<DeviceCache, Raise>>
  {
    if |ops| == 0 || !IsPull(ops[0], MinFreqPath) then None
    else match FreqOf(ops[0].got)
    case Err(e) => Ends(ops[1..], Err(e))
    case Ok(minFreq) => Ends(ops[1..], Ok(DeviceCache(props, path, hasSu, govs, maxFreq, minFreq)))
  }

  /** A cache built from a device: the six calls in order, and the fields they gave. */
  lemma InitCacheShape(ops: seq<DeviceOp>)
    requires InitCacheOf(ops).Some? && InitCacheOf(ops).value.Ok?
    ensures |ops| == 6 && ops[0].ShellOp? && ops[0].result.Ok?
    ensures IsPull(ops[1], BuildPropPath) && ops[2].StatOp? && ops[2].path == SuPath
    ensures IsPull(ops[3], GovernorsPath) && IsPull(ops[4], MaxFreqPath) && IsPull(ops[5], MinFreqPath)
    ensures var c := InitCacheOf(ops).value.value;
      c.externalStoragePath == StoragePathOf(ops[0].result.value) &&
      Ok(c.buildProps) == PropsOf(ops[1].got) && c.hasSu == ModeSet(ops[2].info) &&
      Ok(c.availableGovernors) == GovernorsOf(ops[3].got) &&
      Ok(c.cpuinfoMaxFreq) == FreqOf(ops[4].got) && Ok(c.cpuinfoMinFreq) == FreqOf(ops[5].got)
  {
    assert ops[1..][1..][1..][1..][0] == ops[4] && ops[1..][1..][1..][1..][1..][0] == ops[5];
  }

  /** A built cache is complete exactly when the storage path, build.prop and both frequency files were read. */
  lemma InitCacheComplete(ops: seq<DeviceOp>)
    requires InitCacheOf(ops).Some? && InitCacheOf(ops).value.Ok?
    ensures |ops| == 6
    ensures InitCacheOf(ops).value.value.Complete() <==>
      StoragePathOf(ops[0].result.value).Some? && ops[1].got.Some? && ops[1].got.value != "" &&
      ops[4].got.Some? && ops[5].got.Some?
  {
    InitCacheShape(ops);
  }

  /** An exception from any read ends `_init_cache` at that read. */
  lemma InitCacheErrorEnds(ops: seq<DeviceOp>)
    requires InitCacheOf(ops).Some? && InitCacheOf(ops).value.Err?
    ensures 1 <= |ops| <= 6
    ensures |ops| == 1 ==> ops[0].ShellOp? && ops[0].result.Err? && InitCacheOf(ops).value.error == ops[0].result.error
    ensures |ops| == 2 ==> InitCacheOf(ops).value == PropsOf(ops[1].got).PropagateFailure()
    ensures |ops| == 4 ==> InitCacheOf(ops).value == GovernorsOf(ops[3].got).PropagateFailure()
    ensures |ops| != 3
    ensures |ops| == 5 ==>
      IsPull(ops[4], MaxFreqPath) && FreqOf(ops[4].got).Err? && InitCacheOf(ops).value.error == FreqOf(ops[4].got).error
    ensures |ops| == 6 ==>
      IsPull(ops[5], MinFreqPath) && FreqOf(ops[5].got).Err? && InitCacheOf(ops).value.error == FreqOf(ops[5].got).error
  {
    if |ops| >= 5 {
      assert ops[1..][1..][1..][1..][0] == ops[4];
    }
    if |ops| == 6 {
      assert ops[1..][1..][1..][1..][1..][0] == ops[5];
    }
  }

  /** One step of `AfterStorage`: a good build.prop read goes on to `su`. */
  lemma AfterStorageStep(path: Option<string>, props: Option<map<string, string>>, ops: seq<DeviceOp>)
    requires |ops| > 0 && IsPull(ops[0], BuildPropPath) && PropsOf(ops[0].got) == Ok(props)
    ensures AfterStorage(path, ops) == AfterProps(path, props, ops[1..])
  {
  }

  /** The first step of `InitCacheOf`: a storage path read goes on to build.prop. */
  lemma InitCacheStep(sh: ShellOut, ops: seq<DeviceOp>)
    requires |ops| > 0 && ops[0] == ShellOp(StorageCommand, Ok(sh))
    ensures InitCacheOf(ops) == AfterStorage(StoragePathOf(sh), ops[1..])
  {
  }

  /** One step of `AfterProps`: the `su` stat goes on to the governors. */
  lemma AfterPropsStep(path: Option<string>, props: Option<map<string, string>>, hasSu: bool, ops: seq<DeviceOp>)
    requires |ops| > 0 && ops[0].StatOp? && ops[0].path == SuPath && ModeSet(ops[0].info) == hasSu
    ensures AfterProps(path, props, ops) == AfterSu(path, props, hasSu, ops[1..])
  {
  }

  /** One step of `AfterSu`: a good governors read goes on to the maximum frequency. */
  lemma AfterSuStep(path: Option<string>, props: Option<map<string, string>>, hasSu: bool,
                    govs: seq<string>, ops: seq<DeviceOp>)
    requires |ops| > 0 && IsPull(ops[0], GovernorsPath) && GovernorsOf(ops[0].got) == Ok(govs)
    ensures AfterSu(path, props, hasSu, ops) == AfterGovernors(path, props, hasSu, govs, ops[1..])
  {
  }

  /** One step of `AfterGovernors`: a good maximum-frequency read goes on to the minimum one. */
  lemma AfterGovernorsStep(path: Option<string>, props: Option<map<string, string>>, hasSu: bool,
                           govs: seq<string>, maxFreq: Freq, ops: seq<DeviceOp>)
    requires |ops| > 0 && IsPull(ops[0], MaxFreqPath) && FreqOf(ops[0].got) == Ok(maxFreq)
    ensures AfterGovernors(path, props, hasSu, govs, ops) == AfterMaxFreq(path, props, hasSu, govs, maxFreq, ops[1..])
  {
  }

  // ------------------------------------------------------------- _init_cache

  /** The minimum frequency, as `AfterMaxFreq` reads it. */
  method ReadMinFreq(device: LowDevice, path: Option<string>, props: Option<map<string, string>>,
                     hasSu: bool, govs: seq<string>, maxFreq: Freq) returns (r: Result<DeviceCache, Raise>)
    modifies device, device.adbCmd
    ensures old(device.trace) <= device.trace
    ensures AfterMaxFreq(path, props, hasSu, govs, maxFreq, device.trace[|old(device.trace)|..]) == Some(r)
  {
    ghost var t0 := device.trace;
    var out := device.PullContent(MinFreqPath);
    assert device.trace[|t0|..] == [PullContentOp(MinFreqPath, out)];
    var minFreq := FreqOf(out);
    if minFreq.Err? {
      return Err(minFreq.error);
    }
    r := Ok(DeviceCache(props, path, hasSu, govs, maxFreq, minFreq.value));
  }

  /** The maximum frequency, then the minimum one. */
  method ReadMaxFreq(device: LowDevice, path: Option<string>, props: Option<map<string, string>>,
                     hasSu: bool, govs: seq<string>) returns (r: Result<DeviceCache, Raise>)
    modifies device, device.adbCmd
    ensures old(device.trace) <= device.trace
    ensures AfterGovernors(path, props, hasSu, govs, device.trace[|old(device.trace)|..]) == Some(r)
  {
    ghost var t0 := device.trace;
    var out := device.PullContent(MaxFreqPath);
    ghost var op := PullContentOp(MaxFreqPath, out);
    var maxFreq := FreqOf(out);
    if maxFreq.Err? {
      assert device.trace[|t0|..] == [op];
      return Err(maxFreq.error);
    }
    r := ReadMinFreq(device, path, props, hasSu, govs, maxFreq.value);
    Peel(t0, op, device.trace);
    AfterGovernorsStep(path, props, hasSu, govs, maxFreq.value, device.trace[|t0|..]);
  }

  /** The available governors, then the frequencies. */
  method ReadGovernors(device: LowDevice, path: Option<string>, props: Option<map<string, string>>, hasSu: bool)
    returns (r: Result<DeviceCache, Raise>)
    modifies device, device.adbCmd
    ensures old(device.trace) <= device.trace
    ensures AfterSu(path, props, hasSu, device.trace[|old(device.trace)|..]) == Some(r)
  {
    ghost var t0 := device.trace;
    var out := device.PullContent(GovernorsPath);
    ghost var op := PullContentOp(GovernorsPath, out);
    var govs := GovernorsOf(out);
    if govs.Err? {
      assert device.trace[|t0|..] == [op];
      assert GovernorsThen(govs, path, props, hasSu, []) == Some(Err(govs.error));
      return Err(govs.error);
    }
    r := ReadMaxFreq(device, path, props, hasSu, govs.value);
    Peel(t0, op, device.trace);
    AfterSuStep(path, props, hasSu, govs.value, device.trace[|t0|..]);
  }

  /** `su`, then the rest. */
  method ReadSu(device: LowDevice, path: Option<string>, props: Option<map<string, string>>)
    returns (r: Result<DeviceCache, Raise>)
    modifies device, device.adbCmd
    ensures old(device.trace) <= device.trace
    ensures AfterProps(path, props, device.trace[|old(device.trace)|..]) == Some(r)
  {
    ghost var t0 := device.trace;
    var info := device.Stat(SuPath);
    var hasSu := info.Some? && info.value.mode != 0;
    r := ReadGovernors(device, path, props, hasSu);
    Peel(t0, StatOp(SuPath, info), device.trace);
    AfterPropsStep(path, props, hasSu, device.trace[|t0|..]);
  }

  /** build.prop, then the rest. */
  method ReadProps(device: LowDevice, path: Option<string>) returns (r: Result<DeviceCache, Raise>)
    modifies device, device.adbCmd
    ensures old(device.trace) <= device.trace
    ensures AfterStorage(path, device.trace[|old(device.trace)|..]) == Some(r)
  {
    ghost var t0 := device.trace;
    var out := device.PullContent(BuildPropPath);
    ghost var op := PullContentOp(BuildPropPath, out);
    var props: Option<map<string, string>> := None;
    if out.Some? && out.value != "" {
      var parsed := ParseBuildProp(out.value);
      if parsed.Err? {
        assert device.trace[|t0|..] == [op];
        return Err(parsed.error);
      }
      props := Some(parsed.value);
    }
    assert PropsOf(out) == Ok(props);
    r := ReadSu(device, path, props);
    Peel(t0, op, device.trace);
    AfterStorageStep(path, props, device.trace[|t0|..]);
  }

  /** The calls `_init_cache` makes when the device has no cache entry. */
  method ReadCache(device: LowDevice) returns (r: Result<DeviceCache, Raise>)
    modifies device, device.adbCmd
    ensures old(device.trace) <= device.trace
    ensures InitCacheOf(device.trace[|old(device.trace)|..]) == Some(r)
  {
    ghost var t0 := device.trace;
    var sh := device.Shell(StorageCommand);
    ghost var op := ShellOp(StorageCommand, sh);
    if sh.Err? {
      assert device.trace[|t0|..] == [op];
      return Err(sh.error);
    }
    r := ReadProps(device, StoragePathOf(sh.value));
    Peel(t0, op, device.trace);
    InitCacheStep(sh.value, device.trace[|t0|..]);
  }

  /**
   * `_init_cache(device)`: a cached entry is returned with no device call;
   * otherwise the fields are read, and the result is stored only when complete.
   */
  method InitCache(store: PerDeviceCache, device: LowDevice) returns (r: Result<DeviceCache, Raise>)
    modifies store, device, device.adbCmd
    ensures device.portPath in old(store.perDevice) ==>
      r == Ok(old(store.perDevice)[device.portPath]) && device.trace == old(device.trace) &&
      store.perDevice == old(store.perDevice)
    ensures device.portPath !in old(store.perDevice) ==>
      old(device.trace) <= device.trace &&
      InitCacheOf(device.trace[|old(device.trace)|..]) == Some(r) &&
      store.perDevice == (if r.Ok? && r.value.Complete() then old(store.perDevice)[device.portPath := r.value]
                          else old(store.perDevice))
  {
    var cached := store.Get(device.portPath);
    if cached.Some? {
      return Ok(cached.value);
    }
    r := ReadCache(device);
    if r.Ok? && r.value.Complete() {
      store.Set(device.portPath, r.value);
    }
  }
}
