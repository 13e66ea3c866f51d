/**
 * What `HighDevice` makes of the text a device returns: `get_prop`,
 * `dumpsys`, `get_ip` and `list_packages` on a `shell` result, the
 * `battery` report of `dumpsys`, and `_parcel_to_list` on the output of
 * `service call`.
 */
module AndroidParse {
  import opened Wrappers
  import opened Strings
  import opened Exceptions
  import opened AdbLow
  import opened Dialog

  // ------------------------------------------------------------ get_prop

  function GetPropCommand(prop: string): string {
    "getprop " + ShellQuote(prop)
  }

  /**
   * `get_prop`: None unless the command exited with 0, otherwise the output
   * without trailing whitespace. An exception from `shell` escapes.
   */
  function GetPropOf(res: Result<ShellOut, Raise>): (r: Result<Option<string>, Raise>)
    ensures res.Err? ==> r == Err(res.error)
    ensures r == Ok(None) <==> res.Ok? && res.value.exitCode != Some(0)
    ensures r.Ok? && r.value.Some? ==>
      res.Ok? && res.value.out.Some? && RStrip(res.value.out.value) == r.value.value
  {
    match res
    case Err(e) => Err(e)
    case Ok(sh) =>
      if sh.exitCode != Some(0) then Ok(None)
      else if sh.out.None? then Err(AttributeError("rstrip"))
      else Ok(Some(RStrip(sh.out.value)))
  }

  /**
   * `getprop` prints the value and a newline; `get_prop` gives back the
   * value, through the exit-code probe that `shell` parses.
   */
  lemma GetPropReadsValue(v: string)
    requires '\r' !in v && RStrip(v) == v
    ensures GetPropOf(ParseShellOutput(v + "\n" + "\n" + IntToString(0) + "\n")) == Ok(Some(v))
  {
    ParseShellOutputRoundTrip(v + "\n", 0);
    assert v + "\n" + "\n" + IntToString(0) + "\n" == (v + "\n") + "\n" + IntToString(0) + "\n";
    RStripNewline(v);
  }

  /** Stripping a trailing newline from an already stripped value gives the value. */
  lemma RStripNewline(v: string)
    requires RStrip(v) == v
    ensures RStrip(v + "\n") == v
  {
    assert (v + "\n")[..|v + "\n"| - 1] == v;
  }

  // ------------------------------------------------------------- dumpsys

  const ServiceMissing: string := "Can't find service: "

  /**
   * `dumpsys`: the output, or None when the command failed or the service
   * does not exist.
   */
  function DumpsysOf(res: Result<ShellOut, Raise>): (r: Result<Option<string>, Raise>)
    ensures res.Err? ==> r == Err(res.error)
    ensures res.Ok? && res.value.exitCode != Some(0) ==> r == Ok(None)
    ensures r.Ok? && r.value.Some? <==>
      res.Ok? && res.value.exitCode == Some(0) && res.value.out.Some? && !StartsWith(res.value.out.value, ServiceMissing)
    ensures r.Ok? && r.value.Some? ==> res.value.out == r.value
  {
    match res
    case Err(e) => Err(e)
    case Ok(sh) =>
      if sh.exitCode != Some(0) then Ok(None)
      else if sh.out.None? then Err(AttributeError("startswith"))
      else if StartsWith(sh.out.value, ServiceMissing) then Ok(None)
      else Ok(Some(sh.out.value))
  }

  // -------------------------------------------------------------- get_ip

  const IpCommand: string := "getprop dhcp.wlan0.ipaddress"

  /** `get_ip`: None for an empty or missing output, else the stripped output. */
  function GetIpOf(res: Result<ShellOut, Raise>): (r: Result<Option<string>, Raise>)
    ensures res.Err? ==> r == Err(res.error)
    ensures res.Ok? ==> r.Ok?
    ensures r == Ok(None) <==> res.Ok? && (res.value.out.None? || res.value.out == Some(""))
    ensures r.Ok? && r.value.Some? ==> r.value.value == Strip(res.value.out.value)
  {
    match res
    case Err(e) => Err(e)
    case Ok(sh) =>
      if sh.out.None? || sh.out.value == "" then Ok(None) else Ok(Some(Strip(sh.out.value)))
  }

  // ------------------------------------------------------- list_packages

  const PackagesCommand: string := "pm list packages"

  /** `l.split(':', 1)[1]` for each line; IndexError for a line without ':'. */
  function PackageNames(lines: seq<string>): (r: Result<seq<string>, Raise>)
    ensures r.Err? <==> exists i :: 0 <= i < |lines| && ':' !in lines[i]
    ensures r.Err? ==> r.error == IndexError
    ensures r.Ok? ==> |r.value| == |lines|
    ensures r.Ok? ==> forall i :: 0 <= i < |lines| ==> SplitAtFirst(lines[i], ':').Some? && SplitAtFirst(lines[i], ':').value.1 == r.value[i]
  {
    if |lines| == 0 then Ok([])
    else
      match SplitAtFirst(lines[0], ':')
      case None => Err(IndexError)
      case Some((_, name)) =>
        match PackageNames(lines[1..])
        case Err(e) =>
          assert forall i :: 0 <= i < |lines| - 1 ==> lines[1..][i] == lines[i + 1];
          Err(e)
        case Ok(rest) =>
          assert forall i :: 0 <= i < |lines| - 1 ==> lines[1..][i] == lines[i + 1];
          Ok([name] + rest)
  }

  /** `list_packages`: None for an empty or missing output. */
  function PackagesOf(res: Result<ShellOut, Raise>): (r: Result<Option<seq<string>>, Raise>)
    ensures res.Err? ==> r == Err(res.error)
    ensures r == Ok(None) <==> res.Ok? && (res.value.out.None? || res.value.out == Some(""))
  {
    match res
    case Err(e) => Err(e)
    case Ok(sh) =>
      if sh.out.None? || sh.out.value == "" then Ok(None)
      else
        match PackageNames(SplitLines(Strip(sh.out.value)))
        case Err(e) => Err(e)
        case Ok(names) => Ok(Some(names))
  }

  /**
   * `pm list packages` prints `package:<name>` per line: whatever the tag
   * before the first ':', each name comes back as printed.
   */
  lemma {:induction false} PackageNamesOfListing(tag: string, names: seq<string>, lines: seq<string>)
    requires ':' !in tag && |lines| == |names|
    requires forall i :: 0 <= i < |lines| ==> lines[i] == tag + [':'] + names[i]
    ensures PackageNames(lines) == Ok(names)
  {
    if |lines| > 0 {
      SplitAtFirstOf(tag, ':', names[0]);
      assert forall i :: 0 <= i < |lines| - 1 ==> lines[1..][i] == lines[i + 1] && names[1..][i] == names[i + 1];
      PackageNamesOfListing(tag, names[1..], lines[1..]);
      assert names == [names[0]] + names[1..];
    }
  }

  // --------------------------------------------------------- get_battery

  /**
   * One line of `dumpsys battery`, as `get_battery` reads it: skipped when it
   * ends in ':'; otherwise a property when `split(':', 2)` gives two parts.
   */
  function BatteryLine(line: string): Option<(string, string)> {
    if EndsWith(line, ":") then None
    else
      match SplitAtFirst(line, ':')
      case None => None
      case Some((k, v)) => if ':' in v then None else Some((LStrip(k), Strip(v)))
  }

  /** A line `split(':', 2)` cuts in two and that does not end in ':'. */
  predicate BatteryEntry(line: string) {
    !EndsWith(line, ":") && CountChar(line, ':') == 1
  }

  /** A line gives a property exactly when it holds one ':' and does not end in one. */
  lemma BatteryLineIsEntry(line: string)
    ensures BatteryLine(line).Some? <==> BatteryEntry(line)
  {
    if !EndsWith(line, ":") {
      if ':' in line {
        var (k, v) := SplitAtFirst(line, ':').value;
        CountAt(line, ':', |k|);
        assert line[|k| + 1..] == v;
        if ':' in v {
          var j := IndexOf(v, ':').value;
          CountAt(v, ':', j);
        } else {
          CountNone(v, ':');
        }
      } else {
        CountNone(line, ':');
      }
    }
  }

  /** `key: value` with one ':' sets the stripped key to the stripped value, as does the Android 4.1.2 form `key:value`. */
  lemma BatteryLineOfEntry(k: string, v: string)
    requires ':' !in k && ':' !in v && |v| > 0
    ensures BatteryLine(k + [':'] + v) == Some((LStrip(k), Strip(v)))
  {
    var line := k + [':'] + v;
    SplitAtFirstOf(k, ':', v);
    assert line[|line| - 1] == v[|v| - 1];
  }

  /** What each line of the report gives, in order. */
  function Entries(lines: seq<string>): (es: seq<Option<(string, string)>>)
    ensures |es| == |lines|
  {
    if |lines| == 0 then [] else Entries(lines[..|lines| - 1]) + [BatteryLine(lines[|lines| - 1])]
  }

  /** `props` as the loop over the entries fills it: a later entry for a key overwrites an earlier one. */
  function PropsOf(es: seq<Option<(string, string)>>): map<string, string> {
    if |es| == 0 then map[]
    else
      var m := PropsOf(es[..|es| - 1]);
      match es[|es| - 1]
      case None => m
      case Some((k, v)) => m[k := v]
  }

  /** The properties of a `dumpsys battery` report. */
  function BatteryPropsOf(lines: seq<string>): map<string, string> {
    PropsOf(Entries(lines))
  }

  /** The value the last entry for `key` gives, None when no entry names it. */
  function LastEntryValue(es: seq<Option<(string, string)>>, key: string): (v: Option<string>)
    ensures v.None? <==> forall i :: 0 <= i < |es| && es[i].Some? ==> es[i].value.0 != key
  {
    if |es| == 0 then None
    else
      var init := es[..|es| - 1];
      assert forall i :: 0 <= i < |init| ==> init[i] == es[i];
      var e := es[|es| - 1];
      if e.Some? && e.value.0 == key then Some(e.value.1) else LastEntryValue(init, key)
  }

  /** Each key holds the value of the last entry that names it, and only named keys are present. */
  lemma {:induction false} PropsLastWins(es: seq<Option<(string, string)>>, key: string)
    ensures key in PropsOf(es) <==> LastEntryValue(es, key).Some?
    ensures key in PropsOf(es) ==> PropsOf(es)[key] == LastEntryValue(es, key).value
  {
    if |es| > 0 {
      PropsLastWins(es[..|es| - 1], key);
    }
  }

  lemma EntriesStep(lines: seq<string>, i: nat)
    requires i < |lines|
    ensures Entries(lines[..i + 1]) == Entries(lines[..i]) + [BatteryLine(lines[i])]
  {
    assert lines[..i + 1][..i] == lines[..i];
  }

  lemma PropsStep(es: seq<Option<(string, string)>>, e: Option<(string, string)>)
    ensures PropsOf(es + [e]) == match e case None => PropsOf(es) case Some((k, v)) => PropsOf(es)[k := v]
  {
    assert (es + [e])[..|es|] == es;
  }

  /** The loop of `get_battery` over the lines of the report. */
  method BatteryProps(out: string) returns (props: map<string, string>)
    ensures props == BatteryPropsOf(SplitLines(out))
  {
    var lines := SplitLines(out);
    props := map[];
    for i := 0 to |lines|
      invariant props == PropsOf(Entries(lines[..i]))
    {
      EntriesStep(lines, i);
      PropsStep(Entries(lines[..i]), BatteryLine(lines[i]));
      var line := lines[i];
      if EndsWith(line, ":") {
        continue;
      }
      var parts := SplitAtFirst(line, ':');
      if parts.Some? && ':' !in parts.value.1 {
        var (key, value) := parts.value;
        props := props[LStrip(key) := Strip(value)];
      }
    }
    assert lines[..|lines|] == lines;
  }

  /** The `get_battery` result; `NoReport` is the empty dict returned when `dumpsys` gave nothing. */
  datatype Battery =
    | NoReport
    | Battery(power: seq<string>, health: Option<int>, level: Option<int>, status: Option<int>,
              temperature: Option<int>, voltage: Option<int>)

  predicate Powered(props: map<string, string>, key: string) {
    key in props && props[key] == "true"
  }

  /** The `power` list: 'AC', 'USB' and 'Wireless', in that order, for each source reported as powered. */
  function PowerOf(props: map<string, string>): (p: seq<string>)
    ensures "AC" in p <==> Powered(props, "AC powered")
    ensures "USB" in p <==> Powered(props, "USB powered")
    ensures "Wireless" in p <==> Powered(props, "Wireless powered")
    ensures |p| <= 3
  {
    (if Powered(props, "AC powered") then ["AC"] else []) +
    (if Powered(props, "USB powered") then ["USB"] else []) +
    (if Powered(props, "Wireless powered") then ["Wireless"] else [])
  }

  /** `int(props[key]) if key in props else None`. */
  function IntField(props: map<string, string>, key: string): (r: Result<Option<int>, Raise>)
    ensures r == Ok(None) <==> key !in props
    ensures r.Err? <==> key in props && ParseInt(props[key]).None?
    ensures r.Ok? && r.value.Some? ==> ParseInt(props[key]) == r.value
  {
    if key !in props then Ok(None)
    else
      match ParseInt(props[key])
      case None => Err(ValueError(props[key]))
      case Some(n) => Ok(Some(n))
  }

  /** The dict `get_battery` builds from the properties; the first field `int()` rejects raises. */
  function BatteryOf(props: map<string, string>): (r: Result<Battery, Raise>)
    ensures r.Err? <==>
      (IntField(props, "health").Err? || IntField(props, "level").Err? ||
       IntField(props, "status").Err? || IntField(props, "temperature").Err? || IntField(props, "voltage").Err?)
    ensures r.Ok? ==> r == Ok(Battery(PowerOf(props), IntField(props, "health").value, IntField(props, "level").value,
      IntField(props, "status").value, IntField(props, "temperature").value, IntField(props, "voltage").value))
  {
    var health :- IntField(props, "health");
    var level :- IntField(props, "level");
    var status :- IntField(props, "status");
    var temperature :- IntField(props, "temperature");
    var voltage :- IntField(props, "voltage");
    Ok(Battery(PowerOf(props), health, level, status, temperature, voltage))
  }

  /** `get_battery` once `dumpsys('battery')` has answered. */
  function BatteryReport(d: Result<Option<string>, Raise>): (r: Result<Battery, Raise>)
    ensures d.Err? ==> r == Err(d.error)
    ensures d.Ok? && (d.value.None? || d.value == Some("")) ==> r == Ok(NoReport)
  {
    match d
    case Err(e) => Err(e)
    case Ok(out) =>
      if out.None? || out.value == "" then Ok(NoReport) else BatteryOf(BatteryPropsOf(SplitLines(out.value)))
  }

  // ------------------------------------------------------ _parcel_to_list

  predicate IsHex(c: char) {
    '0' <= c <= '9' || 'a' <= c <= 'f'
  }

  /** What `[0-9a-f ]` matches. */
  predicate GroupChar(c: char) {
    IsHex(c) || c == ' '
  }

  predicate HexRun(s: string) {
    forall k :: 0 <= k < |s| ==> IsHex(s[k])
  }

  predicate GroupRun(s: string) {
    forall k :: 0 <= k < |s| ==> GroupChar(s[k])
  }

  /** Where the i-th quoted group starts on a parcel line. */
  function GroupStart(i: nat): nat {
    14 + 9 * i
  }

  /** The i-th group of a parcel line. */
  function Group(line: string, i: nat): (g: string)
    requires |line| >= 50 && i < 4
    ensures |g| == 8
  {
    line[GroupStart(i)..GroupStart(i) + 8]
  }

  /** Groups 0 .. n-1 are eight characters of `[0-9a-f ]`, each followed by a space. */
  predicate GroupsMatch(line: string, n: nat)
    requires |line| >= 50 && n <= 4
  {
    n == 0 || (GroupsMatch(line, n - 1) && GroupRun(Group(line, n - 1)) && line[GroupStart(n - 1) + 8] == ' ')
  }

  /**
   * A line that `re.match` accepts: two spaces, `0x` and eight hex digits,
   * `: `, the four groups, then sixteen characters other than '\n' between
   * quotes; whatever follows is not looked at.
   */
  predicate ParcelLine(line: string) {
    |line| >= 68 &&
    line[0] == ' ' && line[1] == ' ' && line[2] == '0' && line[3] == 'x' && HexRun(line[4..12]) &&
    line[12] == ':' && line[13] == ' ' && GroupsMatch(line, 4) &&
    line[50] == '\'' && '\n' !in line[51..67] && line[67] == '\''
  }

  /** The two halves of a group, second half first, each kept unless it is four spaces. */
  function GroupWords(group: string): seq<string>
    requires |group| == 8
  {
    (if group[4..8] != "    " then [group[4..8]] else []) + (if group[0..4] != "    " then [group[0..4]] else [])
  }

  /** The words of groups 0 .. n-1 of a line. */
  function LineWords(line: string, n: nat): seq<string>
    requires |line| >= 50 && n <= 4
  {
    if n == 0 then [] else LineWords(line, n - 1) + GroupWords(Group(line, n - 1))
  }

  /** `_parcel_to_list`: the words of each parcel line, up to the first line that is not one. */
  function ParcelOf(lines: seq<string>): seq<string> {
    if |lines| == 0 || !ParcelLine(lines[0]) then [] else LineWords(lines[0], 4) + ParcelOf(lines[1..])
  }

  /** A word: four characters of `[0-9a-f ]`, not all spaces. */
  predicate ParcelWord(w: string) {
    |w| == 4 && w != "    " && GroupRun(w)
  }

  /** Every word of the output is a parcel word, at most eight per line read. */
  lemma {:induction false} ParcelWords(lines: seq<string>)
    ensures forall w :: w in ParcelOf(lines) ==> ParcelWord(w)
    ensures |ParcelOf(lines)| <= 8 * |lines|
  {
    if |lines| > 0 && ParcelLine(lines[0]) {
      ParcelWords(lines[1..]);
      LineWordsAre(lines[0], 4);
    }
  }

  lemma {:induction false} LineWordsAre(line: string, n: nat)
    requires |line| >= 50 && n <= 4 && GroupsMatch(line, n)
    ensures forall w :: w in LineWords(line, n) ==> ParcelWord(w)
    ensures |LineWords(line, n)| <= 2 * n
  {
    if n > 0 {
      LineWordsAre(line, n - 1);
      var g := Group(line, n - 1);
      assert GroupRun(g);
      assert GroupRun(g[4..8]) && GroupRun(g[0..4]);
    }
  }

  /** Nothing after the first line that does not match is read. */
  lemma {:induction false} ParcelStopsAtMismatch(lines: seq<string>, j: nat)
    requires j < |lines| && !ParcelLine(lines[j])
    ensures ParcelOf(lines) == ParcelOf(lines[..j])
  {
    if j > 0 && ParcelLine(lines[0]) {
      assert lines[1..][..j - 1] == lines[..j][1..];
      ParcelStopsAtMismatch(lines[1..], j - 1);
    }
  }

  lemma ParcelStep(lines: seq<string>, i: nat)
    requires i < |lines|
    ensures ParcelOf(lines[i..]) == if ParcelLine(lines[i]) then LineWords(lines[i], 4) + ParcelOf(lines[i + 1..]) else []
  {
    assert lines[i..][1..] == lines[i + 1..];
  }

  /** The body of the inner loop of `_parcel_to_list`, for one group. */
  method AppendGroup(out: seq<string>, group: string) returns (r: seq<string>)
    requires |group| == 8
    ensures r == out + GroupWords(group)
  {
    r := out;
    if group[4..8] != "    " {
      r := r + [group[4..8]];
    }
    if group[0..4] != "    " {
      r := r + [group[0..4]];
    }
  }

  lemma Associative<T>(a: seq<T>, b: seq<T>, c: seq<T>)
    ensures (a + b) + c == a + (b + c)
  {
  }

  /** The inner loop of `_parcel_to_list`, over the four groups of a line that matched. */
  method AppendLine(out: seq<string>, line: string) returns (r: seq<string>)
    requires |line| >= 50
    ensures r == out + LineWords(line, 4)
  {
    r := out;
    for g := 0 to 4
      invariant r == out + LineWords(line, g)
    {
      ghost var before := r;
      r := AppendGroup(r, Group(line, g));
      Associative(out, LineWords(line, g), GroupWords(Group(line, g)));
    }
  }

  /** The outer loop of `_parcel_to_list`, which stops at the first line that does not match. */
  method ParcelToList(lines: seq<string>) returns (out: seq<string>)
    ensures out == ParcelOf(lines)
  {
    out := [];
    var i := 0;
    while i < |lines|
      invariant i <= |lines|
      invariant out + ParcelOf(lines[i..]) == ParcelOf(lines)
    {
      ParcelStep(lines, i);
      if !ParcelLine(lines[i]) {
        break;
      }
      ghost var before := out;
      out := AppendLine(out, lines[i]);
      Associative(before, LineWords(lines[i], 4), ParcelOf(lines[i + 1..]));
      i := i + 1;
    }
  }

  // ------------------------------------------------------------- dialogs

  /** `get_prop(prop)`: one `shell` call. */
  function GetPropDialog(prop: string, ops: seq<DeviceOp>): Option<Said<Result<Option<string>, Raise>>> {
    match ShellReply(GetPropCommand(prop), ops)
    case None => None
    case Some(res) => Done(GetPropOf(res), 1)
  }

  function DumpsysCommand(arg: string): string {
    "dumpsys " + arg
  }

  /** `dumpsys(arg)`: one `shell` call. */
  function DumpsysDialog(arg: string, ops: seq<DeviceOp>): Option<Said<Result<Option<string>, Raise>>> {
    match ShellReply(DumpsysCommand(arg), ops)
    case None => None
    case Some(res) => Done(DumpsysOf(res), 1)
  }

  /** `get_ip()`: one `shell` call. */
  function GetIpDialog(ops: seq<DeviceOp>): Option<Said<Result<Option<string>, Raise>>> {
    match ShellReply(IpCommand, ops)
    case None => None
    case Some(res) => Done(GetIpOf(res), 1)
  }

  /** `list_packages()`: one `shell` call. */
  function PackagesDialog(ops: seq<DeviceOp>): Option<Said<Result<Option<seq<string>>, Raise>>> {
    match ShellReply(PackagesCommand, ops)
    case None => None
    case Some(res) => Done(PackagesOf(res), 1)
  }

  /** `get_battery()`: `dumpsys('battery')`, then the report is parsed. */
  function BatteryDialog(ops: seq<DeviceOp>): Option<Said<Result<Battery, Raise>>> {
    match DumpsysDialog("battery", ops)
    case None => None
    case Some(Said(d, n)) => Done(BatteryReport(d), n)
  }
}
