/**
 * `HighDevice`: a `LowDevice` and its `DeviceCache`, with the composite
 * operations built on the LowDevice primitives. Each operation is proved
 * against a dialog function: the calls it leaves in the LowDevice trace are
 * exactly a run of that dialog, and it returns the dialog's outcome.
 */
module AndroidHigh {
  import opened Wrappers
  import opened Strings
  import opened Exceptions
  import opened AdbLow
  import opened AndroidCache
  import opened AndroidParse
  import opened CpuScaling
  import opened Dialog
  import opened Ordering
  import opened AdbKeys
  import opened TempFiles

  class HighDevice {
    const device: LowDevice
    const cache: DeviceCache

    constructor (device: LowDevice, cache: DeviceCache)
      ensures this.device == device && this.cache == cache
    {
      this.device := device;
      this.cache := cache;
    }

    /** `set_cpu_scaling_governor`. */
    method SetCpuScalingGovernor(governor: string) returns (r: Result<bool, Raise>)
      requires IsKnown(governor, KnownGovernors)
      modifies device, device.adbCmd
      decreases if governor == "powersave" then 2 else 0
      ensures device.adbCmd == old(device.adbCmd) && old(device.trace) <= device.trace
      ensures Made(GovernorDialog(cache, governor, device.trace[|old(device.trace)|..]), device.trace[|old(device.trace)|..], r)
    {
      var g := governor;
      if g !in cache.availableGovernors {
        if g == "powersave" {
          r := SetCpuSpeed(cache.cpuinfoMinFreq);
          return;
        }
        if g == "ondemand" {
          g := "interactive";
        } else if g == "interactive" {
          g := "ondemand";
        } else {
          return Ok(false);
        }
      }
      r := WriteGovernor(g);
    }

    /** The read-verify-write-verify part of `set_cpu_scaling_governor`. */
    method WriteGovernor(w: string) returns (r: Result<bool, Raise>)
      modifies device, device.adbCmd
      ensures device.adbCmd == old(device.adbCmd) && old(device.trace) <= device.trace
      ensures Made(WriteDialog(w, device.trace[|old(device.trace)|..]), device.trace[|old(device.trace)|..], r)
    {
      ghost var t0 := device.trace;
      var prev := PullText(GovernorPath);
      if prev.Some? && prev.value != "" && Strip(prev.value) == w {
        WriteSkipped(w, t0, prev, device.trace);
        return Ok(true);
      }
      r := PushGovernor(w);
      WriteStep(w, t0, prev, device.trace, r);
    }

    /** `push_content` of the governor, with the shell fallback. */
    method PushGovernor(w: string) returns (r: Result<bool, Raise>)
      modifies device, device.adbCmd
      ensures device.adbCmd == old(device.adbCmd) && old(device.trace) <= device.trace
      ensures Made(PushGovernorDialog(w, device.trace[|old(device.trace)|..]), device.trace[|old(device.trace)|..], r)
    {
      ghost var t0 := device.trace;
      var ok := PushText(GovernorPath, w + "\n");
      if !ok {
        r := EchoGovernor(w);
      } else {
        r := ConfirmGovernor(w);
      }
      PushGovernorStep(w, t0, ok, device.trace, r);
    }

    method EchoGovernor(w: string) returns (r: Result<bool, Raise>)
      modifies device, device.adbCmd
      ensures device.adbCmd == old(device.adbCmd) && old(device.trace) <= device.trace
      ensures Made(EchoDialog(w, device.trace[|old(device.trace)|..]), device.trace[|old(device.trace)|..], r)
    {
      ghost var t0 := device.trace;
      var sh := RunShell(EchoCommand(w));
      if sh.Ok? && sh.value.exitCode == Some(0) {
        r := ConfirmGovernor(w);
      } else {
        r := if sh.Err? then Err(sh.error) else Ok(false);
      }
      Peel(t0, ShellOp(EchoCommand(w), sh), device.trace);
      EchoStep(w, sh, device.trace[|t0|..], r);
    }

    method ConfirmGovernor(w: string) returns (r: Result<bool, Raise>)
      modifies device, device.adbCmd
      ensures device.adbCmd == old(device.adbCmd) && old(device.trace) <= device.trace
      ensures Made(ConfirmDialog(w, device.trace[|old(device.trace)|..]), device.trace[|old(device.trace)|..], r)
    {
      ghost var t0 := device.trace;
      var newval := PullText(GovernorPath);
      assert device.trace[|t0|..] == [PullContentOp(GovernorPath, newval)];
      r := Ok(Strip(OrEmpty(newval)) == w);
    }

    /** `pull_content(path)`, as the device's trace records it. */
    method PullText(path: string) returns (got: Option<string>)
      requires StartsWith(path, "/")
      modifies device, device.adbCmd
      ensures device.adbCmd == old(device.adbCmd)
      ensures device.trace == old(device.trace) + [PullContentOp(path, got)]
    {
      got := device.PullContent(path);
    }

    /** `push_content(dest, content)` with the default mtime, as the device's trace records it. */
    method PushText(dest: string, content: string) returns (ok: bool)
      requires StartsWith(dest, "/")
      modifies device, device.adbCmd
      ensures device.adbCmd == old(device.adbCmd)
      ensures device.trace == old(device.trace) + [PushContentOp(dest, content, DefaultMtime, ok)]
    {
      ok := device.PushContent(dest, content, DefaultMtime);
    }

    /** `shell(cmd)`, as the device's trace records it. */
    method RunShell(cmd: string) returns (r: Result<ShellOut, Raise>)
      modifies device, device.adbCmd
      ensures device.adbCmd == old(device.adbCmd)
      ensures device.trace == old(device.trace) + [ShellOp(cmd, r)]
    {
      r := device.Shell(cmd);
    }

    /** `stat(path)`, as the device's trace records it. */
    method StatPath(path: string) returns (info: Option<StatInfo>)
      requires StartsWith(path, "/")
      modifies device, device.adbCmd
      ensures device.adbCmd == old(device.adbCmd)
      ensures device.trace == old(device.trace) + [StatOp(path, info)]
    {
      info := device.Stat(path);
    }

    /** `set_cpu_speed`; a speed that is not an integer in range fails the assertion before any call. */
    method SetCpuSpeed(speed: Freq) returns (r: Result<bool, Raise>)
      modifies device, device.adbCmd
      decreases 1
      ensures device.adbCmd == old(device.adbCmd) && old(device.trace) <= device.trace
      ensures Made(SpeedDialog(cache, speed, device.trace[|old(device.trace)|..]), device.trace[|old(device.trace)|..], r)
    {
      ghost var t0 := device.trace;
      if !speed.Hz? || !(MinSpeed <= speed.value <= MaxSpeed) {
        return Err(AssertionError(BadSpeed));
      }
      KnownUserspace();
      var success := SetCpuScalingGovernor("userspace");
      ghost var t1 := device.trace;
      if success.Err? {
        SpeedSwitchFailed(cache, speed.value, t1[|t0|..], success.error);
        return success;
      }
      r := SetSpeed(IntToString(speed.value), success.value);
      SplitRun(t0, t1, device.trace);
      SpeedComposed(cache, speed.value, t1[|t0|..], device.trace[|t1|..], success.value, r);
    }

    method SetSpeed(text: string, success: bool) returns (r: Result<bool, Raise>)
      modifies device, device.adbCmd
      ensures device.adbCmd == old(device.adbCmd) && old(device.trace) <= device.trace
      ensures Made(SetSpeedDialog(text, success, device.trace[|old(device.trace)|..]), device.trace[|old(device.trace)|..], r)
    {
      ghost var t0 := device.trace;
      var ok := PushText(SetSpeedPath, text + "\n");
      ghost var op := PushContentOp(SetSpeedPath, text + "\n", DefaultMtime, ok);
      if !ok {
        assert device.trace[|t0|..] == [op];
        return Ok(false);
      }
      r := ReadSpeed(text, success);
      Peel(t0, op, device.trace);
    }

    method ReadSpeed(text: string, success: bool) returns (r: Result<bool, Raise>)
      modifies device, device.adbCmd
      ensures device.adbCmd == old(device.adbCmd) && old(device.trace) <= device.trace
      ensures Made(ReadSpeedDialog(text, success, device.trace[|old(device.trace)|..]), device.trace[|old(device.trace)|..], r)
    {
      ghost var t0 := device.trace;
      var val := PullText(SetSpeedPath);
      assert device.trace[|t0|..] == [PullContentOp(SetSpeedPath, val)];
      r := Ok(success && Strip(OrEmpty(val)) == text);
    }

    /** `get_prop`. */
    method GetProp(prop: string) returns (r: Result<Option<string>, Raise>)
      modifies device, device.adbCmd
      ensures device.adbCmd == old(device.adbCmd) && old(device.trace) <= device.trace
      ensures Made(GetPropDialog(prop, device.trace[|old(device.trace)|..]), device.trace[|old(device.trace)|..], r)
    {
      ghost var t0 := device.trace;
      var sh := RunShell(GetPropCommand(prop));
      assert device.trace[|t0|..] == [ShellOp(GetPropCommand(prop), sh)];
      if sh.Err? {
        return Err(sh.error);
      }
      if sh.value.exitCode != Some(0) {
        return Ok(None);
      }
      if sh.value.out.None? {
        return Err(AttributeError("rstrip"));
      }
      r := Ok(Some(RStrip(sh.value.out.value)));
    }

    /** `dumpsys`. */
    method Dumpsys(arg: string) returns (r: Result<Option<string>, Raise>)
      modifies device, device.adbCmd
      ensures device.adbCmd == old(device.adbCmd) && old(device.trace) <= device.trace
      ensures Made(DumpsysDialog(arg, device.trace[|old(device.trace)|..]), device.trace[|old(device.trace)|..], r)
    {
      ghost var t0 := device.trace;
      var sh := RunShell(DumpsysCommand(arg));
      assert device.trace[|t0|..] == [ShellOp(DumpsysCommand(arg), sh)];
      if sh.Err? {
        return Err(sh.error);
      }
      if sh.value.exitCode != Some(0) {
        return Ok(None);
      }
      if sh.value.out.None? {
        return Err(AttributeError("startswith"));
      }
      if StartsWith(sh.value.out.value, ServiceMissing) {
        return Ok(None);
      }
      r := Ok(sh.value.out);
    }

    /** `get_ip`. */
    method GetIp() returns (r: Result<Option<string>, Raise>)
      modifies device, device.adbCmd
      ensures device.adbCmd == old(device.adbCmd) && old(device.trace) <= device.trace
      ensures Made(GetIpDialog(device.trace[|old(device.trace)|..]), device.trace[|old(device.trace)|..], r)
    {
      ghost var t0 := device.trace;
      var sh := RunShell(IpCommand);
      assert device.trace[|t0|..] == [ShellOp(IpCommand, sh)];
      if sh.Err? {
        return Err(sh.error);
      }
      var ip := sh.value.out;
      if ip.None? || ip.value == "" {
        return Ok(None);
      }
      r := Ok(Some(Strip(ip.value)));
    }

    /** `list_packages`. */
    method ListPackages() returns (r: Result<Option<seq<string>>, Raise>)
      modifies device, device.adbCmd
      ensures device.adbCmd == old(device.adbCmd) && old(device.trace) <= device.trace
      ensures Made(PackagesDialog(device.trace[|old(device.trace)|..]), device.trace[|old(device.trace)|..], r)
    {
      ghost var t0 := device.trace;
      var sh := RunShell(PackagesCommand);
      assert device.trace[|t0|..] == [ShellOp(PackagesCommand, sh)];
      r := PackagesOf(sh);
    }

    /** `get_battery`. */
    method GetBattery() returns (r: Result<Battery, Raise>)
      modifies device, device.adbCmd
      ensures device.adbCmd == old(device.adbCmd) && old(device.trace) <= device.trace
      ensures Made(BatteryDialog(device.trace[|old(device.trace)|..]), device.trace[|old(device.trace)|..], r)
    {
      var out := Dumpsys("battery");
      if out.Err? {
        return Err(out.error);
      }
      if out.value.None? || out.value.value == "" {
        return Ok(NoReport);
      }
      var props := BatteryProps(out.value.value);
      r := BatteryOf(props);
    }

    /** `push_keys`, with the public keys the host knows (the keys of `_ADB_KEYS_RAW`) passed in. */
    method PushKeys(local: set<string>) returns (r: Result<bool, Raise>)
      modifies device, device.adbCmd
      ensures device.adbCmd == old(device.adbCmd) && old(device.trace) <= device.trace
      ensures Made(PushKeysDialog(local, device.trace[|old(device.trace)|..]), device.trace[|old(device.trace)|..], r)
    {
      ghost var t0 := device.trace;
      if local == {} {
        assert device.trace[|t0|..] == [];
        return Ok(false);
      }
      if !NoNewline(local) {
        assert device.trace[|t0|..] == [];
        return Err(AssertionError(BadKeys));
      }
      var prev := PullText(KeysPath);
      if Covered(local, prev) {
        r := Ok(true);
      } else {
        r := InstallKeys(Merged(local, prev));
      }
      Peel(t0, PullContentOp(KeysPath, prev), device.trace);
      PushKeysStep(local, prev, device.trace[|t0|..], r);
    }

    /** The part of `push_keys` that writes the file, when the keys to trust are `keys`. */
    method InstallKeys(keys: set<string>) returns (r: Result<bool, Raise>)
      modifies device, device.adbCmd
      ensures device.adbCmd == old(device.adbCmd) && old(device.trace) <= device.trace
      ensures Made(MkdirDialog(KeysContent(keys), device.trace[|old(device.trace)|..]), device.trace[|old(device.trace)|..], r)
    {
      var sorted := SortedSet(keys);
      var content := JoinTerminated(sorted);
      r := MakeKeysDir(content);
    }

    method MakeKeysDir(content: string) returns (r: Result<bool, Raise>)
      modifies device, device.adbCmd
      ensures device.adbCmd == old(device.adbCmd) && old(device.trace) <= device.trace
      ensures Made(MkdirDialog(content, device.trace[|old(device.trace)|..]), device.trace[|old(device.trace)|..], r)
    {
      ghost var t0 := device.trace;
      var sh := RunShell(MkdirCommand);
      ghost var op := ShellOp(MkdirCommand, sh);
      if sh.Err? {
        assert device.trace[|t0|..] == [op];
        return Err(sh.error);
      }
      if sh.value.exitCode != Some(0) {
        assert device.trace[|t0|..] == [op];
        return Ok(false);
      }
      r := RestoreKeysDir(content);
      Peel(t0, op, device.trace);
    }

    method RestoreKeysDir(content: string) returns (r: Result<bool, Raise>)
      modifies device, device.adbCmd
      ensures device.adbCmd == old(device.adbCmd) && old(device.trace) <= device.trace
      ensures Made(RestoreDirDialog(content, device.trace[|old(device.trace)|..]), device.trace[|old(device.trace)|..], r)
    {
      ghost var t0 := device.trace;
      var sh := RunShell(RestoreDirCommand);
      ghost var op := ShellOp(RestoreDirCommand, sh);
      if sh.Err? {
        assert device.trace[|t0|..] == [op];
        return Err(sh.error);
      }
      if sh.value.exitCode != Some(0) {
        assert device.trace[|t0|..] == [op];
        return Ok(false);
      }
      r := WriteKeys(content);
      Peel(t0, op, device.trace);
      ghost var s := device.trace[|t0|..];
      assert RestoreDirDialog(content, s) == After(1, WriteKeysDialog(content, s[1..]));
    }

    method WriteKeys(content: string) returns (r: Result<bool, Raise>)
      modifies device, device.adbCmd
      ensures device.adbCmd == old(device.adbCmd) && old(device.trace) <= device.trace
      ensures Made(WriteKeysDialog(content, device.trace[|old(device.trace)|..]), device.trace[|old(device.trace)|..], r)
    {
      ghost var t0 := device.trace;
      var ok := PushText(KeysPath, content);
      ghost var op := PushContentOp(KeysPath, content, DefaultMtime, ok);
      if !ok {
        assert device.trace[|t0|..] == [op];
        return Ok(false);
      }
      r := RestoreKeysFile();
      Peel(t0, op, device.trace);
      ghost var s := device.trace[|t0|..];
      assert WriteKeysDialog(content, s) == After(1, RestoreFileDialog(s[1..]));
    }

    method RestoreKeysFile() returns (r: Result<bool, Raise>)
      modifies device, device.adbCmd
      ensures device.adbCmd == old(device.adbCmd) && old(device.trace) <= device.trace
      ensures Made(RestoreFileDialog(device.trace[|old(device.trace)|..]), device.trace[|old(device.trace)|..], r)
    {
      ghost var t0 := device.trace;
      var sh := RunShell(RestoreFileCommand);
      assert device.trace[|t0|..] == [ShellOp(RestoreFileCommand, sh)];
      if sh.Err? {
        return Err(sh.error);
      }
      r := Ok(sh.value.exitCode == Some(0));
    }

    /** `mkstemp`: up to five names are tried; `picks` are the random parts drawn for them. */
    method Mkstemp(content: string, prefix: string, suffix: string, picks: seq<string>) returns (r: Option<string>)
      requires |picks| == Tries
      modifies device, device.adbCmd
      ensures device.adbCmd == old(device.adbCmd) && old(device.trace) <= device.trace
      ensures Made(MkstempDialog(content, prefix, suffix, picks, device.trace[|old(device.trace)|..]), device.trace[|old(device.trace)|..], r)
    {
      ghost var t0 := device.trace;
      var i := 0;
      while i < Tries
        invariant i <= Tries
        invariant device.adbCmd == old(device.adbCmd) && t0 <= device.trace
        invariant Failed(content, prefix, suffix, picks, 0, i, device.trace[|t0|..])
      {
        var name := NextAttempt(content, prefix, suffix, picks, i, t0);
        if name.Some? {
          return name;
        }
        i := i + 1;
      }
      FailedThen(content, prefix, suffix, picks, 0, Tries, device.trace[|t0|..], []);
      assert device.trace[|t0|..] + [] == device.trace[|t0|..];
      r := None;
    }

    /**
     * Attempt `i` of `mkstemp`, after attempts 0 to `i - 1` failed: either
     * the name it tries is the answer, or attempt `i` failed too.
     */
    method NextAttempt(content: string, prefix: string, suffix: string, picks: seq<string>, i: nat, ghost t0: seq<DeviceOp>)
      returns (r: Option<string>)
      requires |picks| == Tries && i < Tries
      requires t0 <= device.trace && Failed(content, prefix, suffix, picks, 0, i, device.trace[|t0|..])
      modifies device, device.adbCmd
      ensures device.adbCmd == old(device.adbCmd) && t0 <= device.trace
      ensures r.Some? ==> Made(MkstempDialog(content, prefix, suffix, picks, device.trace[|t0|..]), device.trace[|t0|..], r)
      ensures r.None? ==> Failed(content, prefix, suffix, picks, 0, i + 1, device.trace[|t0|..])
    {
      ghost var done := device.trace[|t0|..];
      var name := TempName(prefix, picks[i], suffix);
      ghost var t1 := device.trace;
      var ok := TryName(name, content);
      ghost var step := device.trace[|t1|..];
      SplitRun(t0, t1, device.trace);
      if ok {
        FailedThen(content, prefix, suffix, picks, 0, i, done, step);
        assert MkFrom(content, prefix, suffix, picks, i, step) == Done(Some(name), 2);
        return Some(name);
      }
      FailedExtend(content, prefix, suffix, picks, 0, i, done, step);
      r := None;
    }

    /** One attempt of `mkstemp`: a name that is not taken is written. */
    method TryName(name: string, content: string) returns (ok: bool)
      requires StartsWith(name, "/")
      modifies device, device.adbCmd
      ensures device.adbCmd == old(device.adbCmd) && old(device.trace) <= device.trace
      ensures var step := device.trace[|old(device.trace)|..];
        if ok then
          |step| == 2 && step[0].StatOp? && step[0].path == name && !Taken(step[0].info) &&
          step[1] == PushContentOp(name, content, DefaultMtime, true)
        else FailedAttempt(name, content, step)
    {
      ghost var t0 := device.trace;
      var info := StatPath(name);
      if Taken(info) {
        assert device.trace[|t0|..] == [StatOp(name, info)];
        return false;
      }
      ok := PushText(name, content);
      assert device.trace[|t0|..] == [StatOp(name, info), PushContentOp(name, content, DefaultMtime, ok)];
    }

    /** `run_shell_wrapped`; `picks` and `outPicks` are the random name parts of the script and of the output file. */
    method RunShellWrapped(commands: seq<string>, picks: seq<string>, outPicks: seq<string>) returns (r: Result<Wrapped, Raise>)
      requires |picks| == Tries && |outPicks| == Tries
      modifies device, device.adbCmd
      ensures device.adbCmd == old(device.adbCmd) && old(device.trace) <= device.trace
      ensures Made(RunWrappedDialog(commands, picks, outPicks, device.trace[|old(device.trace)|..]), device.trace[|old(device.trace)|..], r)
    {
      ghost var t0 := device.trace;
      var content := JoinTerminated(commands);
      var script := Mkstemp(content, DefaultPrefix, ".sh", picks);
      ghost var t1 := device.trace;
      if script.None? {
        return Ok(NotRun);
      }
      MadeNameIsAbsolute(content, DefaultPrefix, ".sh", picks, t1[|t0|..], script);
      r := WithScript(script.value, outPicks);
      SplitRun(t0, t1, device.trace);
      RunWrappedComposed(commands, picks, outPicks, t1[|t0|..], device.trace[|t1|..], script.value, r);
    }

    /** The body of the outer `try`: the output file is made and the script run; the script is removed last. */
    method WithScript(script: string, outPicks: seq<string>) returns (r: Result<Wrapped, Raise>)
      requires |outPicks| == Tries
      modifies device, device.adbCmd
      ensures device.adbCmd == old(device.adbCmd) && old(device.trace) <= device.trace
      ensures Made(OutfileDialog(script, outPicks, device.trace[|old(device.trace)|..]), device.trace[|old(device.trace)|..], r)
    {
      ghost var t0 := device.trace;
      var outfile := Mkstemp("", DefaultPrefix, ".txt", outPicks);
      ghost var t1 := device.trace;
      if outfile.None? {
        r := Remove(Ok(NotRun), script);
      } else {
        MadeNameIsAbsolute("", DefaultPrefix, ".txt", outPicks, t1[|t0|..], outfile);
        r := Exec(script, outfile.value);
      }
      SplitRun(t0, t1, device.trace);
      OutfileComposed(script, outPicks, t1[|t0|..], device.trace[|t1|..], outfile, r);
    }

    /** The body of the inner `try`: the script runs with its output sent to `outfile`. */
    method Exec(script: string, outfile: string) returns (r: Result<Wrapped, Raise>)
      requires StartsWith(outfile, "/")
      modifies device, device.adbCmd
      ensures device.adbCmd == old(device.adbCmd) && old(device.trace) <= device.trace
      ensures Made(ExecDialog(script, outfile, device.trace[|old(device.trace)|..]), device.trace[|old(device.trace)|..], r)
    {
      ghost var t0 := device.trace;
      var sh := RunShell(ScriptCommand(script, outfile));
      ghost var op := ShellOp(ScriptCommand(script, outfile), sh);
      if sh.Err? {
        r := Finish(Err(sh.error), script, outfile);
      } else {
        r := Collect(script, outfile, sh.value.exitCode);
      }
      Peel(t0, op, device.trace);
    }

    method Collect(script: string, outfile: string, exitCode: Option<int>) returns (r: Result<Wrapped, Raise>)
      requires StartsWith(outfile, "/")
      modifies device, device.adbCmd
      ensures device.adbCmd == old(device.adbCmd) && old(device.trace) <= device.trace
      ensures Made(CollectDialog(script, outfile, exitCode, device.trace[|old(device.trace)|..]), device.trace[|old(device.trace)|..], r)
    {
      ghost var t0 := device.trace;
      var out := PullText(outfile);
      ghost var op := PullContentOp(outfile, out);
      r := Finish(Ok(Ran(out, exitCode)), script, outfile);
      Peel(t0, op, device.trace);
    }

    /** The two `finally` clauses: the output file, then the script, is removed. */
    method Finish(pending: Result<Wrapped, Raise>, script: string, outfile: string) returns (r: Result<Wrapped, Raise>)
      modifies device, device.adbCmd
      ensures device.adbCmd == old(device.adbCmd) && old(device.trace) <= device.trace
      ensures Made(Cleanup(pending, Removals(script, outfile), device.trace[|old(device.trace)|..]), device.trace[|old(device.trace)|..], r)
    {
      ghost var t0 := device.trace;
      var p := Remove(pending, outfile);
      ghost var t1 := device.trace;
      r := Remove(p, script);
      SplitRun(t0, t1, device.trace);
      CleanupJoin(pending, RemoveCommand(outfile), RemoveCommand(script), t1[|t0|..], device.trace[|t1|..], p, r);
    }

    /** `shell('rm ' + path)` in a `finally` clause: its exception replaces `pending`. */
    method Remove(pending: Result<Wrapped, Raise>, path: string) returns (r: Result<Wrapped, Raise>)
      modifies device, device.adbCmd
      ensures device.adbCmd == old(device.adbCmd) && old(device.trace) <= device.trace
      ensures Made(Cleanup(pending, [RemoveCommand(path)], device.trace[|old(device.trace)|..]), device.trace[|old(device.trace)|..], r)
    {
      ghost var t0 := device.trace;
      var res := RunShell(RemoveCommand(path));
      assert device.trace[|t0|..] == [ShellOp(RemoveCommand(path), res)];
      assert [RemoveCommand(path)][1..] == [];
      r := Finally(pending, res);
    }
  }
}
