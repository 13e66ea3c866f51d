/**
 * `HighDevice.set_cpu_scaling_governor` and `HighDevice.set_cpu_speed`,
 * specified by the LowDevice calls they make: a governor the device does not
 * offer is replaced by the substitution table or refused; the current value
 * is read first and not rewritten when it already holds; a write through
 * `push_content` falls back to `echo` through the shell; the outcome is the
 * read-back.
 */
module CpuScaling {
  import opened Wrappers
  import opened Strings
  import opened Exceptions
  import opened AdbLow
  import opened AndroidCache
  import opened Dialog

  const GovernorPath: string := CpuFreqDir + "scaling_governor"
  const SetSpeedPath: string := CpuFreqDir + "scaling_setspeed"

  /** The bounds `set_cpu_speed` asserts, in kHz. */
  const MinSpeed: int := 10000
  const MaxSpeed: int := 10000000

  /** The message of the failed assertion on the speed argument. */
  const BadSpeed: string := "speed"

  /** The outcome of a run of calls of a setter and the number of calls it took. */
  type Run = Option<Said<Result<bool, Raise>>>

  /** `x or ''` for the result of `pull_content`. */
  function OrEmpty(got: Option<string>): string {
    if got.None? then "" else got.value
  }

  /** `op` read `path` and the stripped content was `expect`. */
  predicate ReadBack(op: DeviceOp, path: string, want: string) {
    op.PullContentOp? && op.path == path && Strip(OrEmpty(op.got)) == want
  }

  /** What `set_cpu_scaling_governor` does for a governor, given the ones the device offers. */
  datatype Plan = Write(governor: string) | ViaSpeed | Refuse

  function PlanFor(available: seq<string>, g: string): (p: Plan)
    ensures p.Write? && p.governor != g ==> g !in available
    ensures IsKnown(g, KnownGovernors) && p.Write? ==> IsKnown(p.governor, KnownGovernors)
  {
    if g in available then Write(g)
    else if g == "powersave" then ViaSpeed
    else if g == "ondemand" then KnownInteractive(); Write("interactive")
    else if g == "interactive" then KnownOndemand(); Write("ondemand")
    else Refuse
  }

  lemma KnownInteractive()
    ensures IsKnown("interactive", KnownGovernors)
  {
    IsKnownIsIn("interactive", KnownGovernors);
    assert KnownGovernors[1] == "interactive";
  }

  lemma KnownOndemand()
    ensures IsKnown("ondemand", KnownGovernors)
  {
    IsKnownIsIn("ondemand", KnownGovernors);
    assert KnownGovernors[2] == "ondemand";
  }

  lemma KnownUserspace()
    ensures IsKnown("userspace", KnownGovernors)
  {
    IsKnownIsIn("userspace", KnownGovernors);
    assert KnownGovernors[5] == "userspace";
  }

  // ------------------------------------------------------------- dialogs

  /** `set_cpu_scaling_governor(g)`. */
  function GovernorDialog(cache: DeviceCache, g: string, ops: seq<DeviceOp>): (d: Run)
    requires IsKnown(g, KnownGovernors)
    ensures d.Some? ==> d.value.used <= |ops|
    decreases if g == "powersave" then 2 else 0
  {
    match PlanFor(cache.availableGovernors, g)
    case Refuse => Done(Ok(false), 0)
    case ViaSpeed => SpeedDialog(cache, cache.cpuinfoMinFreq, ops)
    case Write(w) => WriteDialog(w, ops)
  }

  /** `set_cpu_speed(speed)`: the assertions on the argument, the switch to `userspace`, then the write. */
  function SpeedDialog(cache: DeviceCache, speed: Freq, ops: seq<DeviceOp>): (d: Run)
    ensures d.Some? ==> d.value.used <= |ops|
    decreases 1
  {
    if !speed.Hz? || !(MinSpeed <= speed.value <= MaxSpeed) then Done(Err(AssertionError(BadSpeed)), 0)
    else
      KnownUserspace();
      SpeedThen(IntToString(speed.value), GovernorDialog(cache, "userspace", ops), ops)
  }

  /**
   * After the switch to `userspace`, which took the first calls of `ops`,
   * the speed, `text` in decimal, is written whatever the switch returned.
   */
  function SpeedThen(text: string, switched: Run, ops: seq<DeviceOp>): (d: Run)
    requires switched.Some? ==> switched.value.used <= |ops|
    ensures d.Some? ==> d.value.used <= |ops|
  {
    match switched
    case None => None
    case Some(Said(Err(e), n)) => Done(Err(e), n)
    case Some(Said(Ok(success), n)) => After(n, SetSpeedDialog(text, success, ops[n..]))
  }

  /** The current governor is read; the write is skipped when it already holds `w`. */
  function WriteDialog(w: string, ops: seq<DeviceOp>): (d: Run)
    ensures d.Some? ==> 0 < d.value.used <= |ops|
  {
    match PullReply(GovernorPath, ops)
    case None => None
    case Some(prev) =>
      if prev.Some? && prev.value != "" && Strip(prev.value) == w then Done(Ok(true), 1)
      else After(1, PushGovernorDialog(w, ops[1..]))
  }

  /** The governor is written with `push_content`, or through the shell when that fails. */
  function PushGovernorDialog(w: string, ops: seq<DeviceOp>): (d: Run)
    ensures d.Some? ==> 0 < d.value.used <= |ops|
  {
    match PushReply(GovernorPath, w + "\n", ops)
    case None => None
    case Some(ok) => After(1, if ok then ConfirmDialog(w, ops[1..]) else EchoDialog(w, ops[1..]))
  }

  function EchoCommand(w: string): string {
    "echo \"" + w + "\" > " + GovernorPath
  }

  /** The shell fallback; a non-zero exit code gives False. */
  function EchoDialog(w: string, ops: seq<DeviceOp>): (d: Run)
    ensures d.Some? ==> 0 < d.value.used <= |ops|
  {
    match ShellReply(EchoCommand(w), ops)
    case None => None
    case Some(Err(e)) => Done(Err(e), 1)
    case Some(Ok(sh)) => if sh.exitCode != Some(0) then Done(Ok(false), 1) else After(1, ConfirmDialog(w, ops[1..]))
  }

  /** The governor is read back. */
  function ConfirmDialog(w: string, ops: seq<DeviceOp>): (d: Run)
    ensures d.Some? ==> d.value.used == 1 <= |ops|
  {
    match PullReply(GovernorPath, ops)
    case None => None
    case Some(got) => Done(Ok(Strip(OrEmpty(got)) == w), 1)
  }

  /** The speed, `text` in decimal, is written; a failed write gives False. */
  function SetSpeedDialog(text: string, success: bool, ops: seq<DeviceOp>): (d: Run)
    ensures d.Some? ==> 0 < d.value.used <= |ops|
  {
    match PushReply(SetSpeedPath, text + "\n", ops)
    case None => None
    case Some(ok) => if !ok then Done(Ok(false), 1) else After(1, ReadSpeedDialog(text, success, ops[1..]))
  }

  /** The speed is read back; the outcome also needs the governor switch to have worked. */
  function ReadSpeedDialog(text: string, success: bool, ops: seq<DeviceOp>): (d: Run)
    ensures d.Some? ==> d.value.used == 1 <= |ops|
  {
    match PullReply(SetSpeedPath, ops)
    case None => None
    case Some(got) => Done(Ok(success && Strip(OrEmpty(got)) == text), 1)
  }

  // --------------------------------------------------- prefix stability

  lemma ConfirmStable(w: string, ops: seq<DeviceOp>, more: seq<DeviceOp>)
    requires ConfirmDialog(w, ops).Some?
    ensures ConfirmDialog(w, ops + more) == ConfirmDialog(w, ops)
  {
    RepliesExtend(ops, more, "", GovernorPath, "");
  }

  lemma EchoStable(w: string, ops: seq<DeviceOp>, more: seq<DeviceOp>)
    requires EchoDialog(w, ops).Some?
    ensures EchoDialog(w, ops + more) == EchoDialog(w, ops)
  {
    RepliesExtend(ops, more, EchoCommand(w), GovernorPath, "");
    var sh := ops[0].result;
    if sh.Ok? && sh.value.exitCode == Some(0) {
      ConfirmStable(w, ops[1..], more);
    }
  }

  lemma PushGovernorStable(w: string, ops: seq<DeviceOp>, more: seq<DeviceOp>)
    requires PushGovernorDialog(w, ops).Some?
    ensures PushGovernorDialog(w, ops + more) == PushGovernorDialog(w, ops)
  {
    RepliesExtend(ops, more, "", GovernorPath, w + "\n");
    if ops[0].ok {
      ConfirmStable(w, ops[1..], more);
    } else {
      EchoStable(w, ops[1..], more);
    }
  }

  lemma WriteStable(w: string, ops: seq<DeviceOp>, more: seq<DeviceOp>)
    requires WriteDialog(w, ops).Some?
    ensures WriteDialog(w, ops + more) == WriteDialog(w, ops)
  {
    RepliesExtend(ops, more, "", GovernorPath, "");
    var prev := ops[0].got;
    if !(prev.Some? && prev.value != "" && Strip(prev.value) == w) {
      PushGovernorStable(w, ops[1..], more);
    }
  }

  lemma ReadSpeedStable(text: string, success: bool, ops: seq<DeviceOp>, more: seq<DeviceOp>)
    requires ReadSpeedDialog(text, success, ops).Some?
    ensures ReadSpeedDialog(text, success, ops + more) == ReadSpeedDialog(text, success, ops)
  {
    RepliesExtend(ops, more, "", SetSpeedPath, "");
  }

  lemma SetSpeedStable(text: string, success: bool, ops: seq<DeviceOp>, more: seq<DeviceOp>)
    requires SetSpeedDialog(text, success, ops).Some?
    ensures SetSpeedDialog(text, success, ops + more) == SetSpeedDialog(text, success, ops)
  {
    RepliesExtend(ops, more, "", SetSpeedPath, text + "\n");
    if ops[0].ok {
      ReadSpeedStable(text, success, ops[1..], more);
    }
  }

  // --------------------------------------------------- one call, then the rest

  /** A read of the governor that differs from `w`, then a run of the write, is a run of `WriteDialog`. */
  lemma WriteStep(w: string, t0: seq<DeviceOp>, prev: Option<string>, t: seq<DeviceOp>, r: Result<bool, Raise>)
    requires t0 + [PullContentOp(GovernorPath, prev)] <= t
    requires !(prev.Some? && prev.value != "" && Strip(prev.value) == w)
    requires Made(PushGovernorDialog(w, t[|t0| + 1..]), t[|t0| + 1..], r)
    ensures Made(WriteDialog(w, t[|t0|..]), t[|t0|..], r)
  {
    Peel(t0, PullContentOp(GovernorPath, prev), t);
  }

  /** A read of the governor that already holds `w` is a whole run of `WriteDialog`, giving True. */
  lemma WriteSkipped(w: string, t0: seq<DeviceOp>, prev: Option<string>, t: seq<DeviceOp>)
    requires t == t0 + [PullContentOp(GovernorPath, prev)]
    requires prev.Some? && prev.value != "" && Strip(prev.value) == w
    ensures Made(WriteDialog(w, t[|t0|..]), t[|t0|..], Ok(true))
  {
    assert t[|t0|..] == [PullContentOp(GovernorPath, prev)];
  }

  /** A push of the governor, then its confirmation or the shell fallback, is a run of `PushGovernorDialog`. */
  lemma PushGovernorStep(w: string, t0: seq<DeviceOp>, ok: bool, t: seq<DeviceOp>, r: Result<bool, Raise>)
    requires t0 + [PushContentOp(GovernorPath, w + "\n", DefaultMtime, ok)] <= t
    requires ok ==> Made(ConfirmDialog(w, t[|t0| + 1..]), t[|t0| + 1..], r)
    requires !ok ==> Made(EchoDialog(w, t[|t0| + 1..]), t[|t0| + 1..], r)
    ensures Made(PushGovernorDialog(w, t[|t0|..]), t[|t0|..], r)
  {
    Peel(t0, PushContentOp(GovernorPath, w + "\n", DefaultMtime, ok), t);
  }

  /** An `echo` into the governor file, then the confirmation when it succeeded, is a run of `EchoDialog`. */
  lemma EchoStep(w: string, sh: Result<ShellOut, Raise>, s: seq<DeviceOp>, r: Result<bool, Raise>)
    requires |s| > 0 && s[0] == ShellOp(EchoCommand(w), sh)
    requires sh.Ok? && sh.value.exitCode == Some(0) ==> Made(ConfirmDialog(w, s[1..]), s[1..], r)
    requires sh.Err? ==> |s| == 1 && r == Err(sh.error)
    requires sh.Ok? && sh.value.exitCode != Some(0) ==> |s| == 1 && r == Ok(false)
    ensures Made(EchoDialog(w, s), s, r)
  {
  }

  /** A run of `set_cpu_scaling_governor` is read the same whatever calls come after it. */
  lemma GovernorStable(cache: DeviceCache, g: string, ops: seq<DeviceOp>, more: seq<DeviceOp>)
    requires IsKnown(g, KnownGovernors) && GovernorDialog(cache, g, ops).Some?
    ensures GovernorDialog(cache, g, ops + more) == GovernorDialog(cache, g, ops)
    decreases if g == "powersave" then 2 else 0
  {
    match PlanFor(cache.availableGovernors, g)
    case Refuse =>
    case ViaSpeed => SpeedStable(cache, cache.cpuinfoMinFreq, ops, more);
    case Write(w) => WriteStable(w, ops, more);
  }

  lemma SpeedStable(cache: DeviceCache, speed: Freq, ops: seq<DeviceOp>, more: seq<DeviceOp>)
    requires SpeedDialog(cache, speed, ops).Some?
    ensures SpeedDialog(cache, speed, ops + more) == SpeedDialog(cache, speed, ops)
    decreases 1
  {
    if speed.Hz? && MinSpeed <= speed.value <= MaxSpeed {
      KnownUserspace();
      GovernorStable(cache, "userspace", ops, more);
      SpeedThenStable(IntToString(speed.value), GovernorDialog(cache, "userspace", ops), ops, more);
    }
  }

  lemma SpeedThenStable(text: string, switched: Run, ops: seq<DeviceOp>, more: seq<DeviceOp>)
    requires switched.Some? ==> switched.value.used <= |ops|
    requires SpeedThen(text, switched, ops).Some?
    ensures SpeedThen(text, switched, ops + more) == SpeedThen(text, switched, ops)
  {
    var s := switched.value;
    if s.result.Ok? {
      assert (ops + more)[s.used..] == ops[s.used..] + more;
      SetSpeedStable(text, s.result.value, ops[s.used..], more);
    }
  }

  /** A switch to `userspace` followed by a run of the speed write is a run of `set_cpu_speed`. */
  lemma SpeedComposed(cache: DeviceCache, speed: int, s1: seq<DeviceOp>, s2: seq<DeviceOp>, switched: bool, r: Result<bool, Raise>)
    requires MinSpeed <= speed <= MaxSpeed && IsKnown("userspace", KnownGovernors)
    requires Made(GovernorDialog(cache, "userspace", s1), s1, Ok(switched))
    requires Made(SetSpeedDialog(IntToString(speed), switched, s2), s2, r)
    ensures Made(SpeedDialog(cache, Hz(speed), s1 + s2), s1 + s2, r)
  {
    var ops := s1 + s2;
    GovernorStable(cache, "userspace", s1, s2);
    assert ops[|s1|..] == s2;
    SpeedThenAfter(IntToString(speed), switched, |s1|, ops, r);
  }

  lemma SpeedThenAfter(text: string, switched: bool, n: nat, ops: seq<DeviceOp>, r: Result<bool, Raise>)
    requires n <= |ops| && Made(SetSpeedDialog(text, switched, ops[n..]), ops[n..], r)
    ensures Made(SpeedThen(text, Some(Said(Ok(switched), n)), ops), ops, r)
  {
  }

  /** A failed switch to `userspace` ends `set_cpu_speed` with its exception. */
  lemma SpeedSwitchFailed(cache: DeviceCache, speed: int, s1: seq<DeviceOp>, e: Raise)
    requires MinSpeed <= speed <= MaxSpeed && IsKnown("userspace", KnownGovernors)
    requires Made(GovernorDialog(cache, "userspace", s1), s1, Err(e))
    ensures Made(SpeedDialog(cache, Hz(speed), s1), s1, Err(e))
  {
    assert SpeedDialog(cache, Hz(speed), s1) == SpeedThen(IntToString(speed), GovernorDialog(cache, "userspace", s1), s1);
  }

  // ---------------------------------------------------------- properties

  /** A governor that is neither offered nor in the substitution table is refused without any call. */
  lemma GovernorRefused(cache: DeviceCache, g: string, ops: seq<DeviceOp>)
    requires IsKnown(g, KnownGovernors) && g !in cache.availableGovernors
    requires g != "powersave" && g != "ondemand" && g != "interactive"
    ensures GovernorDialog(cache, g, ops) == Done(Ok(false), 0)
  {
  }

  /** The governor `set_cpu_scaling_governor` writes in place of an unavailable `ondemand` or `interactive`. */
  function Swapped(g: string): string {
    if g == "ondemand" then "interactive" else "ondemand"
  }

  lemma SwapIsWrite(cache: DeviceCache, g: string, ops: seq<DeviceOp>)
    requires (g == "ondemand" || g == "interactive") && IsKnown(g, KnownGovernors)
    requires g !in cache.availableGovernors
    ensures GovernorDialog(cache, g, ops) == WriteDialog(Swapped(g), ops)
  {
    assert PlanFor(cache.availableGovernors, g) == Write(Swapped(g));
  }

  /**
   * `ondemand` and `interactive`, when not offered, stand in for each other:
   * the first call reads the governor file, a write puts the other governor
   * there, and the result is True exactly when the last call read the other
   * governor back.
   */
  lemma SubstitutedGovernor(cache: DeviceCache, g: string, ops: seq<DeviceOp>)
    requires (g == "ondemand" || g == "interactive") && IsKnown(g, KnownGovernors)
    requires g !in cache.availableGovernors
    requires GovernorDialog(cache, g, ops).Some? && GovernorDialog(cache, g, ops).value.result.Ok?
    ensures var d := GovernorDialog(cache, g, ops).value;
      ops[0] == PullContentOp(GovernorPath, ops[0].got)
      && (d.result.value <==> ReadBack(ops[d.used - 1], GovernorPath, Swapped(g)))
      && (d.used > 1 ==> ops[1] == PushContentOp(GovernorPath, Swapped(g) + "\n", DefaultMtime, ops[1].ok))
  {
    SwapIsWrite(cache, g, ops);
    WriteFirstRead(Swapped(g), ops);
    WriteOutcome(Swapped(g), ops);
    if WriteDialog(Swapped(g), ops).value.used > 1 {
      WriteFallsBackToShell(Swapped(g), ops);
    }
  }

  /** `powersave`, when not offered, is `set_cpu_speed` at the minimum frequency. */
  lemma PowersaveIsMinSpeed(cache: DeviceCache, ops: seq<DeviceOp>)
    requires IsKnown("powersave", KnownGovernors) && "powersave" !in cache.availableGovernors
    ensures GovernorDialog(cache, "powersave", ops) == SpeedDialog(cache, cache.cpuinfoMinFreq, ops)
  {
  }

  /** The governor file is written only when its current content is not `w`: one call means it was already set. */
  lemma WriteOnlyWhenDifferent(w: string, ops: seq<DeviceOp>)
    requires WriteDialog(w, ops).Some?
    ensures var d := WriteDialog(w, ops).value;
      d.used == 1 <==> ops[0].got.Some? && ops[0].got.value != "" && Strip(ops[0].got.value) == w
    ensures WriteDialog(w, ops).value.used == 1 ==> WriteDialog(w, ops).value.result == Ok(true)
  {
  }

  /** Writing the governor starts with a read of the governor file. */
  lemma WriteFirstRead(w: string, ops: seq<DeviceOp>)
    requires WriteDialog(w, ops).Some?
    ensures ops[0] == PullContentOp(GovernorPath, ops[0].got)
  {
  }

  /** After the read, `push_content` writes `w` and a line break; only when it fails does the shell run `echo`. */
  lemma WriteFallsBackToShell(w: string, ops: seq<DeviceOp>)
    requires WriteDialog(w, ops).Some? && WriteDialog(w, ops).value.used > 1
    ensures ops[1] == PushContentOp(GovernorPath, w + "\n", DefaultMtime, ops[1].ok)
    ensures WriteDialog(w, ops).value.used > 2
    ensures ops[1].ok ==> ops[2].PullContentOp? && ops[2].path == GovernorPath
    ensures !ops[1].ok ==> ops[2].ShellOp? && ops[2].cmd == EchoCommand(w)
  {
    var t := ops[1..];
    assert PushGovernorDialog(w, t).Some?;
    if t[0].ok {
      assert ConfirmDialog(w, t[1..]).Some?;
    } else {
      assert EchoDialog(w, t[1..]).Some?;
    }
  }

  lemma ConfirmOutcome(w: string, ops: seq<DeviceOp>)
    requires ConfirmDialog(w, ops).Some?
    ensures var d := ConfirmDialog(w, ops).value;
      d.result.Ok? && (d.result.value <==> ReadBack(ops[d.used - 1], GovernorPath, w))
  {
  }

  lemma EchoOutcome(w: string, ops: seq<DeviceOp>)
    requires EchoDialog(w, ops).Some? && EchoDialog(w, ops).value.result.Ok?
    ensures var d := EchoDialog(w, ops).value;
      d.result.value <==> ReadBack(ops[d.used - 1], GovernorPath, w)
  {
    var sh := ops[0].result;
    if sh.value.exitCode == Some(0) {
      ConfirmOutcome(w, ops[1..]);
    }
  }

  /**
   * Writing the governor succeeds exactly when the last call read the
   * governor file back as `w` (the first read, when nothing was written).
   */
  lemma WriteOutcome(w: string, ops: seq<DeviceOp>)
    requires WriteDialog(w, ops).Some? && WriteDialog(w, ops).value.result.Ok?
    ensures var d := WriteDialog(w, ops).value;
      d.result.value <==> ReadBack(ops[d.used - 1], GovernorPath, w)
  {
    var prev := ops[0].got;
    if !(prev.Some? && prev.value != "" && Strip(prev.value) == w) {
      var t := ops[1..];
      var n := WriteDialog(w, ops).value.used;
      assert ops[n - 1] == t[1..][n - 3];
      if t[0].ok {
        ConfirmOutcome(w, t[1..]);
      } else {
        EchoOutcome(w, t[1..]);
      }
    }
  }

  /** The speed is set exactly when the governor switch worked and the last call read the speed back. */
  lemma SetSpeedOutcome(text: string, success: bool, ops: seq<DeviceOp>)
    requires SetSpeedDialog(text, success, ops).Some?
    ensures var d := SetSpeedDialog(text, success, ops).value;
      d.result.Ok? && (d.result.value <==> success && ReadBack(ops[d.used - 1], SetSpeedPath, text))
  {
    if ops[0].ok {
      var t := ops[1..];
      assert SetSpeedDialog(text, success, ops) == After(1, ReadSpeedDialog(text, success, t));
      assert ReadSpeedDialog(text, success, t) == Done(Ok(success && ReadBack(t[0], SetSpeedPath, text)), 1);
      assert ops[1] == t[0];
    }
  }

  /**
   * `set_cpu_speed` writes the speed whatever the switch to `userspace`
   * returned: the call after the switch's calls is that write.
   */
  lemma SpeedAlwaysWrites(cache: DeviceCache, speed: int, ops: seq<DeviceOp>)
    requires MinSpeed <= speed <= MaxSpeed
    requires IsKnown("userspace", KnownGovernors)
    requires SpeedDialog(cache, Hz(speed), ops).Some?
    requires GovernorDialog(cache, "userspace", ops).Some? && GovernorDialog(cache, "userspace", ops).value.result.Ok?
    ensures var k := GovernorDialog(cache, "userspace", ops).value.used;
      k < SpeedDialog(cache, Hz(speed), ops).value.used &&
      ops[k] == PushContentOp(SetSpeedPath, IntToString(speed) + "\n", DefaultMtime, ops[k].ok)
    ensures SpeedDialog(cache, Hz(speed), ops).value.result == Ok(true) ==>
      GovernorDialog(cache, "userspace", ops).value.result == Ok(true)
  {
    var g := GovernorDialog(cache, "userspace", ops).value;
    var t := ops[g.used..];
    assert SpeedDialog(cache, Hz(speed), ops) == After(g.used, SetSpeedDialog(IntToString(speed), g.result.value, t));
    SetSpeedOutcome(IntToString(speed), g.result.value, t);
  }
}
