/**
 * `LowDevice` of the Android platform layer: an exception-safe wrapper around
 * one ADB connection. Each primitive tries the transport at most `tries` times,
 * turns USB faults into sentinel results, reports each fault to `on_error` and
 * remembers that a reset was wanted.
 *
 * The transport (`adb_commands.AdbCommands`) is an oracle: for each kind of
 * command it says what the n-th call on the connection does (answers, raises
 * a USB fault, or raises `AdbCommandFailureException`). A proof about every
 * oracle is a proof about every transport behaviour.
 */
module AdbLow {
  import opened Wrappers
  import opened Strings
  import opened Exceptions

  /** What one transport call does. */
  datatype Reply<T> =
    | Answer(value: T)
    /** One of `LowDevice._ERRORS` (`CommonUsbError`, `USBError`). */
    | UsbFault(error: string)
    /** `AdbCommandFailureException`. */
    | CommandFailed(error: string)

  /** Scripted replies of one transport command, in call order; past the script the device is gone. */
  datatype Script<T> = Script(replies: seq<Reply<T>>) {
    function At(i: nat): Reply<T> {
      if i < |replies| then replies[i] else UsbFault("device gone")
    }
  }

  datatype DirEntry = DirEntry(filename: string, mode: int, size: int, mtime: int)
  datatype StatInfo = StatInfo(mode: int, size: int, mtime: int)

  /** `(stdout, exit_code)` of a shell command; None where Python has None. */
  datatype ShellOut = ShellOut(out: Option<string>, exitCode: Option<int>)

  /** A fault seen by the retry template: the caller, its arguments, the error. */
  datatype Fault = Fault(fn: string, args: string, error: string)

  /** One LowDevice call as the layers above see it: arguments and result. */
  datatype DeviceOp =
    | ListOp(path: string, entries: Option<seq<DirEntry>>)
    | StatOp(path: string, info: Option<StatInfo>)
    | PullOp(remote: string, dest: string, ok: bool)
    | PullContentOp(path: string, got: Option<string>)
    | PushOp(local: string, dest: string, mtime: string, ok: bool)
    | PushContentOp(dest: string, content: string, mtime: string, ok: bool)
    | RebootOp(ok: bool)
    | RemountOp(ok: bool)
    | ShellOp(cmd: string, result: Result<ShellOut, Raise>)
    | ShellRawOp(cmd: string, result: Result<ShellOut, Raise>)
    | IsRootOp(root: Result<Option<bool>, Raise>)
    | RootOp(rootResult: Result<bool, Raise>)
    | UserOp(userResult: Result<bool, Raise>)

  /** The transport: one reply function per command, indexed by call number. */
  class AdbCommands {
    const list: Script<seq<DirEntry>>
    const stat: Script<StatInfo>
    const pull: Script<string>
    const push: Script<()>
    const reboot: Script<string>
    const remount: Script<string>
    const shell: Script<string>
    const root: Script<string>
    /** How many transport calls were made so far. */
    var calls: nat

    constructor (list: Script<seq<DirEntry>>, stat: Script<StatInfo>,
                 pull: Script<string>, push: Script<()>,
                 reboot: Script<string>, remount: Script<string>,
                 shell: Script<string>, root: Script<string>)
      ensures this.list == list && this.stat == stat && this.pull == pull
      ensures this.push == push && this.reboot == reboot && this.remount == remount
      ensures this.shell == shell && this.root == root && calls == 0
    {
      this.list, this.stat, this.pull, this.push := list, stat, pull, push;
      this.reboot, this.remount, this.shell, this.root := reboot, remount, shell, root;
      calls := 0;
    }
  }

  // ------------------------------------------------------ retry template

  /**
   * What the retry template did: the reply that ended it (None when every
   * attempt faulted), the faults it reported, the calls it made.
   */
  datatype RetryRun<T> = RetryRun(last: Option<Reply<T>>, faults: seq<Fault>, calls: nat) {
    /** What the primitives return: the answer, or None for the sentinel. */
    function Answered(): Option<T> {
      AnswerOf(last)
    }
  }

  /** The answer in a final reply; None when it was a command failure or there was none. */
  function AnswerOf<T>(last: Option<Reply<T>>): (r: Option<T>)
    ensures r.Some? <==> last.Some? && last.value.Answer?
    ensures r.Some? ==> last == Some(Answer(r.value))
  {
    match last
    case Some(Answer(v)) => Some(v)
    case _ => None
  }

  /**
   * The retry template of every primitive: up to `n` attempts; an
   * answer or an `AdbCommandFailureException` ends it at once, a USB fault is
   * reported and retried.
   */
  function RunAttempts<T>(answer: Script<T>, start: nat, n: nat, fn: string, args: string): (run: RetryRun<T>)
    ensures run.calls <= n
    ensures run.last.Some? ==> 0 < run.calls && !run.last.value.UsbFault?
    decreases n
  {
    if n == 0 then RetryRun(None, [], 0)
    else if answer.At(start).UsbFault? then
      var rest := RunAttempts(answer, start + 1, n - 1, fn, args);
      RetryRun(rest.last, [Fault(fn, args, answer.At(start).error)] + rest.faults, rest.calls + 1)
    else RetryRun(Some(answer.At(start)), [], 1)
  }

  /** The transport raised the USB faults `faults`, in order, from call `start` on. */
  predicate AllFaults<T>(answer: Script<T>, start: nat, faults: seq<Fault>, fn: string, args: string) {
    forall k :: 0 <= k < |faults| ==> FaultAt(answer, start + k, fn, args, faults[k])
  }

  lemma AllFaultsAppend<T>(answer: Script<T>, start: nat, faults: seq<Fault>, fn: string, args: string)
    requires AllFaults(answer, start, faults, fn, args) && answer.At(start + |faults|).UsbFault?
    ensures AllFaults(answer, start, faults + [Fault(fn, args, answer.At(start + |faults|).error)], fn, args)
  {
  }

  /** Every attempt faulted: the budget is spent and nothing is returned. */
  lemma {:induction false} RetryExhausted<T>(answer: Script<T>, start: nat, n: nat, faults: seq<Fault>, fn: string, args: string)
    requires |faults| == n && AllFaults(answer, start, faults, fn, args)
    ensures RunAttempts(answer, start, n, fn, args) == RetryRun(None, faults, n)
    decreases n
  {
    if n > 0 {
      assert FaultAt(answer, start + 0, fn, args, faults[0]);
      assert AllFaults(answer, start + 1, faults[1..], fn, args) by {
        forall k | 0 <= k < |faults[1..]| ensures FaultAt(answer, start + 1 + k, fn, args, faults[1..][k]) {
          assert FaultAt(answer, start + (k + 1), fn, args, faults[k + 1]);
        }
      }
      RetryExhausted(answer, start + 1, n - 1, faults[1..], fn, args);
      assert faults == [faults[0]] + faults[1..];
    }
  }

  /** The attempt after the faults `faults` answered or failed: the run stops there. */
  lemma {:induction false} RetryStopped<T>(answer: Script<T>, start: nat, n: nat, faults: seq<Fault>, fn: string, args: string)
    requires |faults| < n && AllFaults(answer, start, faults, fn, args)
    requires !answer.At(start + |faults|).UsbFault?
    ensures RunAttempts(answer, start, n, fn, args) == RetryRun(Some(answer.At(start + |faults|)), faults, |faults| + 1)
    decreases n
  {
    if |faults| > 0 {
      assert FaultAt(answer, start + 0, fn, args, faults[0]);
      assert AllFaults(answer, start + 1, faults[1..], fn, args) by {
        forall k | 0 <= k < |faults[1..]| ensures FaultAt(answer, start + 1 + k, fn, args, faults[1..][k]) {
          assert FaultAt(answer, start + (k + 1), fn, args, faults[k + 1]);
        }
      }
      assert start + 1 + |faults[1..]| == start + |faults|;
      RetryStopped(answer, start + 1, n - 1, faults[1..], fn, args);
      assert faults == [faults[0]] + faults[1..];
    } else {
      assert faults + [] == faults;
    }
  }

  /** The faults reported are exactly the USB faults the transport raised, in order. */
  lemma {:induction false} RunAttemptsFaults<T>(answer: Script<T>, start: nat, n: nat, fn: string, args: string)
    ensures forall k :: 0 <= k < |RunAttempts(answer, start, n, fn, args).faults| ==>
      FaultAt(answer, start + k, fn, args, RunAttempts(answer, start, n, fn, args).faults[k])
    decreases n
  {
    if n > 0 && answer.At(start).UsbFault? {
      RunAttemptsFaults(answer, start + 1, n - 1, fn, args);
      var run := RunAttempts(answer, start, n, fn, args);
      var rest := RunAttempts(answer, start + 1, n - 1, fn, args);
      assert run.faults == [Fault(fn, args, answer.At(start).error)] + rest.faults;
      assert forall j :: 0 <= j < |rest.faults| ==> FaultAt(answer, start + 1 + j, fn, args, rest.faults[j]);
      forall k | 0 <= k < |run.faults| ensures FaultAt(answer, start + k, fn, args, run.faults[k]) {
        if k > 0 {
          var j := k - 1;
          assert run.faults[k] == rest.faults[j];
          assert 0 <= j < |rest.faults|;
          assert FaultAt(answer, start + 1 + j, fn, args, rest.faults[j]);
          assert start + 1 + j == start + k;
        }
      }
    }
  }

  /** The `k`-th transport call raised the USB fault `f` reports. */
  predicate FaultAt<T>(answer: Script<T>, k: nat, fn: string, args: string, f: Fault) {
    answer.At(k).UsbFault? && f == Fault(fn, args, answer.At(k).error)
  }

  /** A transport that only faults uses the whole budget and reports every fault. */
  lemma {:induction false} AllFaultsExhaust<T>(answer: Script<T>, start: nat, n: nat, fn: string, args: string)
    requires forall k :: start <= k < start + n ==> answer.At(k).UsbFault?
    ensures RunAttempts(answer, start, n, fn, args).last == None
    ensures RunAttempts(answer, start, n, fn, args).calls == n
    ensures |RunAttempts(answer, start, n, fn, args).faults| == n
    decreases n
  {
    if n > 0 {
      assert answer.At(start).UsbFault?;
      AllFaultsExhaust(answer, start + 1, n - 1, fn, args);
    }
  }

  /**
   * The template yields a value exactly when some attempt within the budget
   * answered it and every earlier attempt was a USB fault.
   */
  lemma {:induction false} RunAttemptsSucceeds<T>(answer: Script<T>, start: nat, n: nat, fn: string, args: string, v: T)
    ensures RunAttempts(answer, start, n, fn, args).Answered() == Some(v) <==>
      exists i :: (start <= i < start + n && answer.At(i) == Answer(v) &&
        forall j :: start <= j < i ==> answer.At(j).UsbFault?)
    decreases n
  {
    if n > 0 {
      var run := RunAttempts(answer, start, n, fn, args);
      if answer.At(start).UsbFault? {
        var rest := RunAttempts(answer, start + 1, n - 1, fn, args);
        assert run.last == rest.last;
        RunAttemptsSucceeds(answer, start + 1, n - 1, fn, args, v);
        if exists i :: (start <= i < start + n && answer.At(i) == Answer(v) &&
          forall j :: start <= j < i ==> answer.At(j).UsbFault?)
        {
          var i :| start <= i < start + n && answer.At(i) == Answer(v) &&
            forall j :: start <= j < i ==> answer.At(j).UsbFault?;
          assert start + 1 <= i < start + 1 + (n - 1);
        }
      } else {
        assert run.last == Some(answer.At(start));
        if exists i :: (start <= i < start + n && answer.At(i) == Answer(v) &&
          forall j :: start <= j < i ==> answer.At(j).UsbFault?)
        {
          var i :| start <= i < start + n && answer.At(i) == Answer(v) &&
            forall j :: start <= j < i ==> answer.At(j).UsbFault?;
          assert i == start;
        }
        if run.Answered() == Some(v) {
          assert answer.At(start) == Answer(v);
        }
      }
    }
  }

  /** `AdbCommandFailureException` on the first attempt ends the template with the sentinel. */
  lemma CommandFailureStops<T>(answer: Script<T>, start: nat, n: nat, fn: string, args: string)
    requires n > 0 && answer.At(start).CommandFailed?
    ensures RunAttempts(answer, start, n, fn, args) == RetryRun(Some(answer.At(start)), [], 1)
    ensures RunAttempts(answer, start, n, fn, args).Answered() == None
  {
  }

  // ------------------------------------------------------------ shell_raw

  /** What `shell_raw` appends to learn the exit code (the `\n` is a newline). */
  const ExitProbe: string := " ;echo -e \"\n$?\""
  /** The longest command the adb shell accepts, in UTF-8 bytes. */
  const MaxCommandLength: nat := 512

  /** Every character of the probe is ASCII. */
  lemma ProbeIsAscii()
    ensures IsAscii(ExitProbe)
  {
    forall k | 0 <= k < |ExitProbe| ensures ExitProbe[k] as int < 0x80 {
      assert ExitProbe[k] in " ;echo-\"\n$?";
    }
  }

  /** The encoded command is the command's bytes plus one byte per probe character. */
  lemma ProbedLength(cmd: string)
    ensures Utf8Length(cmd + ExitProbe) == Utf8Length(cmd) + |ExitProbe|
    ensures IsAscii(cmd) ==> Utf8Length(cmd + ExitProbe) == |cmd| + |ExitProbe|
  {
    ProbeIsAscii();
    Utf8LengthAppendAscii(cmd, ExitProbe);
  }
  const IdCommand: string := "id"

  /**
   * The output of `cmd + ExitProbe` after `shell_raw`'s post-processing:
   * empty output has no exit code; otherwise CRLF becomes LF, the output must
   * end in '\n', and its last line is the exit code.
   */
  function ParseShellOutput(out: string): (r: Result<ShellOut, Raise>)
    ensures r.Ok? ==> r.value.out.Some?
    ensures r.Ok? && |out| > 0 ==> r.value.exitCode.Some? && '\n' in ReplaceCrLf(out)
    ensures r.Err? ==> r.error.AssertionError? || r.error.IndexError? || r.error.ValueError?
  {
    if |out| == 0 then Ok(ShellOut(Some(out), None))
    else
      var o := ReplaceCrLf(out);
      if o[|o| - 1] != '\n' then Err(AssertionError(o))
      else
        var body := o[..|o| - 1];
        match LastIndexOf(body, '\n')
        case None => Err(IndexError)
        case Some(i) =>
          match ParseInt(body[i + 1..])
          case None => Err(ValueError(body[i + 1..]))
          case Some(code) => Ok(ShellOut(Some(body[..i]), Some(code)))
  }

  /** "hi\n0\n" is the text "hi" and the exit code 0. */
  lemma ParseShellOutputExample()
    ensures ParseShellOutput("hi\n0\n") == Ok(ShellOut(Some("hi"), Some(0)))
  {
    assert IntToString(0) == "0";
    assert "hi\n0\n" == "hi" + "\n" + IntToString(0) + "\n";
    ParseShellOutputRoundTrip("hi", 0);
  }

  /**
   * What the probe produces is read back: output `text` (without '\r') followed
   * by the echoed newline and exit code gives `text` and the code.
   */
  lemma ParseShellOutputRoundTrip(text: string, code: int)
    requires '\r' !in text
    ensures ParseShellOutput(text + "\n" + IntToString(code) + "\n") == Ok(ShellOut(Some(text), Some(code)))
  {
    var c := IntToString(code);
    var out := text + "\n" + c + "\n";
    IntToStringShape(code);
    assert '\r' !in out;
    assert ReplaceCrLf(out) == out;
    var body := out[..|out| - 1];
    assert body == text + "\n" + c;
    LastIndexOfAfter(text, '\n', c);
    assert body[|text| + 1..] == c;
    assert body[..|text|] == text;
    IntToStringRoundTrip(code);
  }

  /** The last `ch` of `t + [ch] + c` is the one after `t` when `c` holds none. */
  lemma {:induction false} LastIndexOfAfter(t: string, ch: char, c: string)
    requires ch !in c
    ensures LastIndexOf(t + [ch] + c, ch) == Some(|t|)
    decreases |c|
  {
    var s := t + [ch] + c;
    if |c| > 0 {
      var c' := c[..|c| - 1];
      assert c[|c| - 1] in c;
      assert s[..|s| - 1] == t + [ch] + c';
      assert ch !in c' by { assert forall x :: x in c' ==> x in c; }
      LastIndexOfAfter(t, ch, c');
    }
  }

  /** `str(n)` holds no line break. */
  lemma IntToStringShape(n: int)
    ensures '\n' !in IntToString(n) && '\r' !in IntToString(n)
  {
    var d := NatToString(if n < 0 then -n else n);
    assert AllDigits(d);
    assert IntToString(n) == d || IntToString(n) == "-" + d;
  }

  /**
   * How `shell_raw` reads the output of `cmd + ExitProbe`. The device reads it
   * with `ParseShellOutput`; the loop below holds for any reader that, like
   * it, raises no transport exception of its own.
   */
  type Reader = f: string -> Result<ShellOut, Raise> | forall s :: ReadsLocally(f(s))
    witness (s: string) => Ok(ShellOut(None, None))

  /** Reading output fails, if at all, with neither a USB nor an adb failure. */
  predicate ReadsLocally(r: Result<ShellOut, Raise>) {
    r.Err? ==> !r.error.UsbError? && !r.error.AdbCommandFailure?
  }

  /**
   * `shell_raw`'s outcome for one transport reply: the output is read, the
   * two kinds of exception escape; `(None, None)` when no attempt was left.
   */
  function ShellRead(last: Option<Reply<string>>, parse: Reader): Result<ShellOut, Raise> {
    match last
    case None => Ok(ShellOut(None, None))
    case Some(Answer(out)) => parse(out)
    case Some(CommandFailed(e)) => Err(AdbCommandFailure(e))
    case Some(UsbFault(e)) => Err(UsbError(e))
  }

  /** One `shell_raw` attempt on a connected device: its result and the calls it made. */
  function RawOutcome(answer: Script<string>, start: nat, cmd: string, parse: Reader): (o: (Result<ShellOut, Raise>, nat))
    ensures o.1 == (if Utf8Length(cmd + ExitProbe) > MaxCommandLength then 0 else 1)
    ensures Utf8Length(cmd + ExitProbe) > MaxCommandLength ==> o.0.Err? && o.0.error.AssertionError?
  {
    if Utf8Length(cmd + ExitProbe) > MaxCommandLength then
      (Err(AssertionError("Command is too long: " + (cmd + ExitProbe))), 0)
    else (ShellRead(Some(answer.At(start)), parse), 1)
  }

  /** What `shell`'s loop did: its result, the faults it reported, the calls it made. */
  datatype ShellRun = ShellRun(result: Result<ShellOut, Raise>, faults: seq<Fault>, calls: nat)

  /**
   * `shell`: up to `n` attempts of `shell_raw` under the retry template (a USB
   * fault is reported and retried, any other reply ends the loop and is read
   * by `shell_raw`, so the exceptions that are not USB faults escape);
   * `(None, None)` when the budget runs out. A command too long for the probe
   * fails its assertion on the first attempt, before any transport call.
   */
  function ShellAttempts(answer: Script<string>, start: nat, n: nat, cmd: string, parse: Reader): (run: ShellRun)
    ensures run.calls <= n
  {
    if n == 0 then ShellRun(Ok(ShellOut(None, None)), [], 0)
    else if Utf8Length(cmd + ExitProbe) > MaxCommandLength then
      ShellRun(Err(AssertionError("Command is too long: " + (cmd + ExitProbe))), [], 0)
    else
      var retry := RunAttempts(answer, start, n, "shell", "(" + cmd + ")");
      ShellRun(ShellRead(retry.last, parse), retry.faults, retry.calls)
  }

  /** The attempt after the faults `faults` did not fault: its `shell_raw` outcome is the result. */
  lemma ShellStopped(answer: Script<string>, start: nat, n: nat, cmd: string, parse: Reader, faults: seq<Fault>)
    requires |faults| < n && AllFaults(answer, start, faults, "shell", "(" + cmd + ")")
    requires Utf8Length(cmd + ExitProbe) <= MaxCommandLength && !answer.At(start + |faults|).UsbFault?
    ensures ShellAttempts(answer, start, n, cmd, parse) ==
      ShellRun(RawOutcome(answer, start + |faults|, cmd, parse).0, faults, |faults| + 1)
  {
    RetryStopped(answer, start, n, faults, "shell", "(" + cmd + ")");
  }

  /** Every attempt of `shell` faulted: `(None, None)` after the whole budget. */
  lemma ShellExhausted(answer: Script<string>, start: nat, n: nat, cmd: string, parse: Reader, faults: seq<Fault>)
    requires |faults| == n && AllFaults(answer, start, faults, "shell", "(" + cmd + ")")
    requires n > 0 ==> Utf8Length(cmd + ExitProbe) <= MaxCommandLength
    ensures ShellAttempts(answer, start, n, cmd, parse) == ShellRun(Ok(ShellOut(None, None)), faults, n)
  {
    if n > 0 {
      RetryExhausted(answer, start, n, faults, "shell", "(" + cmd + ")");
    }
  }

  /** A command too long for the probe fails its assertion before any transport call. */
  lemma ShellTooLong(answer: Script<string>, start: nat, n: nat, cmd: string, parse: Reader)
    requires n > 0 && Utf8Length(cmd + ExitProbe) > MaxCommandLength
    ensures ShellAttempts(answer, start, n, cmd, parse).result.Err?
    ensures ShellAttempts(answer, start, n, cmd, parse).result.error.AssertionError?
    ensures ShellAttempts(answer, start, n, cmd, parse).calls == 0
  {
  }

  /** `AdbCommandFailureException` is not a USB fault: it escapes `shell` unchanged. */
  lemma ShellCommandFailureEscapes(answer: Script<string>, start: nat, n: nat, cmd: string, parse: Reader)
    requires n > 0 && Utf8Length(cmd + ExitProbe) <= MaxCommandLength && answer.At(start).CommandFailed?
    ensures ShellAttempts(answer, start, n, cmd, parse) == ShellRun(Err(AdbCommandFailure(answer.At(start).error)), [], 1)
  {
    assert RunAttempts(answer, start, n, "shell", "(" + cmd + ")") == RetryRun(Some(answer.At(start)), [], 1);
  }

  // --------------------------------------------------------------- is_root

  const RootPrefix: string := "out=0(root)"

  /** `is_root`'s reading of the `id` command: None unless it ran with exit code 0 and printed something. */
  function IsRootOf(s: Result<ShellOut, Raise>): (r: Result<Option<bool>, Raise>)
    ensures s.Err? <==> r.Err?
    ensures r.Ok? && r.value.Some? <==>
      s.Ok? && s.value.exitCode == Some(0) && s.value.out.Some? && |s.value.out.value| > 0
    ensures r == Ok(Some(true)) ==> s.Ok? && s.value.out.Some? && StartsWith(s.value.out.value, RootPrefix)
  {
    match s
    case Err(e) => Err(e)
    case Ok(ShellOut(out, code)) =>
      if code != Some(0) || out.None? || |out.value| == 0 then Ok(None)
      else Ok(Some(StartsWith(out.value, RootPrefix)))
  }

  /**
   * The prefix is compared literally: the output of `id`, which begins with
   * "uid=", never satisfies it, so a root adbd reads as not root.
   */
  lemma IsRootOfIdOutput(rest: string)
    ensures IsRootOf(Ok(ShellOut(Some("uid=0(root)" + rest), Some(0)))) == Ok(Some(false))
  {
    var o := "uid=0(root)" + rest;
    assert o[0] == 'u';
  }

  // ---------------------------------------------------- reset_adbd_as_root

  const AlreadyRoot: string := "adbd is already running as root\n"
  const CannotRoot: string := "adbd cannot run as root in production builds\n"

  /** What `reset_adbd_as_root` did: its result, the faults it reported, the calls it made. */
  datatype RootRun = RootRun(result: Result<bool, Raise>, faults: seq<Fault>, calls: nat)

  /** `not self.is_root()` fails the reset: only a definite True succeeds; exceptions escape. */
  function RootVerdict(id: Result<Option<bool>, Raise>): (r: Result<bool, Raise>)
    ensures r.Err? <==> id.Err?
    ensures r.Err? ==> r.error == id.error
    ensures r == Ok(true) <==> id == Ok(Some(true))
  {
    match id
    case Err(e) => Err(e)
    case Ok(v) => Ok(v == Some(true))
  }

  /**
   * The rest of an attempt whose `Root()` call returned `reply` or raised
   * `AdbCommandFailureException` (which escapes): the two fixed adbd replies
   * decide, any other reply is checked with `is_root`, whose `shell` starts
   * at transport call `next` and has `tries` attempts.
   */
  function RootReplyOutcome(reply: Reply<string>, shell: Script<string>, next: nat, tries: nat, parse: Reader): (run: RootRun)
    requires !reply.UsbFault?
  {
    match reply
    case CommandFailed(e) => RootRun(Err(AdbCommandFailure(e)), [], 0)
    case Answer(out) =>
      if out == AlreadyRoot then RootRun(Ok(true), [], 0)
      else if out == CannotRoot then RootRun(Ok(false), [], 0)
      else
        var sh := ShellAttempts(shell, next, tries, IdCommand, parse);
        RootRun(RootVerdict(IsRootOf(sh.result)), sh.faults, sh.calls)
  }

  /**
   * `reset_adbd_as_root` on a connected device: the retry template over
   * `Root()`, then the reply is read; False when every attempt faulted.
   */
  function RootAttempts(root: Script<string>, shell: Script<string>, start: nat, n: nat, tries: nat, parse: Reader): RootRun {
    var retry := RunAttempts(root, start, n, "reset_adbd_as_root", "()");
    match retry.last
    case None => RootRun(Ok(false), retry.faults, retry.calls)
    case Some(reply) =>
      var one := RootReplyOutcome(reply, shell, start + retry.calls, tries, parse);
      RootRun(one.result, retry.faults + one.faults, retry.calls + one.calls)
  }

  lemma FaultsAssoc(a: seq<Fault>, b: seq<Fault>, c: seq<Fault>)
    ensures (a + b) + c == a + (b + c)
    ensures |b + c| > 0 <==> |b| > 0 || |c| > 0
  {
  }

  /** When every attempt of `Root()` faulted, the reset reports False. */
  lemma RootAttemptsNone(root: Script<string>, shell: Script<string>, start: nat, n: nat, tries: nat, parse: Reader)
    requires RunAttempts(root, start, n, "reset_adbd_as_root", "()").last == None
    ensures RootAttempts(root, shell, start, n, tries, parse) == RootRun(Ok(false),
      RunAttempts(root, start, n, "reset_adbd_as_root", "()").faults, RunAttempts(root, start, n, "reset_adbd_as_root", "()").calls)
  {
  }

  /** An attempt that did not fault hands its reply to the rest of the flow. */
  lemma RootAttemptsSome(root: Script<string>, shell: Script<string>, start: nat, n: nat, tries: nat, parse: Reader, reply: Reply<string>)
    requires RunAttempts(root, start, n, "reset_adbd_as_root", "()").last == Some(reply)
    ensures !reply.UsbFault?
    ensures RootAttempts(root, shell, start, n, tries, parse) == RootRun(
      RootReplyOutcome(reply, shell, start + RunAttempts(root, start, n, "reset_adbd_as_root", "()").calls, tries, parse).result,
      RunAttempts(root, start, n, "reset_adbd_as_root", "()").faults +
        RootReplyOutcome(reply, shell, start + RunAttempts(root, start, n, "reset_adbd_as_root", "()").calls, tries, parse).faults,
      RunAttempts(root, start, n, "reset_adbd_as_root", "()").calls +
        RootReplyOutcome(reply, shell, start + RunAttempts(root, start, n, "reset_adbd_as_root", "()").calls, tries, parse).calls)
  {
  }

  /** The reply that ended the template is that of its last transport call. */
  lemma {:induction false} RunAttemptsLast<T>(answer: Script<T>, start: nat, n: nat, fn: string, args: string)
    requires RunAttempts(answer, start, n, fn, args).last.Some?
    ensures RunAttempts(answer, start, n, fn, args).last == Some(answer.At(start + RunAttempts(answer, start, n, fn, args).calls - 1))
    decreases n
  {
    if answer.At(start).UsbFault? {
      RunAttemptsLast(answer, start + 1, n - 1, fn, args);
    }
  }

  /** The production-build refusal is a definite False, with no `is_root` probe. */
  lemma RootRefused(root: Script<string>, shell: Script<string>, start: nat, n: nat, tries: nat, parse: Reader)
    requires n > 0 && root.At(start) == Answer(CannotRoot)
    ensures RootAttempts(root, shell, start, n, tries, parse) == RootRun(Ok(false), [], 1)
  {
    assert RunAttempts(root, start, n, "reset_adbd_as_root", "()") == RetryRun(Some(root.At(start)), [], 1);
  }

  /**
   * True comes only from an attempt within the budget whose `Root()` answered
   * that adbd already runs as root, or whose `is_root` probe saw the root prefix.
   */
  lemma RootTrueWhy(root: Script<string>, shell: Script<string>, start: nat, n: nat, tries: nat, parse: Reader)
    requires RootAttempts(root, shell, start, n, tries, parse).result == Ok(true)
    ensures exists i :: (start <= i < start + n && root.At(i).Answer? &&
      (root.At(i).value == AlreadyRoot ||
       IsRootOf(ShellAttempts(shell, i + 1, tries, IdCommand, parse).result) == Ok(Some(true))))
  {
    var retry := RunAttempts(root, start, n, "reset_adbd_as_root", "()");
    RunAttemptsLast(root, start, n, "reset_adbd_as_root", "()");
    var i := start + retry.calls - 1;
    assert retry.last == Some(root.At(i));
    assert start <= i < start + n && root.At(i).Answer?;
  }

  // ---------------------------------------------------------------- device

  class LowDevice {
    /** The connection; None once closed. */
    var adbCmd: AdbCommands?
    const portPath: string
    const serial: string
    /** The attempt budget of the retry template. */
    const tries: nat
    /** Whether an `on_error` callback was given. */
    const hasOnError: bool
    /** How the text of a `shell_raw` reply is read: `ParseShellOutput`. */
    const reader: Reader
    var hasReset: bool
    /** The faults handed to `_try_reset`, oldest first. */
    var resets: seq<Fault>
    /** Every call made on this object, with its result. */
    ghost var trace: seq<DeviceOp>

    constructor (adbCmd: AdbCommands?, portPath: string, hasOnError: bool)
      ensures this.adbCmd == adbCmd && this.portPath == portPath && serial == portPath
      ensures tries == 1 && this.hasOnError == hasOnError
      ensures reader == ParseShellOutput
      ensures !hasReset && resets == [] && trace == []
    {
      reader := ParseShellOutput;
      this.adbCmd := adbCmd;
      this.portPath := portPath;
      serial := portPath;
      tries := 1;
      this.hasOnError := hasOnError;
      hasReset := false;
      resets := [];
      trace := [];
    }

    predicate IsValid()
      reads this
    {
      adbCmd != null
    }

    /** The message `_try_reset` builds: port path, caller, arguments, error. */
    function FaultMessage(f: Fault): string {
      portPath + "." + f.fn + f.args + ": " + f.error
    }

    /** The messages passed to `on_error` so far, oldest first. */
    function Reported(): (r: seq<string>)
      reads this
      ensures hasOnError ==> |r| == |resets|
      ensures !hasOnError ==> r == []
    {
      Reports(resets)
    }

    /** The `on_error` calls that the faults `fs` give rise to. */
    function Reports(fs: seq<Fault>): (r: seq<string>)
      ensures hasOnError ==> |r| == |fs|
      ensures !hasOnError ==> r == []
    {
      if |fs| == 0 then []
      else Reports(fs[..|fs| - 1]) + (if hasOnError then [FaultMessage(fs[|fs| - 1])] else [])
    }

    lemma ReportsAppend(fs: seq<Fault>, f: Fault)
      ensures Reports(fs + [f]) == Reports(fs) + (if hasOnError then [FaultMessage(f)] else [])
    {
      assert (fs + [f])[..|fs|] == fs;
    }

    lemma {:induction false} ReportsConcat(a: seq<Fault>, b: seq<Fault>)
      ensures Reports(a + b) == Reports(a) + Reports(b)
      decreases |b|
    {
      if |b| == 0 {
        assert a + b == a;
      } else {
        var b', last := b[..|b| - 1], b[|b| - 1];
        assert b == b' + [last];
        assert a + b == (a + b') + [last];
        ReportsConcat(a, b');
        ReportsAppend(a + b', last);
        ReportsAppend(b', last);
      }
    }

    /**
     * The device-side effect of a finished call: `n` transport calls, one
     * `on_error` report per fault, `_has_reset` set by the first fault.
     */
    twostate predicate Advanced(n: nat, fs: seq<Fault>)
      reads this, adbCmd
    {
      adbCmd == old(adbCmd) &&
      (adbCmd != null ==> adbCmd.calls == old(adbCmd.calls) + n) &&
      resets == old(resets) + fs &&
      hasReset == (old(hasReset) || |fs| > 0)
    }

    /** `close`: drops the connection. */
    method Close()
      modifies this
      ensures adbCmd == null && !IsValid()
      ensures hasReset == old(hasReset) && resets == old(resets) && trace == old(trace)
    {
      adbCmd := null;
    }

    /** `_try_reset`: formats the message, hands it to `on_error`, marks the reset. */
    method TryReset(f: Fault) returns (msg: string)
      modifies this
      ensures msg == FaultMessage(f)
      ensures resets == old(resets) + [f]
      ensures Reported() == old(Reported()) + (if hasOnError then [msg] else [])
      ensures hasReset
      ensures adbCmd == old(adbCmd) && trace == old(trace)
    {
      msg := FaultMessage(f);
      ReportsAppend(resets, f);
      resets := resets + [f];
      if !hasReset {
        hasReset := true;
      }
    }

    /** The retry loop shared by the primitives, specified by `RunAttempts`. */
    method Retry<T>(answer: Script<T>, fn: string, args: string) returns (r: Option<Reply<T>>)
      requires adbCmd != null
      modifies this, adbCmd
      ensures r == RunAttempts(answer, old(adbCmd.calls), tries, fn, args).last
      ensures adbCmd == old(adbCmd) && adbCmd.calls == old(adbCmd.calls) + RunAttempts(answer, old(adbCmd.calls), tries, fn, args).calls
      ensures resets == old(resets) + RunAttempts(answer, old(adbCmd.calls), tries, fn, args).faults
      ensures hasReset == (old(hasReset) || |RunAttempts(answer, old(adbCmd.calls), tries, fn, args).faults| > 0)
      ensures trace == old(trace)
    {
      ghost var start := adbCmd.calls;
      ghost var faults: seq<Fault> := [];
      var i := 0;
      while i < tries
        invariant 0 <= i <= tries && |faults| == i
        invariant adbCmd == old(adbCmd) && adbCmd.calls == start + i
        invariant AllFaults(answer, start, faults, fn, args)
        invariant resets == old(resets) + faults
        invariant hasReset == (old(hasReset) || i > 0)
        invariant trace == old(trace)
      {
        var reply := answer.At(adbCmd.calls);
        adbCmd.calls := adbCmd.calls + 1;
        if reply.UsbFault? {
          var f := Fault(fn, args, reply.error);
          var _ := TryReset(f);
          AllFaultsAppend(answer, start, faults, fn, args);
          faults := faults + [f];
          i := i + 1;
        } else {
          r := Some(reply);
          RetryStopped(answer, start, tries, faults, fn, args);
          return;
        }
      }
      RetryExhausted(answer, start, tries, faults, fn, args);
      return None;
    }

    method Listdir(destdir: string) returns (r: Option<seq<DirEntry>>)
      requires StartsWith(destdir, "/")
      modifies this, adbCmd
      ensures old(adbCmd) == null ==> r == None && Advanced(0, [])
      ensures old(adbCmd) != null ==>
        var run := RunAttempts(old(adbCmd).list, old(adbCmd.calls), tries, "listdir", "(" + destdir + ")");
        r == run.Answered() && Advanced(run.calls, run.faults)
      ensures trace == old(trace) + [ListOp(destdir, r)]
    {
      r := None;
      if adbCmd != null {
        var last := Retry(adbCmd.list, "listdir", "(" + destdir + ")");
        r := AnswerOf(last);
      }
      trace := trace + [ListOp(destdir, r)];
    }

    /** `stat`: `(mode, size, mtime)`, or the sentinel `(None, None, None)` as None. */
    method Stat(dest: string) returns (r: Option<StatInfo>)
      requires StartsWith(dest, "/")
      modifies this, adbCmd
      ensures old(adbCmd) == null ==> r == None && Advanced(0, [])
      ensures old(adbCmd) != null ==>
        var run := RunAttempts(old(adbCmd).stat, old(adbCmd.calls), tries, "stat", "(" + dest + ")");
        r == run.Answered() && Advanced(run.calls, run.faults)
      ensures trace == old(trace) + [StatOp(dest, r)]
    {
      r := None;
      if adbCmd != null {
        var last := Retry(adbCmd.stat, "stat", "(" + dest + ")");
        r := AnswerOf(last);
      }
      trace := trace + [StatOp(dest, r)];
    }

    /** `pull` to a host file: True when the transfer answered. */
    method Pull(remotefile: string, dest: string) returns (ok: bool)
      requires StartsWith(remotefile, "/")
      modifies this, adbCmd
      ensures old(adbCmd) == null ==> !ok && Advanced(0, [])
      ensures old(adbCmd) != null ==>
        var run := RunAttempts(old(adbCmd).pull, old(adbCmd.calls), tries, "pull", "(" + remotefile + ", " + dest + ")");
        ok == run.Answered().Some? && Advanced(run.calls, run.faults)
      ensures trace == old(trace) + [PullOp(remotefile, dest, ok)]
    {
      ok := false;
      if adbCmd != null {
        var got := Retry(adbCmd.pull, "pull", "(" + remotefile + ", " + dest + ")");
        ok := AnswerOf(got).Some?;
      }
      trace := trace + [PullOp(remotefile, dest, ok)];
    }

    /** `pull_content`: the file's text, None on failure. */
    method PullContent(remotefile: string) returns (r: Option<string>)
      requires StartsWith(remotefile, "/")
      modifies this, adbCmd
      ensures old(adbCmd) == null ==> r == None && Advanced(0, [])
      ensures old(adbCmd) != null ==>
        var run := RunAttempts(old(adbCmd).pull, old(adbCmd.calls), tries, "pull_content", "(" + remotefile + ")");
        r == run.Answered() && Advanced(run.calls, run.faults)
      ensures trace == old(trace) + [PullContentOp(remotefile, r)]
    {
      r := None;
      if adbCmd != null {
        var last := Retry(adbCmd.pull, "pull_content", "(" + remotefile + ")");
        r := AnswerOf(last);
      }
      trace := trace + [PullContentOp(remotefile, r)];
    }

    method Push(localfile: string, dest: string, mtime: string) returns (ok: bool)
      requires StartsWith(dest, "/")
      modifies this, adbCmd
      ensures old(adbCmd) == null ==> !ok && Advanced(0, [])
      ensures old(adbCmd) != null ==>
        var run := RunAttempts(old(adbCmd).push, old(adbCmd.calls), tries, "push", "(" + localfile + ", " + dest + ")");
        ok == run.Answered().Some? && Advanced(run.calls, run.faults)
      ensures trace == old(trace) + [PushOp(localfile, dest, mtime, ok)]
    {
      ok := false;
      if adbCmd != null {
        var got := Retry(adbCmd.push, "push", "(" + localfile + ", " + dest + ")");
        ok := AnswerOf(got).Some?;
      }
      trace := trace + [PushOp(localfile, dest, mtime, ok)];
    }

    method PushContent(dest: string, content: string, mtime: string) returns (ok: bool)
      requires StartsWith(dest, "/")
      modifies this, adbCmd
      ensures old(adbCmd) == null ==> !ok && Advanced(0, [])
      ensures old(adbCmd) != null ==>
        var run := RunAttempts(old(adbCmd).push, old(adbCmd.calls), tries, "push_content", "(" + dest + ", " + content + ")");
        ok == run.Answered().Some? && Advanced(run.calls, run.faults)
      ensures trace == old(trace) + [PushContentOp(dest, content, mtime, ok)]
    {
      ok := false;
      if adbCmd != null {
        var got := Retry(adbCmd.push, "push_content", "(" + dest + ", " + content + ")");
        ok := AnswerOf(got).Some?;
      }
      trace := trace + [PushContentOp(dest, content, mtime, ok)];
    }

    method Reboot() returns (ok: bool)
      modifies this, adbCmd
      ensures old(adbCmd) == null ==> !ok && Advanced(0, [])
      ensures old(adbCmd) != null ==>
        var run := RunAttempts(old(adbCmd).reboot, old(adbCmd.calls), tries, "reboot", "()");
        ok == run.Answered().Some? && Advanced(run.calls, run.faults)
      ensures trace == old(trace) + [RebootOp(ok)]
    {
      ok := false;
      if adbCmd != null {
        var got := Retry(adbCmd.reboot, "reboot", "()");
        ok := AnswerOf(got).Some?;
      }
      trace := trace + [RebootOp(ok)];
    }

    method Remount() returns (ok: bool)
      modifies this, adbCmd
      ensures old(adbCmd) == null ==> !ok && Advanced(0, [])
      ensures old(adbCmd) != null ==>
        var run := RunAttempts(old(adbCmd).remount, old(adbCmd.calls), tries, "remount", "()");
        ok == run.Answered().Some? && Advanced(run.calls, run.faults)
      ensures trace == old(trace) + [RemountOp(ok)]
    {
      ok := false;
      if adbCmd != null {
        var got := Retry(adbCmd.remount, "remount", "()");
        ok := AnswerOf(got).Some?;
      }
      trace := trace + [RemountOp(ok)];
    }

    /** One attempt of `shell_raw`, without recording it. */
    method ShellOnce(cmd: string) returns (r: Result<ShellOut, Raise>)
      modifies adbCmd
      ensures old(adbCmd) == null ==> r == Ok(ShellOut(None, None))
      ensures old(adbCmd) != null ==>
        var (res, used) := RawOutcome(old(adbCmd).shell, old(adbCmd.calls), cmd, reader);
        r == res && adbCmd.calls == old(adbCmd.calls) + used
    {
      if adbCmd == null {
        return Ok(ShellOut(None, None));
      }
      var complete := cmd + ExitProbe;
      if Utf8Length(complete) > MaxCommandLength {
        return Err(AssertionError("Command is too long: " + complete));
      }
      var reply := adbCmd.shell.At(adbCmd.calls);
      adbCmd.calls := adbCmd.calls + 1;
      r := ShellRead(Some(reply), reader);
    }

    /** `shell_raw`: one attempt, every exception escapes. */
    method ShellRaw(cmd: string) returns (r: Result<ShellOut, Raise>)
      modifies this, adbCmd
      ensures old(adbCmd) == null ==> r == Ok(ShellOut(None, None)) && Advanced(0, [])
      ensures old(adbCmd) != null ==>
        var (res, used) := RawOutcome(old(adbCmd).shell, old(adbCmd.calls), cmd, reader);
        r == res && Advanced(used, [])
      ensures trace == old(trace) + [ShellRawOp(cmd, r)]
    {
      r := ShellOnce(cmd);
      trace := trace + [ShellRawOp(cmd, r)];
    }

    /** The loop of `shell`, without recording it. */
    method ShellLoop(cmd: string) returns (r: Result<ShellOut, Raise>)
      modifies this, adbCmd
      ensures old(adbCmd) == null ==> r == Ok(ShellOut(None, None)) && Advanced(0, [])
      ensures old(adbCmd) != null ==>
        var run := ShellAttempts(old(adbCmd).shell, old(adbCmd.calls), tries, cmd, reader);
        r == run.result && Advanced(run.calls, run.faults)
      ensures trace == old(trace)
    {
      if adbCmd == null {
        if tries > 0 {
          r := ShellOnce(cmd);
        } else {
          r := Ok(ShellOut(None, None));
        }
        return;
      }
      ghost var start := adbCmd.calls;
      ghost var faults: seq<Fault> := [];
      var i := 0;
      while i < tries
        invariant 0 <= i <= tries && |faults| == i
        invariant adbCmd == old(adbCmd) && adbCmd.calls == start + i
        invariant AllFaults(adbCmd.shell, start, faults, "shell", "(" + cmd + ")")
        invariant i > 0 ==> Utf8Length(cmd + ExitProbe) <= MaxCommandLength
        invariant resets == old(resets) + faults
        invariant hasReset == (old(hasReset) || i > 0)
        invariant trace == old(trace)
      {
        var one := ShellOnce(cmd);
        if one.Err? && one.error.UsbError? {
          var f := Fault("shell", "(" + cmd + ")", one.error.detail);
          AllFaultsAppend(adbCmd.shell, start, faults, "shell", "(" + cmd + ")");
          var _ := TryReset(f);
          faults := faults + [f];
          i := i + 1;
        } else {
          if Utf8Length(cmd + ExitProbe) <= MaxCommandLength {
            ShellStopped(adbCmd.shell, start, tries, cmd, reader, faults);
          }
          return one;
        }
      }
      ShellExhausted(adbCmd.shell, start, tries, cmd, reader, faults);
      return Ok(ShellOut(None, None));
    }

    /** `shell`: USB faults are retried; other exceptions escape. */
    method Shell(cmd: string) returns (r: Result<ShellOut, Raise>)
      modifies this, adbCmd
      ensures old(adbCmd) == null ==> r == Ok(ShellOut(None, None)) && Advanced(0, [])
      ensures old(adbCmd) != null ==>
        var run := ShellAttempts(old(adbCmd).shell, old(adbCmd.calls), tries, cmd, reader);
        r == run.result && Advanced(run.calls, run.faults)
      ensures trace == old(trace) + [ShellOp(cmd, r)]
    {
      r := ShellLoop(cmd);
      trace := trace + [ShellOp(cmd, r)];
    }

    /** `is_root`: runs `id` through `shell`. */
    method IsRoot() returns (r: Result<Option<bool>, Raise>)
      modifies this, adbCmd
      ensures old(adbCmd) == null ==> r == Ok(None) && Advanced(0, [])
      ensures old(adbCmd) != null ==>
        r == IsRootOf(ShellAttempts(old(adbCmd).shell, old(adbCmd.calls), tries, IdCommand, reader).result) &&
        Advanced(ShellAttempts(old(adbCmd).shell, old(adbCmd.calls), tries, IdCommand, reader).calls,
          ShellAttempts(old(adbCmd).shell, old(adbCmd.calls), tries, IdCommand, reader).faults)
      ensures trace == old(trace) + [IsRootOp(r)]
    {
      r := IsRootProbe();
      trace := trace + [IsRootOp(r)];
    }

    /** The probe of `is_root`, without recording it. */
    method IsRootProbe() returns (r: Result<Option<bool>, Raise>)
      modifies this, adbCmd
      ensures old(adbCmd) == null ==> r == Ok(None) && Advanced(0, [])
      ensures old(adbCmd) != null ==>
        r == IsRootOf(ShellAttempts(old(adbCmd).shell, old(adbCmd.calls), tries, IdCommand, reader).result) &&
        Advanced(ShellAttempts(old(adbCmd).shell, old(adbCmd.calls), tries, IdCommand, reader).calls,
          ShellAttempts(old(adbCmd).shell, old(adbCmd.calls), tries, IdCommand, reader).faults)
      ensures trace == old(trace)
    {
      var s := ShellLoop(IdCommand);
      r := IsRootOf(s);
    }

    /** `reset_adbd_as_root` on a connected device, without recording it. */
    method RootLoop() returns (r: Result<bool, Raise>)
      requires adbCmd != null
      modifies this, adbCmd
      ensures r == RootAttempts(old(adbCmd).root, old(adbCmd).shell, old(adbCmd.calls), tries, tries, reader).result
      ensures Advanced(RootAttempts(old(adbCmd).root, old(adbCmd).shell, old(adbCmd.calls), tries, tries, reader).calls,
        RootAttempts(old(adbCmd).root, old(adbCmd).shell, old(adbCmd.calls), tries, tries, reader).faults)
      ensures trace == old(trace)
    {
      ghost var start := adbCmd.calls;
      ghost var run := RootAttempts(adbCmd.root, adbCmd.shell, start, tries, tries, reader);
      ghost var retry := RunAttempts(adbCmd.root, start, tries, "reset_adbd_as_root", "()");
      var last := Retry(adbCmd.root, "reset_adbd_as_root", "()");
      if last.None? {
        RootAttemptsNone(adbCmd.root, adbCmd.shell, start, tries, tries, reader);
        r := Ok(false);
      } else {
        RootAttemptsSome(adbCmd.root, adbCmd.shell, start, tries, tries, reader, last.value);
        ghost var one := RootReplyOutcome(last.value, adbCmd.shell, start + retry.calls, tries, reader);
        ghost var mid, midReset := resets, hasReset;
        r := RootReplied(last.value, one);
        FaultsAssoc(old(resets), retry.faults, one.faults);
        assert run.calls == retry.calls + one.calls && run.faults == retry.faults + one.faults;
        assert adbCmd.calls == start + run.calls;
        assert resets == old(resets) + run.faults;
        assert hasReset == (old(hasReset) || |run.faults| > 0);
      }
      assert r == run.result && Advanced(run.calls, run.faults);
    }

    /** The body of the attempt whose `Root()` call returned or raised `AdbCommandFailureException`. */
    method RootReplied(reply: Reply<string>, ghost one: RootRun) returns (r: Result<bool, Raise>)
      requires adbCmd != null && !reply.UsbFault?
      requires one == RootReplyOutcome(reply, adbCmd.shell, adbCmd.calls, tries, reader)
      modifies this, adbCmd
      ensures r == one.result && Advanced(one.calls, one.faults)
      ensures trace == old(trace)
    {
      match reply
      case CommandFailed(e) =>
        return Err(AdbCommandFailure(e));
      case Answer(out) =>
        if out == AlreadyRoot {
          return Ok(true);
        } else if out == CannotRoot {
          return Ok(false);
        }
        var id := IsRootProbe();
        return RootVerdict(id);
    }

    /**
     * `reset_adbd_as_root`. It does not check for a closed connection: on one,
     * `self.adb_cmd.Root()` raises AttributeError, which is not retried.
     */
    method ResetAdbdAsRoot() returns (r: Result<bool, Raise>)
      modifies this, adbCmd
      ensures old(adbCmd) == null ==>
        r == (if tries > 0 then Err(AttributeError("Root")) else Ok(false)) && Advanced(0, [])
      ensures old(adbCmd) != null ==>
        r == RootAttempts(old(adbCmd).root, old(adbCmd).shell, old(adbCmd.calls), tries, tries, reader).result &&
        Advanced(RootAttempts(old(adbCmd).root, old(adbCmd).shell, old(adbCmd.calls), tries, tries, reader).calls,
          RootAttempts(old(adbCmd).root, old(adbCmd).shell, old(adbCmd.calls), tries, tries, reader).faults)
      ensures trace == old(trace) + [RootOp(r)]
    {
      if adbCmd == null {
        r := if tries > 0 then Err(AttributeError("Root")) else Ok(false);
      } else {
        r := RootLoop();
      }
      trace := trace + [RootOp(r)];
    }

    /**
     * `reset_adbd_as_user` calls `self.cmd`, which LowDevice does not have:
     * the AttributeError escapes on the first attempt and nothing is sent.
     */
    method ResetAdbdAsUser() returns (r: Result<bool, Raise>)
      modifies this
      ensures r == if tries > 0 then Err(AttributeError("cmd")) else Ok(false)
      ensures adbCmd == old(adbCmd) && resets == old(resets) && hasReset == old(hasReset)
      ensures trace == old(trace) + [UserOp(r)]
    {
      r := if tries > 0 then Err(AttributeError("cmd")) else Ok(false);
      trace := trace + [UserOp(r)];
    }
  }
}
