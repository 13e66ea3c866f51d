/**
 * Temporary files on the device: `mkstemp` picks a fresh name under
 * `/data/local/tmp/` and writes the content to it, and `run_shell_wrapped`
 * runs a list of commands as a script whose output goes to a second
 * temporary file. Both files are removed afterwards, whatever happens.
 *
 * The five random characters of each name attempt are a parameter: `picks`
 * holds what `random.choice` draws, one string per attempt.
 */
module TempFiles {
  import opened Wrappers
  import opened Strings
  import opened Exceptions
  import opened AdbLow
  import opened Dialog

  const TempDir: string := "/data/local/tmp/"
  const DefaultPrefix: string := "swarming"
  /** How many names `mkstemp` tries. */
  const Tries: nat := 5

  /** `string.ascii_letters + string.digits`. */
  predicate NameChar(c: char) {
    ('a' <= c <= 'z') || ('A' <= c <= 'Z') || ('0' <= c <= '9')
  }

  /** What one attempt draws: five letters or digits. */
  predicate NamePick(p: string) {
    |p| == 5 && forall k :: 0 <= k < |p| ==> NameChar(p[k])
  }

  function TempName(prefix: string, pick: string, suffix: string): string {
    TempDir + prefix + pick + suffix
  }

  /** Whether a `stat` answer has a truthy mode, i.e. the name is taken. */
  predicate Taken(info: Option<StatInfo>) {
    info.Some? && info.value.mode != 0
  }

  type Naming = Option<Said<Option<string>>>

  /**
   * The calls of `mkstemp` from attempt `i` on: the name is stat'ed; a taken
   * name goes on to the next attempt, a free one is written, and the first
   * successful write gives the name. After the last attempt: None.
   */
  function MkFrom(content: string, prefix: string, suffix: string, picks: seq<string>, i: nat, ops: seq<DeviceOp>): (d: Naming)
    requires |picks| == Tries && i <= Tries
    ensures d.Some? ==> d.value.used <= |ops|
    decreases Tries - i, |ops|
  {
    if i == Tries then Done(None, 0)
    else
      var name := TempName(prefix, picks[i], suffix);
      match StatReply(name, ops)
      case None => None
      case Some(info) =>
        if Taken(info) then After(1, MkFrom(content, prefix, suffix, picks, i + 1, ops[1..]))
        else
          match PushReply(name, content, ops[1..])
          case None => None
          case Some(ok) =>
            if ok then Done(Some(name), 2)
            else After(2, MkFrom(content, prefix, suffix, picks, i + 1, ops[2..]))
  }

  function MkstempDialog(content: string, prefix: string, suffix: string, picks: seq<string>, ops: seq<DeviceOp>): Naming
    requires |picks| == Tries
  {
    MkFrom(content, prefix, suffix, picks, 0, ops)
  }

  // --------------------------------------------------------- run_shell_wrapped

  /** What `run_shell_wrapped` returns: False, or the merged output with the exit code. */
  datatype Wrapped = NotRun | Ran(out: Option<string>, exitCode: Option<int>)

  type Run = Option<Said<Result<Wrapped, Raise>>>

  function RemoveCommand(path: string): string {
    "rm " + path
  }

  function ScriptCommand(script: string, outfile: string): string {
    "sh " + script + " &> " + outfile
  }

  /** A `finally` clause that called `shell`: its exception, if any, replaces the pending outcome. */
  function Finally(pending: Result<Wrapped, Raise>, res: Result<ShellOut, Raise>): Result<Wrapped, Raise> {
    if res.Err? then Err(res.error) else pending
  }

  /**
   * The `finally` clauses: each command in `cmds` is run in turn, and an
   * exception from one replaces the outcome pending until then.
   */
  function Cleanup(pending: Result<Wrapped, Raise>, cmds: seq<string>, ops: seq<DeviceOp>): (d: Run)
    ensures d.Some? ==> d.value.used == |cmds| <= |ops|
    decreases |cmds|
  {
    if |cmds| == 0 then Done(pending, 0)
    else
      match ShellReply(cmds[0], ops)
      case None => None
      case Some(res) => After(1, Cleanup(Finally(pending, res), cmds[1..], ops[1..]))
  }

  function RunWrappedDialog(commands: seq<string>, picks: seq<string>, outPicks: seq<string>, ops: seq<DeviceOp>): (d: Run)
    requires |picks| == Tries && |outPicks| == Tries
  {
    match MkstempDialog(JoinTerminated(commands), DefaultPrefix, ".sh", picks, ops)
    case None => None
    case Some(Said(script, n)) =>
      if script.None? then Done(Ok(NotRun), n)
      else After(n, OutfileDialog(script.value, outPicks, ops[n..]))
  }

  /** With the script in place: the output file is made, else the script is removed. */
  function OutfileDialog(script: string, outPicks: seq<string>, ops: seq<DeviceOp>): (d: Run)
    requires |outPicks| == Tries
  {
    match MkstempDialog("", DefaultPrefix, ".txt", outPicks, ops)
    case None => None
    case Some(Said(outfile, n)) =>
      if outfile.None? then After(n, Cleanup(Ok(NotRun), [RemoveCommand(script)], ops[n..]))
      else After(n, ExecDialog(script, outfile.value, ops[n..]))
  }

  /** The script runs, its output is read, then both files are removed. */
  function ExecDialog(script: string, outfile: string, ops: seq<DeviceOp>): (d: Run) {
    match ShellReply(ScriptCommand(script, outfile), ops)
    case None => None
    case Some(Err(e)) => After(1, Cleanup(Err(e), Removals(script, outfile), ops[1..]))
    case Some(Ok(sh)) => After(1, CollectDialog(script, outfile, sh.exitCode, ops[1..]))
  }

  /** The output file is read after the script ran. */
  function CollectDialog(script: string, outfile: string, exitCode: Option<int>, ops: seq<DeviceOp>): (d: Run) {
    match PullReply(outfile, ops)
    case None => None
    case Some(out) => After(1, Cleanup(Ok(Ran(out, exitCode)), Removals(script, outfile), ops[1..]))
  }

  /** The two `finally` clauses, inner first. */
  function Removals(script: string, outfile: string): seq<string> {
    [RemoveCommand(outfile), RemoveCommand(script)]
  }

  // ------------------------------------------------------------ properties

  predicate AllSafe(s: string) {
    forall k :: 0 <= k < |s| ==> ShellSafe(s[k])
  }

  lemma SafeConcat(a: string, b: string)
    requires AllSafe(a) && AllSafe(b)
    ensures AllSafe(a + b)
  {
    forall k | 0 <= k < |a + b| ensures ShellSafe((a + b)[k]) {
      if k >= |a| {
        assert (a + b)[k] == b[k - |a|];
      }
    }
  }

  /** Every character of a name is one `pipes.quote` leaves alone, so the name is never quoted. */
  lemma NameNeedsNoQuote(prefix: string, pick: string, suffix: string)
    requires NamePick(pick) && AllSafe(prefix) && AllSafe(suffix)
    ensures ShellQuote(TempName(prefix, pick, suffix)) == TempName(prefix, pick, suffix)
  {
    assert AllSafe(TempDir);
    assert AllSafe(pick);
    SafeConcat(TempDir, prefix);
    SafeConcat(TempDir + prefix, pick);
    SafeConcat(TempDir + prefix + pick, suffix);
    assert |TempName(prefix, pick, suffix)| > 0;
  }

  /** A name comes back only once it was found free and the content was written to it, and it is one of the names tried. */
  lemma {:induction false} MkFromGives(content: string, prefix: string, suffix: string, picks: seq<string>, i: nat, ops: seq<DeviceOp>, r: Option<string>)
    requires |picks| == Tries && i <= Tries
    requires Made(MkFrom(content, prefix, suffix, picks, i, ops), ops, r) && r.Some?
    ensures |ops| >= 2
    ensures ops[|ops| - 1] == PushContentOp(r.value, content, DefaultMtime, true)
    ensures ops[|ops| - 2].StatOp? && ops[|ops| - 2].path == r.value && !Taken(ops[|ops| - 2].info)
    ensures exists j :: i <= j < Tries && r.value == TempName(prefix, picks[j], suffix)
    decreases Tries - i
  {
    var name := TempName(prefix, picks[i], suffix);
    var info := ops[0].info;
    if Taken(info) {
      var rest := ops[1..];
      MkFromGives(content, prefix, suffix, picks, i + 1, rest, r);
      assert ops[|ops| - 1] == rest[|rest| - 1] && ops[|ops| - 2] == rest[|rest| - 2];
    } else if ops[1].ok {
      assert r.value == name;
    } else {
      var rest := ops[2..];
      MkFromGives(content, prefix, suffix, picks, i + 1, rest, r);
      assert ops[|ops| - 1] == rest[|rest| - 1] && ops[|ops| - 2] == rest[|rest| - 2];
    }
  }

  /** When no name comes back, every remaining name was tried. */
  lemma {:induction false} MkFromGivesUp(content: string, prefix: string, suffix: string, picks: seq<string>, i: nat, ops: seq<DeviceOp>)
    requires |picks| == Tries && i <= Tries
    requires Made(MkFrom(content, prefix, suffix, picks, i, ops), ops, None)
    ensures forall j :: i <= j < Tries ==>
      exists k :: 0 <= k < |ops| && ops[k].StatOp? && ops[k].path == TempName(prefix, picks[j], suffix)
    decreases Tries - i
  {
    if i < Tries {
      var n := if Taken(ops[0].info) then 1 else 2;
      var rest := ops[n..];
      MkFromGivesUp(content, prefix, suffix, picks, i + 1, rest);
      forall j | i <= j < Tries
        ensures exists k :: 0 <= k < |ops| && ops[k].StatOp? && ops[k].path == TempName(prefix, picks[j], suffix)
      {
        if j == i {
          assert ops[0].StatOp? && ops[0].path == TempName(prefix, picks[j], suffix);
        } else {
          var k :| 0 <= k < |rest| && rest[k].StatOp? && rest[k].path == TempName(prefix, picks[j], suffix);
          assert ops[k + n] == rest[k];
        }
      }
    }
  }

  lemma {:induction false} MkFromStable(content: string, prefix: string, suffix: string, picks: seq<string>, i: nat, ops: seq<DeviceOp>, more: seq<DeviceOp>)
    requires |picks| == Tries && i <= Tries
    requires MkFrom(content, prefix, suffix, picks, i, ops).Some?
    ensures MkFrom(content, prefix, suffix, picks, i, ops + more) == MkFrom(content, prefix, suffix, picks, i, ops)
    decreases Tries - i
  {
    if i < Tries {
      var name := TempName(prefix, picks[i], suffix);
      RepliesExtend(ops, more, "", name, content);
      if Taken(ops[0].info) {
        MkFromStable(content, prefix, suffix, picks, i + 1, ops[1..], more);
      } else {
        RepliesExtend(ops[1..], more, "", name, content);
        assert (ops + more)[2..] == ops[2..] + more;
        if !ops[1].ok {
          MkFromStable(content, prefix, suffix, picks, i + 1, ops[2..], more);
        }
      }
    }
  }

  /** `rm` of `path` was the call `op`. */
  predicate Removes(op: DeviceOp, path: string) {
    op.ShellOp? && op.cmd == RemoveCommand(path)
  }

  /**
   * Running the script: the script command comes first, the output file is
   * then read unless the command raised, and the last two calls remove the
   * output file and the script. The outcome is that of the body, overridden
   * by an exception of either removal, the later one winning.
   */
  lemma ExecOutcome(script: string, outfile: string, ops: seq<DeviceOp>, r: Result<Wrapped, Raise>)
    requires Made(ExecDialog(script, outfile, ops), ops, r)
    ensures |ops| >= 3 && ops[0].ShellOp? && ops[0].cmd == ScriptCommand(script, outfile)
    ensures |ops| == (if ops[0].result.Err? then 3 else 4)
    ensures ops[0].result.Ok? ==> ops[1] == PullContentOp(outfile, ops[1].got)
    ensures Removes(ops[|ops| - 2], outfile) && Removes(ops[|ops| - 1], script)
    ensures var body := if ops[0].result.Err? then Err(ops[0].result.error) else Ok(Ran(ops[1].got, ops[0].result.value.exitCode));
      r == Finally(Finally(body, ops[|ops| - 2].result), ops[|ops| - 1].result)
  {
    var n := if ops[0].result.Err? then 1 else 2;
    var rest := ops[n..];
    var body := if ops[0].result.Err? then Err(ops[0].result.error) else Ok(Ran(ops[1].got, ops[0].result.value.exitCode));
    if ops[0].result.Ok? {
      assert ops[1..][0] == ops[1] && ops[1..][1..] == rest;
    }
    assert ExecDialog(script, outfile, ops) == After(n, Cleanup(body, Removals(script, outfile), rest));
    CleanupTwo(body, RemoveCommand(outfile), RemoveCommand(script), rest, r);
    assert rest[0] == ops[|ops| - 2] && rest[1] == ops[|ops| - 1];
  }

  /** Two `finally` clauses: both commands run, in order, and a later exception wins. */
  lemma CleanupTwo(pending: Result<Wrapped, Raise>, a: string, b: string, ops: seq<DeviceOp>, r: Result<Wrapped, Raise>)
    requires Made(Cleanup(pending, [a, b], ops), ops, r)
    ensures |ops| == 2 && ops[0].ShellOp? && ops[0].cmd == a && ops[1].ShellOp? && ops[1].cmd == b
    ensures r == Finally(Finally(pending, ops[0].result), ops[1].result)
  {
    var p := Finally(pending, ops[0].result);
    assert [a, b][1..] == [b] && [b][1..] == [];
    assert Cleanup(pending, [a, b], ops) == After(1, Cleanup(p, [b], ops[1..]));
    assert ops[1..][0] == ops[1];
    assert Cleanup(p, [b], ops[1..]) == After(1, Cleanup(Finally(p, ops[1].result), [], ops[2..]));
  }

  /** Once the output file is asked for, the script is the last thing removed; a made output file is removed just before. */
  lemma OutfileOutcome(script: string, outPicks: seq<string>, ops: seq<DeviceOp>, r: Result<Wrapped, Raise>)
    requires |outPicks| == Tries
    requires Made(OutfileDialog(script, outPicks, ops), ops, r)
    ensures var m := MkstempDialog("", DefaultPrefix, ".txt", outPicks, ops);
      m.Some? && m.value.used < |ops| && Removes(ops[|ops| - 1], script) &&
      (m.value.result.None? ==> |ops| == m.value.used + 1 && r == Finally(Ok(NotRun), ops[|ops| - 1].result)) &&
      (m.value.result.Some? ==> Removes(ops[|ops| - 2], m.value.result.value))
  {
    var m := MkstempDialog("", DefaultPrefix, ".txt", outPicks, ops);
    var n := m.value.used;
    var rest := ops[n..];
    if m.value.result.None? {
      assert Cleanup(Ok(NotRun), [RemoveCommand(script)], rest) == After(1, Cleanup(Finally(Ok(NotRun), rest[0].result), [], rest[1..]));
      assert rest[0] == ops[|ops| - 1];
    } else {
      ExecOutcome(script, m.value.result.value, rest, r);
      assert rest[|rest| - 1] == ops[|ops| - 1] && rest[|rest| - 2] == ops[|ops| - 2];
    }
  }

  /**
   * `run_shell_wrapped`: when no script could be made nothing else is done;
   * otherwise the script is removed by the very last call, and an exception
   * of that removal is what the call raises.
   */
  lemma RunWrappedOutcome(commands: seq<string>, picks: seq<string>, outPicks: seq<string>, ops: seq<DeviceOp>, r: Result<Wrapped, Raise>)
    requires |picks| == Tries && |outPicks| == Tries
    requires Made(RunWrappedDialog(commands, picks, outPicks, ops), ops, r)
    ensures var m := MkstempDialog(JoinTerminated(commands), DefaultPrefix, ".sh", picks, ops);
      m.Some? &&
      (m.value.result.None? ==> r == Ok(NotRun) && |ops| == m.value.used) &&
      (m.value.result.Some? ==>
        (|ops| > 0 && Removes(ops[|ops| - 1], m.value.result.value) &&
         (ops[|ops| - 1].result.Err? ==> r == Err(ops[|ops| - 1].result.error))))
  {
    var m := MkstempDialog(JoinTerminated(commands), DefaultPrefix, ".sh", picks, ops);
    if m.value.result.Some? {
      var n := m.value.used;
      var rest := ops[n..];
      var script := m.value.result.value;
      OutfileOutcome(script, outPicks, rest, r);
      assert rest[|rest| - 1] == ops[|ops| - 1];
      var m2 := MkstempDialog("", DefaultPrefix, ".txt", outPicks, rest);
      if m2.value.result.Some? {
        var rest2 := rest[m2.value.used..];
        ExecOutcome(script, m2.value.result.value, rest2, r);
        assert rest2[|rest2| - 1] == ops[|ops| - 1];
      }
    }
  }

  /** `step` is one attempt at `name` that failed: the name was taken, or writing to it failed. */
  predicate FailedAttempt(name: string, content: string, step: seq<DeviceOp>) {
    (|step| == 1 && step[0].StatOp? && step[0].path == name && Taken(step[0].info)) ||
    (|step| == 2 && step[0].StatOp? && step[0].path == name && !Taken(step[0].info) &&
     step[1] == PushContentOp(name, content, DefaultMtime, false))
  }

  /** How many calls the attempt starting `done` took, had it failed: one for a taken name, else two. */
  function AttemptLength(done: seq<DeviceOp>): nat {
    if |done| > 0 && done[0].StatOp? && Taken(done[0].info) then 1 else 2
  }

  /** `done` is the calls of attempts `j` to `i - 1`, every one of which failed. */
  ghost predicate Failed(content: string, prefix: string, suffix: string, picks: seq<string>, j: nat, i: nat, done: seq<DeviceOp>)
    requires |picks| == Tries && j <= i <= Tries
    decreases i - j
  {
    if j == i then done == []
    else
      var n := AttemptLength(done);
      |done| >= n && FailedAttempt(TempName(prefix, picks[j], suffix), content, done[..n]) &&
      Failed(content, prefix, suffix, picks, j + 1, i, done[n..])
  }

  /** One more failed attempt. */
  lemma {:induction false} FailedExtend(content: string, prefix: string, suffix: string, picks: seq<string>, j: nat, i: nat, done: seq<DeviceOp>, step: seq<DeviceOp>)
    requires |picks| == Tries && j <= i < Tries
    requires Failed(content, prefix, suffix, picks, j, i, done)
    requires FailedAttempt(TempName(prefix, picks[i], suffix), content, step)
    ensures Failed(content, prefix, suffix, picks, j, i + 1, done + step)
    decreases i - j
  {
    if j == i {
      assert step + [] == step && step[|step|..] == [];
    } else {
      var n := AttemptLength(done);
      assert |done| >= n;
      FailedExtend(content, prefix, suffix, picks, j + 1, i, done[n..], step);
      Split(done, n, step);
    }
  }

  /** After attempts `j` to `i - 1` failed, `mkstemp` goes on as from attempt `i`. */
  lemma {:induction false} FailedThen(content: string, prefix: string, suffix: string, picks: seq<string>, j: nat, i: nat, done: seq<DeviceOp>, rest: seq<DeviceOp>)
    requires |picks| == Tries && j <= i <= Tries
    requires Failed(content, prefix, suffix, picks, j, i, done)
    ensures MkFrom(content, prefix, suffix, picks, j, done + rest) == After(|done|, MkFrom(content, prefix, suffix, picks, i, rest))
    decreases i - j
  {
    if j == i {
      assert done + rest == rest;
    } else {
      var n := AttemptLength(done);
      FailedThen(content, prefix, suffix, picks, j + 1, i, done[n..], rest);
      Split(done, n, rest);
      MkStep(content, prefix, suffix, picks, j, done[..n], done[n..] + rest);
    }
  }

  /** Cutting `done + rest` inside `done`. */
  lemma Split(done: seq<DeviceOp>, n: nat, rest: seq<DeviceOp>)
    requires n <= |done|
    ensures done + rest == done[..n] + (done[n..] + rest)
    ensures (done + rest)[..n] == done[..n] && (done + rest)[n..] == done[n..] + rest
  {
    assert done == done[..n] + done[n..];
  }

  /** An attempt that found its name taken, or whose write failed, hands over to the next attempt. */
  lemma MkStep(content: string, prefix: string, suffix: string, picks: seq<string>, i: nat, step: seq<DeviceOp>, rest: seq<DeviceOp>)
    requires |picks| == Tries && i < Tries
    requires FailedAttempt(TempName(prefix, picks[i], suffix), content, step)
    ensures MkFrom(content, prefix, suffix, picks, i, step + rest) == After(|step|, MkFrom(content, prefix, suffix, picks, i + 1, rest))
  {
    var ops := step + rest;
    assert ops[0] == step[0];
    if |step| == 2 {
      assert ops[1..][0] == step[1];
      assert ops[2..] == rest;
    } else {
      assert ops[1..] == rest;
    }
  }

  /** The two `finally` clauses run one after the other. */
  lemma CleanupJoin(pending: Result<Wrapped, Raise>, a: string, b: string, s1: seq<DeviceOp>, s2: seq<DeviceOp>, p1: Result<Wrapped, Raise>, r: Result<Wrapped, Raise>)
    requires Made(Cleanup(pending, [a], s1), s1, p1) && Made(Cleanup(p1, [b], s2), s2, r)
    ensures Made(Cleanup(pending, [a, b], s1 + s2), s1 + s2, r)
  {
    var ops := s1 + s2;
    assert [a, b][1..] == [b] && [a][1..] == [] && [b][1..] == [];
    assert ops[0] == s1[0] && ops[1..] == s2;
    assert Cleanup(pending, [a], s1) == After(1, Cleanup(Finally(pending, s1[0].result), [], s1[1..]));
  }

  /** Every name `mkstemp` makes is under the temporary directory, so it is an absolute path. */
  lemma MadeNameIsAbsolute(content: string, prefix: string, suffix: string, picks: seq<string>, ops: seq<DeviceOp>, r: Option<string>)
    requires |picks| == Tries
    requires Made(MkstempDialog(content, prefix, suffix, picks, ops), ops, r) && r.Some?
    ensures StartsWith(r.value, "/")
  {
    MkFromGives(content, prefix, suffix, picks, 0, ops, r);
    var j :| 0 <= j < Tries && r.value == TempName(prefix, picks[j], suffix);
    assert r.value[..1] == TempDir[..1];
  }

  /** The script made by the calls `s1`, the rest of `run_shell_wrapped` by the calls `s2`. */
  lemma RunWrappedComposed(commands: seq<string>, picks: seq<string>, outPicks: seq<string>, s1: seq<DeviceOp>, s2: seq<DeviceOp>, script: string, r: Result<Wrapped, Raise>)
    requires |picks| == Tries && |outPicks| == Tries
    requires Made(MkstempDialog(JoinTerminated(commands), DefaultPrefix, ".sh", picks, s1), s1, Some(script))
    requires Made(OutfileDialog(script, outPicks, s2), s2, r)
    ensures Made(RunWrappedDialog(commands, picks, outPicks, s1 + s2), s1 + s2, r)
  {
    MkFromStable(JoinTerminated(commands), DefaultPrefix, ".sh", picks, 0, s1, s2);
    assert (s1 + s2)[|s1|..] == s2;
  }

  /** The output file made by the calls `s1`, the run or the removal of the script by the calls `s2`. */
  lemma OutfileComposed(script: string, outPicks: seq<string>, s1: seq<DeviceOp>, s2: seq<DeviceOp>, outfile: Option<string>, r: Result<Wrapped, Raise>)
    requires |outPicks| == Tries
    requires Made(MkstempDialog("", DefaultPrefix, ".txt", outPicks, s1), s1, outfile)
    requires outfile.None? ==> Made(Cleanup(Ok(NotRun), [RemoveCommand(script)], s2), s2, r)
    requires outfile.Some? ==> Made(ExecDialog(script, outfile.value, s2), s2, r)
    ensures Made(OutfileDialog(script, outPicks, s1 + s2), s1 + s2, r)
  {
    MkFromStable("", DefaultPrefix, ".txt", outPicks, 0, s1, s2);
    assert (s1 + s2)[|s1|..] == s2;
  }
}
