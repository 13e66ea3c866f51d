/**
 * `push_keys`: the public adb keys known on the host are added to the
 * device's list of trusted keys, `/data/misc/adb/adb_keys`, one key per line
 * in sorted order. A key already trusted is never removed, and the file is
 * not written when every host key is already in it.
 */
module AdbKeys {
  import opened Wrappers
  import opened Strings
  import opened Exceptions
  import opened AdbLow
  import opened Dialog
  import opened Ordering

  const KeysPath: string := "/data/misc/adb/adb_keys"
  const MkdirCommand: string := "mkdir -p /data/misc/adb"
  const RestoreDirCommand: string := "restorecon /data/misc/adb"
  const RestoreFileCommand: string := "restorecon /data/misc/adb/adb_keys"

  /** The message of the failed assertion on the keys. */
  const BadKeys: string := "keys"

  type Run = Option<Said<Result<bool, Raise>>>

  predicate NoNewline(keys: set<string>) {
    forall k :: k in keys ==> '\n' !in k
  }

  /** `set(content.strip().splitlines())`: the keys a trusted-keys file lists. */
  function TrustedKeys(content: string): (r: set<string>)
    ensures forall k :: k in r ==> NoLineBreak(k)
  {
    SplitLinesHaveNoBreaks(Strip(content));
    set l | l in SplitLines(Strip(content))
  }

  /** The keys to write: the host's, with those of the device's file when it could be read and is not empty. */
  function Merged(local: set<string>, prev: Option<string>): (r: set<string>)
    ensures local <= r
    ensures prev.Some? && prev.value != "" ==> TrustedKeys(prev.value) <= r
    ensures r <= local + (if prev.Some? then TrustedKeys(prev.value) else {})
  {
    if prev.Some? && prev.value != "" then local + TrustedKeys(prev.value) else local
  }

  /** The file `push_keys` writes: every key on its own line, in sorted order. */
  ghost function KeysContent(keys: set<string>): string {
    JoinTerminated(SortedElements(keys))
  }

  /** Whether the device's file, as read, already trusts every host key. */
  predicate Covered(local: set<string>, prev: Option<string>) {
    prev.Some? && prev.value != "" && local <= TrustedKeys(prev.value)
  }

  /** The calls `push_keys` makes when the host knows the keys `local`. */
  ghost function PushKeysDialog(local: set<string>, ops: seq<DeviceOp>): (d: Run)
    ensures d.Some? ==> d.value.used <= |ops|
  {
    if local == {} then Done(Ok(false), 0)
    else if !NoNewline(local) then Done(Err(AssertionError(BadKeys)), 0)
    else
      match PullReply(KeysPath, ops)
      case None => None
      case Some(prev) =>
        if Covered(local, prev) then Done(Ok(true), 1)
        else After(1, MkdirDialog(KeysContent(Merged(local, prev)), ops[1..]))
  }

  /** A read of a file that already trusts every host key is a whole run of `PushKeysDialog`, giving True. */
  lemma PushKeysCovered(local: set<string>, prev: Option<string>, s: seq<DeviceOp>)
    requires local != {} && NoNewline(local) && Covered(local, prev)
    requires s == [PullContentOp(KeysPath, prev)]
    ensures Made(PushKeysDialog(local, s), s, Ok(true))
  {
  }

  /** A read of a file that misses some host key, then a run of the write, is a run of `PushKeysDialog`. */
  lemma PushKeysInstalled(local: set<string>, prev: Option<string>, s: seq<DeviceOp>, r: Result<bool, Raise>)
    requires local != {} && NoNewline(local) && !Covered(local, prev)
    requires |s| > 0 && s[0] == PullContentOp(KeysPath, prev)
    requires Made(MkdirDialog(KeysContent(Merged(local, prev)), s[1..]), s[1..], r)
    ensures Made(PushKeysDialog(local, s), s, r)
  {
  }

  /** A read of the trusted keys, then the write when they miss some of `local`, is a run of `PushKeysDialog`. */
  lemma PushKeysStep(local: set<string>, prev: Option<string>, s: seq<DeviceOp>, r: Result<bool, Raise>)
    requires local != {} && NoNewline(local)
    requires |s| > 0 && s[0] == PullContentOp(KeysPath, prev)
    requires Covered(local, prev) ==> |s| == 1 && r == Ok(true)
    requires !Covered(local, prev) ==> Made(MkdirDialog(KeysContent(Merged(local, prev)), s[1..]), s[1..], r)
    ensures Made(PushKeysDialog(local, s), s, r)
  {
    if Covered(local, prev) {
      assert s == [PullContentOp(KeysPath, prev)];
      PushKeysCovered(local, prev, s);
    } else {
      PushKeysInstalled(local, prev, s, r);
    }
  }

  function MkdirDialog(content: string, ops: seq<DeviceOp>): (d: Run)
    ensures d.Some? ==> 0 < d.value.used <= |ops|
  {
    match ShellReply(MkdirCommand, ops)
    case None => None
    case Some(Err(e)) => Done(Err(e), 1)
    case Some(Ok(sh)) => if sh.exitCode != Some(0) then Done(Ok(false), 1) else After(1, RestoreDirDialog(content, ops[1..]))
  }

  function RestoreDirDialog(content: string, ops: seq<DeviceOp>): (d: Run)
    ensures d.Some? ==> 0 < d.value.used <= |ops|
  {
    match ShellReply(RestoreDirCommand, ops)
    case None => None
    case Some(Err(e)) => Done(Err(e), 1)
    case Some(Ok(sh)) => if sh.exitCode != Some(0) then Done(Ok(false), 1) else After(1, WriteKeysDialog(content, ops[1..]))
  }

  function WriteKeysDialog(content: string, ops: seq<DeviceOp>): (d: Run)
    ensures d.Some? ==> 0 < d.value.used <= |ops|
  {
    match PushReply(KeysPath, content, ops)
    case None => None
    case Some(ok) => if !ok then Done(Ok(false), 1) else After(1, RestoreFileDialog(ops[1..]))
  }

  function RestoreFileDialog(ops: seq<DeviceOp>): (d: Run)
    ensures d.Some? ==> d.value.used == 1 <= |ops|
  {
    match ShellReply(RestoreFileCommand, ops)
    case None => None
    case Some(Err(e)) => Done(Err(e), 1)
    case Some(Ok(sh)) => Done(Ok(sh.exitCode == Some(0)), 1)
  }

  // ------------------------------------------------------------ properties

  /** A key as `initialize` keeps it: stripped, on one line. */
  predicate CleanKey(k: string) {
    |k| > 0 && NoLineBreak(k) && !IsSpace(k[0]) && !IsSpace(k[|k| - 1])
  }

  predicate CleanKeys(keys: set<string>) {
    forall k :: k in keys ==> CleanKey(k)
  }

  /** The host's keys are all kept, and so is every key the device already trusted. */
  lemma {:induction false} NeverForgets(local: set<string>, ops: seq<DeviceOp>, r: Result<bool, Raise>)
    requires Made(PushKeysDialog(local, ops), ops, r) && |ops| > 1
    ensures ops[0].PullContentOp? && ops[0].path == KeysPath && !Covered(local, ops[0].got)
    ensures var keys := Merged(local, ops[0].got);
      local <= keys && (ops[0].got.Some? && ops[0].got.value != "" ==> TrustedKeys(ops[0].got.value) <= keys)
    ensures |ops| > 3 ==> ops[3].PushContentOp? && ops[3].dest == KeysPath && ops[3].content == KeysContent(Merged(local, ops[0].got))
  {
    if |ops| > 3 {
      MkdirWrites(KeysContent(Merged(local, ops[0].got)), ops[1..]);
    }
  }

  lemma MkdirWrites(content: string, s: seq<DeviceOp>)
    requires MkdirDialog(content, s).Some? && MkdirDialog(content, s).value.used == |s| > 2
    ensures s[2].PushContentOp? && s[2].dest == KeysPath && s[2].content == content
  {
    assert MkdirDialog(content, s) == After(1, RestoreDirDialog(content, s[1..]));
    RestoreDirWrites(content, s[1..]);
  }

  lemma RestoreDirWrites(content: string, s: seq<DeviceOp>)
    requires RestoreDirDialog(content, s).Some? && RestoreDirDialog(content, s).value.used == |s| > 1
    ensures s[1].PushContentOp? && s[1].dest == KeysPath && s[1].content == content
  {
    assert RestoreDirDialog(content, s) == After(1, WriteKeysDialog(content, s[1..]));
    assert s[1..][0] == s[1];
  }

  /** A shell call that succeeded with exit code 0. */
  predicate ShellSucceeded(op: DeviceOp) {
    op.ShellOp? && op.result.Ok? && op.result.value.exitCode == Some(0)
  }

  /** `True` comes back exactly when the host keys were already trusted, or when all four steps succeeded. */
  lemma {:induction false} PushKeysOutcome(local: set<string>, ops: seq<DeviceOp>, r: Result<bool, Raise>)
    requires Made(PushKeysDialog(local, ops), ops, r) && local != {} && NoNewline(local)
    ensures ops[0].PullContentOp?
    ensures r == Ok(true) <==>
      Covered(local, ops[0].got) ||
      (|ops| == 5 && ShellSucceeded(ops[1]) && ShellSucceeded(ops[2]) &&
        ops[3].PushContentOp? && ops[3].ok && ShellSucceeded(ops[4]))
  {
    if !Covered(local, ops[0].got) {
      var content := KeysContent(Merged(local, ops[0].got));
      assert PushKeysDialog(local, ops) == After(1, MkdirDialog(content, ops[1..]));
      MkdirOutcome(content, ops[1..], r);
    }
  }

  lemma MkdirOutcome(content: string, s: seq<DeviceOp>, r: Result<bool, Raise>)
    requires Made(MkdirDialog(content, s), s, r)
    ensures r == Ok(true) <==>
      |s| == 4 && ShellSucceeded(s[0]) && ShellSucceeded(s[1]) && s[2].PushContentOp? && s[2].ok && ShellSucceeded(s[3])
  {
    if ShellSucceeded(s[0]) {
      assert MkdirDialog(content, s) == After(1, RestoreDirDialog(content, s[1..]));
      RestoreDirOutcome(content, s[1..], r);
    }
  }

  lemma RestoreDirOutcome(content: string, s: seq<DeviceOp>, r: Result<bool, Raise>)
    requires Made(RestoreDirDialog(content, s), s, r)
    ensures r == Ok(true) <==>
      |s| == 3 && ShellSucceeded(s[0]) && s[1].PushContentOp? && s[1].ok && ShellSucceeded(s[2])
  {
    if ShellSucceeded(s[0]) {
      assert RestoreDirDialog(content, s) == After(1, WriteKeysDialog(content, s[1..]));
      WriteKeysOutcome(content, s[1..], r);
    }
  }

  lemma WriteKeysOutcome(content: string, s: seq<DeviceOp>, r: Result<bool, Raise>)
    requires Made(WriteKeysDialog(content, s), s, r)
    ensures r == Ok(true) <==> |s| == 2 && s[0].PushContentOp? && s[0].ok && ShellSucceeded(s[1])
  {
    if s[0].PushContentOp? && s[0].ok {
      assert WriteKeysDialog(content, s) == After(1, RestoreFileDialog(s[1..]));
      assert s[1..][0] == s[1];
    }
  }

  /** A file that holds only stripped one-line keys lists exactly the keys written to it. */
  lemma TrustedKeysOfContent(keys: set<string>)
    requires keys != {} && CleanKeys(keys)
    ensures KeysContent(keys) != "" && TrustedKeys(KeysContent(keys)) == keys
  {
    var ls := SortedElements(keys);
    var some :| some in keys;
    assert some in ls;
    JoinTerminatedIsJoin(ls);
    forall l | l in ls ensures CleanKey(l) {
    }
    TrustedKeysOfLines(ls);
    forall x ensures x in (set l | l in ls) <==> x in keys {
    }
  }

  /** Stripped non-empty lines, each written with a '\n', are read back as the same set of lines. */
  lemma TrustedKeysOfLines(ls: seq<string>)
    requires |ls| > 0 && forall l :: l in ls ==> CleanKey(l)
    ensures TrustedKeys(JoinTerminated(ls)) == set l | l in ls
  {
    var body := Join("\n", ls);
    JoinTerminatedIsJoin(ls);
    JoinEdges(ls);
    assert ls[0] in ls && ls[|ls| - 1] in ls;
    assert CleanKey(ls[0]) && CleanKey(ls[|ls| - 1]);
    StripTerminated(body);
    SplitJoin(ls);
  }

  lemma {:induction false} JoinTerminatedIsJoin(ls: seq<string>)
    requires |ls| > 0
    ensures JoinTerminated(ls) == Join("\n", ls) + "\n"
  {
    if |ls| > 1 {
      JoinTerminatedIsJoin(ls[1..]);
    }
  }

  /** The first and last characters of the joined lines are those of the first and last line. */
  lemma {:induction false} JoinEdges(ls: seq<string>)
    requires |ls| > 0 && forall l :: l in ls ==> |l| > 0
    ensures var j := Join("\n", ls); |j| > 0 && j[0] == ls[0][0] && j[|j| - 1] == ls[|ls| - 1][|ls[|ls| - 1]| - 1]
  {
    assert ls[0] in ls;
    if |ls| > 1 {
      assert forall l :: l in ls[1..] ==> l in ls;
      JoinEdges(ls[1..]);
    }
  }

  /** `strip()` of text with non-space ends and one trailing newline drops just that newline. */
  lemma StripTerminated(s: string)
    requires |s| > 0 && !IsSpace(s[0]) && !IsSpace(s[|s| - 1])
    ensures Strip(s + "\n") == s
  {
    var t := s + "\n";
    var r := RStrip(t);
    assert t[|s| - 1] == s[|s| - 1] && t[|s|] == '\n';
    assert |r| == |s|;
    assert t[..|s|] == s;
  }

  /** Non-empty lines joined by '\n' are split back into the same lines. */
  lemma {:induction false} SplitJoin(ls: seq<string>)
    requires |ls| > 0 && forall l :: l in ls ==> |l| > 0 && NoLineBreak(l)
    ensures SplitLines(Join("\n", ls)) == ls
  {
    assert ls[0] in ls;
    if |ls| == 1 {
      assert FirstBreak(ls[0]) == |ls[0]| by {
        FirstBreakOfLine(ls[0]);
      }
    } else {
      assert forall l :: l in ls[1..] ==> l in ls;
      SplitJoin(ls[1..]);
      SplitLinesCons(ls[0], Join("\n", ls[1..]));
    }
  }

  lemma FirstBreakOfLine(l: string)
    requires NoLineBreak(l)
    ensures FirstBreak(l) == |l|
  {
    FirstBreakOf(l, "\n");
    assert (l + "\n")[..|l|] == l;
    FirstBreakPrefix(l, "\n");
  }

  /** Where in `l` the first break lies does not change when text is appended after a break. */
  lemma {:induction false} FirstBreakPrefix(l: string, t: string)
    requires FirstBreak(l + t) == |l| && NoLineBreak(l)
    ensures FirstBreak(l) == |l|
    decreases |l|
  {
    if |l| > 0 {
      assert !IsLineBreak(l[0]);
      assert (l + t)[0] == l[0];
      assert (l + t)[1..] == l[1..] + t;
      FirstBreakPrefix(l[1..], t);
    }
  }

  /** Once `push_keys` has written the file, running it again with the same host keys writes nothing. */
  lemma SecondPushWritesNothing(local: set<string>, keys: set<string>, more: seq<DeviceOp>)
    requires local != {} && CleanKeys(keys) && local <= keys
    ensures PushKeysDialog(local, [PullContentOp(KeysPath, Some(KeysContent(keys)))] + more) == Done(Ok(true), 1)
  {
    var c := KeysContent(keys);
    TrustedKeysOfContent(keys);
    forall x | x in local ensures '\n' !in x {
      assert CleanKey(x);
    }
    var ops := [PullContentOp(KeysPath, Some(c))] + more;
    assert PullReply(KeysPath, ops) == Some(Some(c));
    assert Covered(local, Some(c));
  }

  /** The keys written when the file held only keys written before are stripped one-line keys again. */
  lemma MergedStaysClean(local: set<string>, keys: set<string>)
    requires CleanKeys(local) && CleanKeys(keys) && keys != {}
    ensures Merged(local, Some(KeysContent(keys))) == local + keys
    ensures CleanKeys(local + keys)
  {
    TrustedKeysOfContent(keys);
  }
}
