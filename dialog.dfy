/**
 * How the composite Android operations are specified: by the calls they
 * make on a `LowDevice`, as recorded in its trace. A dialog function reads a
 * run of recorded calls from the front and says what the operation returns
 * when exactly those calls were made with exactly those results, together
 * with how many of the calls it used; None means that the calls are not the
 * ones the code makes.
 */
module Dialog {
  import opened Wrappers
  import opened Exceptions
  import opened AdbLow

  /** The outcome of a run of calls and the number of calls it took. */
  datatype Said<T> = Said(result: T, used: nat)

  function Done<T>(x: T, n: nat): Option<Said<T>> {
    Some(Said(x, n))
  }

  /** The run `d`, preceded by `k` earlier calls. */
  function After<T>(k: nat, d: Option<Said<T>>): (r: Option<Said<T>>)
    ensures r.Some? <==> d.Some?
    ensures r.Some? ==> r.value.result == d.value.result && r.value.used == d.value.used + k
  {
    match d
    case None => None
    case Some(s) => Some(Said(s.result, s.used + k))
  }

  /** `ops` are all the calls of the run `d`, which returned `r`. */
  predicate Made<T(==)>(d: Option<Said<T>>, ops: seq<DeviceOp>, r: T) {
    d == Some(Said(r, |ops|))
  }

  /** The result of `shell(cmd)` when that is the first call of `ops`. */
  function ShellReply(cmd: string, ops: seq<DeviceOp>): Option<Result<ShellOut, Raise>> {
    if |ops| > 0 && ops[0].ShellOp? && ops[0].cmd == cmd then Some(ops[0].result) else None
  }

  /** The result of `pull_content(path)` when that is the first call of `ops`. */
  function PullReply(path: string, ops: seq<DeviceOp>): Option<Option<string>> {
    if |ops| > 0 && ops[0].PullContentOp? && ops[0].path == path then Some(ops[0].got) else None
  }

  /** The result of `push_content(dest, content)`, with the default mtime '0'. */
  function PushReply(dest: string, content: string, ops: seq<DeviceOp>): Option<bool> {
    if |ops| > 0 && ops[0].PushContentOp? && ops[0].dest == dest && ops[0].content == content && ops[0].mtime == DefaultMtime
    then Some(ops[0].ok)
    else None
  }

  /** The result of `stat(path)` when that is the first call of `ops`. */
  function StatReply(path: string, ops: seq<DeviceOp>): Option<Option<StatInfo>> {
    if |ops| > 0 && ops[0].StatOp? && ops[0].path == path then Some(ops[0].info) else None
  }

  /** The default `mtime` argument of `push_content`. */
  const DefaultMtime: string := "0"

  /** Three traces, each extending the one before: the calls since `t0` are those to `t1`, then the rest. */
  lemma SplitRun(t0: seq<DeviceOp>, t1: seq<DeviceOp>, t: seq<DeviceOp>)
    requires t0 <= t1 && t1 <= t
    ensures t0 <= t && t[|t0|..] == t1[|t0|..] + t[|t1|..]
  {
    assert t[..|t0|] == t1[..|t0|];
  }

  /** A reply read from `ops` is read the same from any longer run. */
  lemma RepliesExtend(ops: seq<DeviceOp>, more: seq<DeviceOp>, cmd: string, path: string, content: string)
    requires |ops| > 0
    ensures ShellReply(cmd, ops + more) == ShellReply(cmd, ops)
    ensures PullReply(path, ops + more) == PullReply(path, ops)
    ensures PushReply(path, content, ops + more) == PushReply(path, content, ops)
    ensures StatReply(path, ops + more) == StatReply(path, ops)
    ensures (ops + more)[1..] == ops[1..] + more
  {
    assert (ops + more)[0] == ops[0];
  }

  /** The call `op` recorded after `t0` is the first call of the run since `t0`. */
  lemma Peel(t0: seq<DeviceOp>, op: DeviceOp, t: seq<DeviceOp>)
    requires t0 + [op] <= t
    ensures t0 <= t && |t[|t0|..]| > 0 && t[|t0|..][0] == op && t[|t0|..][1..] == t[|t0| + 1..]
  {
    assert t[..|t0|] == (t0 + [op])[..|t0|];
  }
}
