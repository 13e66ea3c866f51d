/**
 * The bot-side state container of a Swarming bot (`api/bot.py`): its
 * dimensions and state dictionaries, the server-forced dimension override
 * applied after the handshake, the events it posts when it reports an error
 * or reboots the host, and the function that shortens the file names of a
 * call stack before they are reported.
 */
module BotState {
  import opened Wrappers
  import opened Strings
  import opened Values
  import opened Ordering
  import opened Exceptions

  // ------------------------------------------------------- stack stripper

  /** `os.path.isabs` on POSIX. */
  predicate IsAbs(p: string) {
    StartsWith(p, "/")
  }

  /** `[c for c in parts if c]`. */
  function NonEmpty(parts: seq<string>): (r: seq<string>)
    ensures forall i :: 0 <= i < |r| ==> r[i] != ""
  {
    if |parts| == 0 then []
    else if parts[0] == "" then NonEmpty(parts[1..])
    else [parts[0]] + NonEmpty(parts[1..])
  }

  /** The components of a POSIX path: its pieces between '/' that are not empty. */
  function Components(p: string): seq<string> {
    NonEmpty(Split(p, '/'))
  }

  /** The split paths of `_get_stripper`: those of the absolute paths outside the standard library. */
  function SplitPaths(paths: seq<string>, stdlib: string): (r: seq<seq<string>>)
    ensures |r| <= |paths|
  {
    if |paths| == 0 then []
    else
      var rest := SplitPaths(paths[1..], stdlib);
      if IsAbs(paths[0]) && !StartsWith(paths[0], stdlib) then [Components(paths[0])] + rest else rest
  }

  /** The leading components that `a` and `b` share, as the `zip` loop collects them. */
  function CommonPrefix(a: seq<string>, b: seq<string>): (c: seq<string>)
    ensures c <= a && c <= b
    ensures |c| < |a| && |c| < |b| ==> a[|c|] != b[|c|]
  {
    if |a| == 0 || |b| == 0 || a[0] != b[0] then []
    else [a[0]] + CommonPrefix(a[1..], b[1..])
  }

  /**
   * The common root of the split paths, joined back into a path; None when
   * there are no split paths or they share no component (both are falsy).
   */
  function RootOf(split: seq<seq<string>>): (r: Option<string>)
    ensures r.Some? ==> IsAbs(r.value)
  {
    if |split| == 0 then None
    else
      var c := CommonPrefix(MinPath(split), MaxPath(split));
      if |c| == 0 then None else Some("/" + Join("/", c))
  }

  /** The function `_get_stripper` returns: the identity, or one stripping these prefixes. */
  datatype Stripper = Identity | Stripping(stdlib: string, root: Option<string>)

  function StripperFor(paths: seq<string>, stdlib: string): Stripper {
    if |paths| == 0 then Identity else Stripping(stdlib, RootOf(SplitPaths(paths, stdlib)))
  }

  /**
   * The stripper applied to a file name: the standard-library directory
   * first, then the common root of absolute names, then a leading "./".
   */
  function Apply(s: Stripper, f: string): (r: string)
    ensures EndsWith(f, r)
    ensures s.Identity? ==> r == f
    ensures s.Stripping? && StartsWith(f, s.stdlib) ==> r == Drop(f, |s.stdlib| + 1)
  {
    match s
    case Identity => f
    case Stripping(stdlib, root) =>
      if StartsWith(f, stdlib) then Drop(f, |stdlib| + 1)
      else if IsAbs(f) && root.Some? then Drop(f, |root.value| + 1)
      else if StartsWith(f, "./") then Drop(f, 2)
      else f
  }

  /** Both `CommonPrefix` results satisfy the same maximality, so a loop meeting it computes the function. */
  lemma {:induction false} CommonPrefixUnique(c: seq<string>, a: seq<string>, b: seq<string>)
    requires c <= a && c <= b
    requires |c| < |a| && |c| < |b| ==> a[|c|] != b[|c|]
    ensures c == CommonPrefix(a, b)
  {
    if |c| > 0 {
      assert a[0] == c[0] && b[0] == c[0];
      CommonPrefixUnique(c[1..], a[1..], b[1..]);
      assert c == [c[0]] + c[1..];
    } else if |a| > 0 && |b| > 0 {
      assert a[0] != b[0];
    }
  }

  /** Every prefix shared by `a` and `b` is part of their common prefix. */
  lemma {:induction false} CommonPrefixLongest(c: seq<string>, a: seq<string>, b: seq<string>)
    requires c <= a && c <= b
    ensures c <= CommonPrefix(a, b)
  {
    if |c| > 0 {
      assert a[0] == c[0] && b[0] == c[0];
      CommonPrefixLongest(c[1..], a[1..], b[1..]);
      assert CommonPrefix(a, b) == [a[0]] + CommonPrefix(a[1..], b[1..]);
    }
  }

  /**
   * The common prefix of the lowest and the highest split path is shared by
   * every split path, and every prefix they all share is part of it: the
   * maximal common root, although only two of the paths are compared.
   */
  lemma RootIsCommon(split: seq<seq<string>>, c: seq<string>)
    requires |split| > 0
    ensures forall p :: p in split ==> CommonPrefix(MinPath(split), MaxPath(split)) <= p
    ensures (forall p :: p in split ==> c <= p) ==> c <= CommonPrefix(MinPath(split), MaxPath(split))
  {
    var lo, hi := MinPath(split), MaxPath(split);
    var common := CommonPrefix(lo, hi);
    forall p | p in split
      ensures common <= p
    {
      PrefixBetween(common, lo, p, hi);
    }
    if forall p :: p in split ==> c <= p {
      CommonPrefixLongest(c, lo, hi);
    }
  }

  /** `"/".join(a + b)` joins the two halves with one more separator. */
  lemma {:induction false} JoinAppend(a: seq<string>, b: seq<string>)
    requires |a| > 0 && |b| > 0
    ensures Join("/", a + b) == Join("/", a) + "/" + Join("/", b)
  {
    if |a| == 1 {
      assert (a + b)[1..] == b;
    } else {
      assert (a + b)[1..] == a[1..] + b;
      JoinAppend(a[1..], b);
    }
  }

  /**
   * An absolute name outside the standard library that lies below the
   * common root loses exactly the root's components.
   */
  lemma StripsRoot(stdlib: string, root: seq<string>, comps: seq<string>)
    requires |root| > 0 && root < comps
    requires !StartsWith("/" + Join("/", comps), stdlib)
    ensures Apply(Stripping(stdlib, Some("/" + Join("/", root))), "/" + Join("/", comps)) == Join("/", comps[|root|..])
  {
    assert comps == root + comps[|root|..];
    JoinAppend(root, comps[|root|..]);
    var f := "/" + Join("/", comps);
    var r := "/" + Join("/", root);
    assert f == r + "/" + Join("/", comps[|root|..]);
    assert Drop(f, |r| + 1) == Join("/", comps[|root|..]);
  }

  /** `_get_stripper(paths)`, with `stdlib` the directory of the `os` module. */
  method GetStripper(paths: seq<string>, stdlib: string) returns (s: Stripper)
    ensures s == StripperFor(paths, stdlib)
  {
    if |paths| == 0 {
      return Identity;
    }
    var split := SplitPaths(paths, stdlib);
    var root := None;
    if |split| > 0 {
      var common := CommonComponents(MinPath(split), MaxPath(split));
      if |common| > 0 {
        root := Some("/" + Join("/", common));
      }
    }
    s := Stripping(stdlib, root);
  }

  /** The `zip` loop of `_get_stripper` over the lowest and highest split paths. */
  method CommonComponents(lo: seq<string>, hi: seq<string>) returns (common: seq<string>)
    ensures common == CommonPrefix(lo, hi)
  {
    common := [];
    var i := 0;
    while i < |lo| && i < |hi| && lo[i] == hi[i]
      invariant i <= |lo| && i <= |hi|
      invariant common == lo[..i] && common == hi[..i]
    {
      common := common + [lo[i]];
      i := i + 1;
    }
    CommonPrefixUnique(common, lo, hi);
  }

  // ---------------------------------------------------------- dimensions

  /** Dimension values: one list of strings per key. */
  type Dims = map<string, seq<string>>

  const IdKey: string := "id"
  const UnknownId: string := "unknown"
  const CfgVersionKey: string := "bot_group_cfg_version"

  /**
   * `dims.copy(); dims.update(server)`: a key the server sets carries exactly
   * the server's values, never a union with the bot's; every other key keeps
   * the bot's values.
   */
  function Override(bot: Dims, server: Dims): (r: Dims)
    ensures r.Keys == bot.Keys + server.Keys
    ensures forall k :: k in server ==> r[k] == server[k]
    ensures forall k :: k in bot && k !in server ==> r[k] == bot[k]
  {
    bot + server
  }

  /** Overriding again with the same server dimensions changes nothing. */
  lemma OverrideIdempotent(bot: Dims, server: Dims)
    ensures Override(Override(bot, server), server) == Override(bot, server)
  {
    var once := Override(bot, server);
    assert Override(once, server).Keys == once.Keys;
    forall k | k in once
      ensures Override(once, server)[k] == once[k]
    {
      if k in server {
        assert Override(once, server)[k] == server[k];
      }
    }
  }

  /** Whatever the bot reported, a server-set dimension wins. */
  lemma OverrideIgnoresBot(bot1: Dims, bot2: Dims, server: Dims, k: string)
    requires k in server
    ensures Override(bot1, server)[k] == Override(bot2, server)[k]
  {
  }

  /** `dims.get('id', ['unknown'])[0]`. */
  function BotId(dims: Dims): (r: Result<string, Raise>)
    ensures IdKey !in dims ==> r == Ok(UnknownId)
    ensures IdKey in dims && |dims[IdKey]| > 0 ==> r == Ok(dims[IdKey][0])
    ensures IdKey in dims && |dims[IdKey]| == 0 ==> r == Err(IndexError)
  {
    if IdKey !in dims then Ok(UnknownId)
    else if |dims[IdKey]| == 0 then Err(IndexError)
    else Ok(dims[IdKey][0])
  }

  /** A bot whose id the server configures cannot report another one. */
  lemma ServerIdWins(bot: Dims, server: Dims)
    requires IdKey in server && |server[IdKey]| > 0
    ensures BotId(Override(bot, server)) == Ok(server[IdKey][0])
  {
  }

  /** `state.copy(); state['bot_group_cfg_version'] = version`. */
  function Stamp(state: map<string, Value>, version: Value): (r: map<string, Value>)
    ensures r.Keys == state.Keys + {CfgVersionKey}
    ensures r[CfgVersionKey] == version
    ensures forall k :: k in state && k != CfgVersionKey ==> r[k] == state[k]
  {
    state[CfgVersionKey := version]
  }

  /** A later stamp replaces an earlier one and keeps the rest. */
  lemma StampAgain(state: map<string, Value>, v1: Value, v2: Value)
    ensures Stamp(Stamp(state, v1), v2) == Stamp(state, v2)
  {
    assert Stamp(Stamp(state, v1), v2).Keys == Stamp(state, v2).Keys;
  }

  // --------------------------------------------------------------- events

  const ErrorEvent: string := "bot_error"
  const RebootingEvent: string := "bot_rebooting"
  const StackHeader: string := "\nCalling stack:\n"
  const BadPartition: string := "This host partition is bad; please fix the host"
  const StuckPrefix: string := "Bot is stuck restarting for: "
  /** The `timeout` given to `os_utilities.restart`, in seconds. */
  const RestartTimeout: nat := 15 * 60

  /** What the bot did to the world outside, in order. */
  datatype Effect =
    | Posted(kind: string, text: string, accepted: bool)
    | RanShutdownHook(raised: bool)
    | OsRestart(message: string, timeout: nat)

  /** What `os_utilities.restart` does: never returns, returns, raises. */
  datatype OsOutcome = Rebooted | Returned | RaisedLookup | RaisedOther(e: Raise)

  /**
   * How `restart` ends: the process is killed by the reboot, it hangs
   * forever after reporting a bad host partition, or it returns after
   * reporting that the reboot did not happen.
   */
  datatype RestartEnd = Rebooting | Hung | Stuck

  /** How the outside world answers one `restart`. */
  datatype World = World(
    rebootingAccepted: bool,
    hookRaises: bool,
    os: OsOutcome,
    errorAccepted: bool,
    stack: string)

  datatype Restarted = Restarted(effects: seq<Effect>, result: Result<RestartEnd, Raise>)

  /** The text `post_error` sends: the message without trailing whitespace, then the stack. */
  function ErrorText(message: string, stack: string): (r: string)
    ensures StartsWith(r, RStrip(message)) && EndsWith(r, StackHeader + stack)
    ensures |r| > |RStrip(message)| && r[|RStrip(message)|] == '\n'
  {
    var head := RStrip(message);
    assert (head + StackHeader + stack)[|head|] == StackHeader[0];
    head + StackHeader + stack
  }

  /** `post_error(message)`: one `bot_error` post, whose failure is swallowed. */
  function ErrorPost(message: string, stack: string, accepted: bool): Effect {
    Posted(ErrorEvent, ErrorText(message, stack), accepted)
  }

  const PostFailure: Raise := RemoteFailure("post_bot_event")

  /** What `restart(message)` does and how it ends. */
  function Restarting(message: string, hasHook: bool, w: World): Restarted {
    var posted := [Posted(RebootingEvent, message, w.rebootingAccepted)];
    if !w.rebootingAccepted then Restarted(posted, Err(PostFailure))
    else
      var tried := posted + (if hasHook then [RanShutdownHook(w.hookRaises)] else []) + [OsRestart(message, RestartTimeout)];
      match w.os
      case Rebooted => Restarted(tried, Ok(Rebooting))
      case RaisedOther(e) => Restarted(tried, Err(e))
      case RaisedLookup => Restarted(tried + [ErrorPost(BadPartition, w.stack, w.errorAccepted)], Ok(Hung))
      case Returned => Restarted(tried + [ErrorPost(StuckPrefix + message, w.stack, w.errorAccepted)], Ok(Stuck))
  }

  /**
   * `restart` first announces the reboot; the hook, when there is one, runs
   * next, and the OS restart is attempted after it whether the hook raised or
   * not. If the announcement fails, nothing else happens.
   */
  lemma RestartOrder(message: string, hasHook: bool, w: World)
    ensures var e := Restarting(message, hasHook, w).effects;
      |e| > 0 && e[0] == Posted(RebootingEvent, message, w.rebootingAccepted)
      && (!w.rebootingAccepted ==> |e| == 1 && Restarting(message, hasHook, w).result == Err(PostFailure))
      && (w.rebootingAccepted && hasHook ==> |e| >= 3 && e[1] == RanShutdownHook(w.hookRaises) && e[2] == OsRestart(message, RestartTimeout))
      && (w.rebootingAccepted && !hasHook ==> |e| >= 2 && e[1] == OsRestart(message, RestartTimeout))
  {
  }

  /** A failing shutdown hook changes neither what follows nor how `restart` ends. */
  lemma HookFailureSwallowed(message: string, w: World)
    requires w.rebootingAccepted
    ensures var a := Restarting(message, true, w);
      var b := Restarting(message, true, w.(hookRaises := !w.hookRaises));
      a.result == b.result && |a.effects| == |b.effects| && a.effects[2..] == b.effects[2..]
  {
  }

  /**
   * After the OS restart: a `LookupError` reports a bad partition and hangs,
   * a normal return reports `Bot is stuck restarting for: <message>`, and
   * either report is made whether or not the server accepts it.
   */
  lemma RestartEnding(message: string, hasHook: bool, w: World)
    requires w.rebootingAccepted
    ensures var r := Restarting(message, hasHook, w);
      |r.effects| > 0
      && (w.os.RaisedLookup? ==> r.result == Ok(Hung) && r.effects[|r.effects| - 1] == Posted(ErrorEvent, ErrorText(BadPartition, w.stack), w.errorAccepted))
      && (w.os.Returned? ==> r.result == Ok(Stuck) && r.effects[|r.effects| - 1] == Posted(ErrorEvent, ErrorText(StuckPrefix + message, w.stack), w.errorAccepted))
      && (w.os.Rebooted? ==> r.result == Ok(Rebooting) && r.effects[|r.effects| - 1] == OsRestart(message, RestartTimeout))
      && (w.os.RaisedOther? ==> r.result == Err(w.os.e))
  {
  }

  // ------------------------------------------------------------------ bot

  /** The attributes a bot keeps and reports. */
  datatype Attributes = Attributes(
    dimensions: Dims,
    state: map<string, Value>,
    cfgVersion: Value,
    serverDimensions: Option<Dims>)

  class Bot {
    /** `_attributes['dimensions']`, {} when absent. */
    var dimensions: Dims
    /** `_attributes['state']`, {} when absent. */
    var state: map<string, Value>
    /** `_bot_group_cfg_ver`. */
    var cfgVersion: Value
    /** `_server_side_dimensions`; None once a configuration without dimensions is applied. */
    var serverDimensions: Option<Dims>
    const server: Option<string>
    const hasShutdownHook: bool
    /** The calls made to the server, the hook and the OS, in order. */
    var effects: seq<Effect>

    function Attrs(): Attributes
      reads this
    {
      Attributes(dimensions, state, cfgVersion, serverDimensions)
    }

    /** A bot named by a server URL without a trailing '/'. */
    constructor (dimensions: Dims, state: map<string, Value>, server: Option<string>, hasShutdownHook: bool)
      requires server.None? || !EndsWith(server.value, "/")
      ensures Attrs() == Attributes(dimensions, state, Null, Some(map[]))
      ensures this.server == server && this.hasShutdownHook == hasShutdownHook
      ensures effects == []
    {
      this.dimensions := dimensions;
      this.state := state;
      cfgVersion := Null;
      serverDimensions := Some(map[]);
      this.server := server;
      this.hasShutdownHook := hasShutdownHook;
      effects := [];
    }

    /** The `id` property. */
    function Id(): (r: Result<string, Raise>)
      reads this
    {
      BotId(dimensions)
    }

    /**
     * `_update_bot_group_cfg(version, cfg)`, `cfgDimensions` being
     * `cfg.get('dimensions')`: the server's dimensions override the bot's
     * and the version is stamped into the state. A configuration without
     * dimensions makes `dict.update(None)` raise after the version and the
     * missing dimensions were recorded.
     */
    method UpdateBotGroupCfg(version: Value, cfgDimensions: Option<Dims>) returns (r: Result<(), Raise>)
      modifies this
      ensures cfgVersion == version && serverDimensions == cfgDimensions
      ensures effects == old(effects)
      ensures cfgDimensions.Some? ==>
                r.Ok? && dimensions == Override(old(dimensions), cfgDimensions.value) && state == Stamp(old(state), version)
      ensures cfgDimensions.None? ==>
                r.Err? && r.error.TypeError? && dimensions == old(dimensions) && state == old(state)
    {
      cfgVersion := version;
      serverDimensions := cfgDimensions;
      r := UpdateDimensions(dimensions);
      if r.Ok? {
        UpdateState(state);
      }
    }

    /** `_update_dimensions(new)`: the new dimensions with the server's on top. */
    method UpdateDimensions(newDimensions: Dims) returns (r: Result<(), Raise>)
      modifies this
      ensures serverDimensions.Some? ==> r.Ok? && dimensions == Override(newDimensions, serverDimensions.value)
      ensures serverDimensions.None? ==> r == Err(TypeError("'NoneType' object is not iterable")) && dimensions == old(dimensions)
      ensures state == old(state) && cfgVersion == old(cfgVersion) && serverDimensions == old(serverDimensions)
      ensures effects == old(effects)
    {
      if serverDimensions.None? {
        return Err(TypeError("'NoneType' object is not iterable"));
      }
      dimensions := Override(newDimensions, serverDimensions.value);
      r := Ok(());
    }

    /** `_update_state(new)`: the new state stamped with the current version. */
    method UpdateState(newState: map<string, Value>)
      modifies this
      ensures state == Stamp(newState, cfgVersion)
      ensures dimensions == old(dimensions) && cfgVersion == old(cfgVersion) && serverDimensions == old(serverDimensions)
      ensures effects == old(effects)
    {
      state := Stamp(newState, cfgVersion);
    }

    /** `post_event(kind, text)`; `accepted` says whether the server call returns or raises. */
    method PostEvent(kind: string, text: string, accepted: bool) returns (r: Result<(), Raise>)
      modifies this
      ensures effects == old(effects) + [Posted(kind, text, accepted)]
      ensures r == if accepted then Ok(()) else Err(PostFailure)
      ensures Attrs() == old(Attrs())
    {
      effects := effects + [Posted(kind, text, accepted)];
      r := if accepted then Ok(()) else Err(PostFailure);
    }

    /** `post_error(message)`, with `stack` the output of `_make_stack()`; it never raises. */
    method PostError(message: string, stack: string, accepted: bool)
      modifies this
      ensures effects == old(effects) + [ErrorPost(message, stack, accepted)]
      ensures Attrs() == old(Attrs())
    {
      var _ := PostEvent(ErrorEvent, ErrorText(message, stack), accepted);
    }

    /** `restart(message)`, the outside world answering as `w` says. */
    method Restart(message: string, w: World) returns (r: Result<RestartEnd, Raise>)
      modifies this
      ensures effects == old(effects) + Restarting(message, hasShutdownHook, w).effects
      ensures r == Restarting(message, hasShutdownHook, w).result
      ensures Attrs() == old(Attrs())
    {
      var posted := PostEvent(RebootingEvent, message, w.rebootingAccepted);
      if posted.Err? {
        return Err(posted.error);
      }
      if hasShutdownHook {
        effects := effects + [RanShutdownHook(w.hookRaises)];
      }
      effects := effects + [OsRestart(message, RestartTimeout)];
      match w.os {
        case Rebooted =>
          r := Ok(Rebooting);
        case RaisedOther(e) =>
          r := Err(e);
        case RaisedLookup =>
          PostError(BadPartition, w.stack, w.errorAccepted);
          r := Ok(Hung);
        case Returned =>
          PostError(StuckPrefix + message, w.stack, w.errorAccepted);
          r := Ok(Stuck);
      }
    }
  }
}
