/**
 * The gRPC flavour of the bot's remote client
 * (`bot_code/remote_client_grpc.py`): how bot attributes are written into
 * the request messages, how a poll reply is turned into the bot's next
 * command, the handshake reply handed to the bot, and the calls that do not
 * reach the server at all. The gRPC stub is replaced by the replies it
 * gives, and every call made through it is recorded.
 */
module RemoteGrpc {
  import opened Wrappers
  import opened Values
  import opened Ordering
  import opened Exceptions

  // ------------------------------------------------------ state messages

  /** A field of the `State` message: a scalar, a repeated field, a `Struct`. */
  datatype StateField = Scalar(v: Value) | Repeated(items: seq<Value>) | Struct(entries: map<string, Value>)

  /** The field of `state[k] == v` after `create_state_proto`; `prev` is what was there before. */
  function Put(prev: Option<StateField>, v: Value): (f: StateField)
    ensures v.Dict? ==> f == Struct(v.entries)
    ensures v.List? && prev.Some? && prev.value.Repeated? ==> f == Repeated(prev.value.items + v.items)
    ensures v.List? && !(prev.Some? && prev.value.Repeated?) ==> f == Repeated(v.items)
    ensures !v.Dict? && !v.List? ==> f == Scalar(v)
  {
    match v
    case Dict(e) => Struct(e)
    case List(items) => if prev.Some? && prev.value.Repeated? then Repeated(prev.value.items + items) else Repeated(items)
    case _ => Scalar(v)
  }

  function Find(fields: map<string, StateField>, k: string): Option<StateField> {
    if k in fields then Some(fields[k]) else None
  }

  /** The keys of `done` whose value is not None. */
  function Written(state: map<string, Value>, done: set<string>): set<string> {
    set k | k in done && k in state && state[k] != Null
  }

  /** The fields after the keys `done` of `state` were handled, in any order. */
  function Filled(prev: map<string, StateField>, state: map<string, Value>, done: set<string>): (r: map<string, StateField>)
  {
    map k | k in prev.Keys + Written(state, done) ::
      if k in Written(state, done) then Put(Find(prev, k), state[k]) else prev[k]
  }

  /** The kind of a field the `State` message type declares: a scalar, a repeated field, a `Struct`. */
  datatype FieldKind = ScalarKind | RepeatedKind | StructKind

  /**
   * `v` can be written into a field of kind `kind`. Any other pairing raises
   * `AttributeError`: `json_format.Parse` into a field that is not a message,
   * `extend` on a field that is not repeated, `setattr` on a repeated or
   * message field.
   */
  predicate Fits(v: Value, kind: FieldKind) {
    match v
    case Dict(_) => kind == StructKind
    case List(_) => kind == RepeatedKind
    case _ => kind == ScalarKind
  }

  /** `create_state_proto` succeeds: every key with a value names a field of the kind its value needs. */
  predicate StateFits(state: map<string, Value>, kinds: map<string, FieldKind>) {
    forall k :: k in state && state[k] != Null ==> FitsField(kinds, k, state[k])
  }

  /** `k` is a field of `kinds` whose kind takes `v`. */
  predicate FitsField(kinds: map<string, FieldKind>, k: string, v: Value) {
    k in kinds && Fits(v, kinds[k])
  }

  /**
   * A None value leaves its field alone; a dictionary becomes a `Struct`; a
   * list extends the repeated field; every other value is set, falsy ones
   * included; keys that are not in `state` keep their fields.
   */
  lemma FilledAt(prev: map<string, StateField>, state: map<string, Value>, k: string)
    ensures k in state && state[k] == Null ==> Find(Filled(prev, state, state.Keys), k) == Find(prev, k)
    ensures k !in state ==> Find(Filled(prev, state, state.Keys), k) == Find(prev, k)
    ensures k in state && state[k] != Null ==> Find(Filled(prev, state, state.Keys), k) == Some(Put(Find(prev, k), state[k]))
    ensures Filled(prev, state, state.Keys).Keys == prev.Keys + Written(state, state.Keys)
  {
  }

  /** The loop step stated on the fields as they are: writing `state[k]` into `now` gives the next `Filled`. */
  lemma FilledNext(prev: map<string, StateField>, state: map<string, Value>, done: set<string>, k: string, now: map<string, StateField>)
    requires k in state && k !in done && now == Filled(prev, state, done)
    ensures Filled(prev, state, done + {k}) == if state[k] == Null then now else now[k := Put(Find(now, k), state[k])]
  {
    FilledStep(prev, state, done, k);
    assert k !in Written(state, done);
    assert Find(now, k) == Find(prev, k);
  }

  /** `now` holds the fields written for some of the keys of `state` other than `k`. */
  ghost predicate PartlyFilled(prev: map<string, StateField>, state: map<string, Value>, k: string, now: map<string, StateField>) {
    exists done :: done <= state.Keys && k !in done && now == Filled(prev, state, done)
  }

  lemma PartlyFilledBy(prev: map<string, StateField>, state: map<string, Value>, done: set<string>, k: string)
    requires done <= state.Keys && k !in done
    ensures PartlyFilled(prev, state, k, Filled(prev, state, done))
  {
  }

  /** The `State` message that `create_state_proto` fills. */
  class StateMessage {
    /** The fields the message type declares, each with its kind. */
    const kinds: map<string, FieldKind>
    var fields: map<string, StateField>

    constructor (kinds: map<string, FieldKind>)
      ensures this.kinds == kinds && fields == map[]
    {
      this.kinds := kinds;
      fields := map[];
    }
  }

  /** One step of the loop: `state[k]` written into `msg`. */
  lemma FilledStep(prev: map<string, StateField>, state: map<string, Value>, done: set<string>, k: string)
    requires k in state && k !in done
    ensures Filled(prev, state, done + {k}) ==
      if state[k] == Null then Filled(prev, state, done)
      else Filled(prev, state, done)[k := Put(Find(prev, k), state[k])]
  {
    var now := Filled(prev, state, done);
    if state[k] == Null {
      assert Written(state, done + {k}) == Written(state, done);
    } else {
      assert Written(state, done + {k}) == Written(state, done) + {k};
      assert Find(prev, k) == Find(prev, k);
    }
  }

  /**
   * `create_state_proto(state, msg)`: every key with a value is written into
   * its field, and the call fails with the first key, in the dictionary's
   * order, that names no field or a field of another kind; the keys handled
   * before it stay written.
   */
  method CreateStateProto(state: map<string, Value>, msg: StateMessage) returns (r: Result<(), Raise>)
    modifies msg
    ensures r.Ok? <==> StateFits(state, msg.kinds)
    ensures r.Ok? ==> msg.fields == Filled(old(msg.fields), state, state.Keys)
    ensures r.Err? ==> r.error.AttributeError?
    ensures r.Err? && r.error.AttributeError? ==>
              var k := r.error.name;
              k in state && state[k] != Null && !FitsField(msg.kinds, k, state[k])
              && PartlyFilled(old(msg.fields), state, k, msg.fields)
  {
    var todo := state.Keys;
    ghost var done: set<string> := {};
    while todo != {}
      invariant done + todo == state.Keys && done !! todo
      invariant msg.fields == Filled(old(msg.fields), state, done)
      invariant forall k :: k in done && state[k] != Null ==> FitsField(msg.kinds, k, state[k])
      decreases |todo|
    {
      var k :| k in todo;
      var v := state[k];
      FilledNext(old(msg.fields), state, done, k, msg.fields);
      if v != Null {
        if !FitsField(msg.kinds, k, v) {
          PartlyFilledBy(old(msg.fields), state, done, k);
          return Err(AttributeError(k));
        }
        msg.fields := msg.fields[k := Put(Find(msg.fields, k), v)];
      }
      todo := todo - {k};
      done := done + {k};
    }
    r := Ok(());
  }

  // ------------------------------------------------------ attributes

  /** One `dimensions` entry of the `Attributes` message. */
  datatype DimensionPair = DimensionPair(name: string, values: seq<string>)

  function Names(pairs: seq<DimensionPair>): (r: seq<string>)
    ensures |r| == |pairs| && forall i :: 0 <= i < |pairs| ==> r[i] == pairs[i].name
  {
    if |pairs| == 0 then [] else [pairs[0].name] + Names(pairs[1..])
  }

  /** `pairs` hold the dimensions, one pair per key in sorted key order, each with its values in order. */
  predicate EncodesDims(pairs: seq<DimensionPair>, dims: map<string, seq<string>>) {
    StrictlySorted(Names(pairs))
    && (forall k :: k in Names(pairs) ==> k in dims)
    && (forall k :: k in dims ==> k in Names(pairs))
    && (forall i :: 0 <= i < |pairs| ==> pairs[i].name in dims && pairs[i].values == dims[pairs[i].name])
  }

  /** The dimensions have one encoding only. */
  lemma EncodesDimsUnique(a: seq<DimensionPair>, b: seq<DimensionPair>, dims: map<string, seq<string>>)
    requires EncodesDims(a, dims) && EncodesDims(b, dims)
    ensures a == b
  {
    StrictlySortedUnique(Names(a), Names(b));
    assert |a| == |b|;
    forall i | 0 <= i < |a|
      ensures a[i] == b[i]
    {
      assert Names(a)[i] == Names(b)[i];
    }
  }

  /** The bot's attributes as a dictionary; None marks a missing key. */
  datatype AttributesJson = AttributesJson(
    version: Option<string>,
    dimensions: Option<map<string, seq<string>>>,
    state: Option<map<string, Value>>)

  /** The `Attributes` message. */
  class AttributesMessage {
    var version: string
    var dimensions: seq<DimensionPair>
    const state: StateMessage

    constructor (kinds: map<string, FieldKind>)
      ensures version == "" && dimensions == [] && fresh(state)
      ensures state.kinds == kinds && state.fields == map[]
    {
      version := "";
      dimensions := [];
      state := new StateMessage(kinds);
    }
  }

  /** Everything `_attributes_json_to_proto` needs: the three keys, and a state the message can hold. */
  predicate AttributesFit(json: AttributesJson, kinds: map<string, FieldKind>) {
    json.version.Some? && json.dimensions.Some? && json.state.Some? && StateFits(json.state.value, kinds)
  }

  /** The attributes, as a message value that the stub is called with. */
  datatype AttributesProto = AttributesProto(version: string, dimensions: seq<DimensionPair>, state: map<string, StateField>)

  /** `proto` is what `_attributes_json_to_proto` makes of `json` in a new message. */
  predicate EncodesAttributes(proto: AttributesProto, json: AttributesJson) {
    json.version.Some? && json.dimensions.Some? && json.state.Some?
    && proto.version == json.version.value
    && EncodesDims(proto.dimensions, json.dimensions.value)
    && proto.state == Filled(map[], json.state.value, json.state.value.Keys)
  }

  /** `_attributes_json_to_proto(json, msg)` on a new message. */
  method AttributesToProto(json: AttributesJson, msg: AttributesMessage) returns (r: Result<(), Raise>)
    requires msg.dimensions == [] && msg.state.fields == map[]
    modifies msg, msg.state
    ensures r.Ok? <==> AttributesFit(json, msg.state.kinds)
    ensures r.Ok? ==> EncodesAttributes(AttributesProto(msg.version, msg.dimensions, msg.state.fields), json)
    ensures json.version.None? ==> r == Err(KeyError("version"))
    ensures json.version.Some? && json.dimensions.None? ==> r == Err(KeyError("dimensions"))
    ensures json.version.Some? && json.dimensions.Some? && json.state.None? ==> r == Err(KeyError("state"))
    ensures json.version.Some? ==> msg.version == json.version.value
    ensures json.version.Some? && json.dimensions.Some? ==> EncodesDims(msg.dimensions, json.dimensions.value)
    ensures json.version.None? || json.dimensions.None? ==> msg.dimensions == []
    ensures json.state.None? ==> msg.state.fields == map[]
  {
    if json.version.None? {
      return Err(KeyError("version"));
    }
    msg.version := json.version.value;
    if json.dimensions.None? {
      return Err(KeyError("dimensions"));
    }
    AddDimensions(json.dimensions.value, msg);
    if json.state.None? {
      return Err(KeyError("state"));
    }
    r := CreateStateProto(json.state.value, msg.state);
  }

  /** The sorted loop of `_attributes_json_to_proto`: one pair per dimension. */
  method AddDimensions(dims: map<string, seq<string>>, msg: AttributesMessage)
    requires msg.dimensions == []
    modifies msg
    ensures EncodesDims(msg.dimensions, dims)
    ensures msg.version == old(msg.version)
  {
    var keys := SortedSet(dims.Keys);
    var pairs := PairsOf(keys, dims);
    msg.dimensions := pairs;
    PairsEncode(keys, dims, pairs);
  }

  /** One pair per key, in the order of `keys`. */
  method PairsOf(keys: seq<string>, dims: map<string, seq<string>>) returns (pairs: seq<DimensionPair>)
    requires forall x :: x in keys ==> x in dims
    ensures |pairs| == |keys| && forall j :: 0 <= j < |keys| ==> pairs[j] == DimensionPair(keys[j], dims[keys[j]])
  {
    pairs := [];
    var i := 0;
    while i < |keys|
      invariant i <= |keys| && |pairs| == i
      invariant forall j :: 0 <= j < i ==> pairs[j] == DimensionPair(keys[j], dims[keys[j]])
    {
      pairs := pairs + [DimensionPair(keys[i], dims[keys[i]])];
      i := i + 1;
    }
  }

  /** Pairs made from the sorted keys, in order, encode the dimensions. */
  lemma PairsEncode(keys: seq<string>, dims: map<string, seq<string>>, pairs: seq<DimensionPair>)
    requires StrictlySorted(keys) && (forall x :: x in keys <==> x in dims)
    requires |pairs| == |keys| && forall j :: 0 <= j < |keys| ==> pairs[j] == DimensionPair(keys[j], dims[keys[j]])
    ensures EncodesDims(pairs, dims)
  {
    assert Names(pairs) == keys;
  }

  // ------------------------------------------------------------- polling

  /** The `cmd` of a poll reply: one of the five commands, or a code the bot does not know. */
  datatype Cmd = Update | Sleep | Terminate | Restart | Run | Unknown(code: int)

  /** The `manifest` of a RUN reply. */
  datatype ProtoManifest = ProtoManifest(
    botId: string,
    dimensions: map<string, Value>,
    env: map<string, Value>,
    gracePeriod: int,
    hardTimeout: int,
    ioTimeout: int,
    namespace: string,
    input: string,
    taskId: string)

  datatype PollResponse = PollResponse(
    cmd: Cmd,
    version: string,
    sleepTime: real,
    terminateTaskId: string,
    restartMessage: string,
    manifest: ProtoManifest)

  datatype Isolated = Isolated(namespace: string, input: string, server: string)

  /** The task manifest handed to the bot; `command` is always None. */
  datatype Manifest = Manifest(
    botId: string,
    command: Option<seq<string>>,
    dimensions: map<string, Value>,
    env: map<string, Value>,
    gracePeriod: int,
    hardTimeout: int,
    ioTimeout: int,
    isolated: Isolated,
    taskId: string)

  /** The pair `poll` returns: `('update', version)`, `('sleep', time)` and so on. */
  datatype PollOutcome =
    | UpdateTo(version: string)
    | SleepFor(time: real)
    | TerminateTask(taskId: string)
    | RestartWith(message: string)
    | RunTask(manifest: Manifest)

  /** The manifest of a RUN reply, for a client talking to `server`. */
  function ManifestOf(server: string, m: ProtoManifest): (r: Manifest)
    ensures r.command.None? && r.isolated.server == server
    ensures r.botId == m.botId && r.taskId == m.taskId && r.dimensions == m.dimensions && r.env == m.env
    ensures r.gracePeriod == m.gracePeriod && r.hardTimeout == m.hardTimeout && r.ioTimeout == m.ioTimeout
    ensures r.isolated.namespace == m.namespace && r.isolated.input == m.input
  {
    Manifest(m.botId, None, m.dimensions, m.env, m.gracePeriod, m.hardTimeout, m.ioTimeout,
             Isolated(m.namespace, m.input, server), m.taskId)
  }

  /** What `poll` returns for a reply. */
  function Decode(server: string, resp: PollResponse): (r: Result<PollOutcome, Raise>)
  {
    match resp.cmd
    case Update => Ok(UpdateTo(resp.version))
    case Sleep => Ok(SleepFor(resp.sleepTime))
    case Terminate => Ok(TerminateTask(resp.terminateTaskId))
    case Restart => Ok(RestartWith(resp.restartMessage))
    case Run => Ok(RunTask(ManifestOf(server, resp.manifest)))
    case Unknown(_) => Err(ValueError("Unknown command in response"))
  }

  /**
   * Each of the five commands yields its own outcome, carrying the reply's
   * field for that command; any other code raises `ValueError` and never
   * falls back to an outcome.
   */
  lemma DecodeCases(server: string, resp: PollResponse)
    ensures Decode(server, resp).Err? <==> resp.cmd.Unknown?
    ensures Decode(server, resp).Err? ==> Decode(server, resp).error.ValueError?
    ensures var r := Decode(server, resp);
      (resp.cmd.Update? <==> r.Ok? && r.value.UpdateTo?)
      && (resp.cmd.Sleep? <==> r.Ok? && r.value.SleepFor?)
      && (resp.cmd.Terminate? <==> r.Ok? && r.value.TerminateTask?)
      && (resp.cmd.Restart? <==> r.Ok? && r.value.RestartWith?)
      && (resp.cmd.Run? <==> r.Ok? && r.value.RunTask?)
    ensures resp.cmd.Update? ==> Decode(server, resp) == Ok(UpdateTo(resp.version))
    ensures resp.cmd.Sleep? ==> Decode(server, resp) == Ok(SleepFor(resp.sleepTime))
    ensures resp.cmd.Terminate? ==> Decode(server, resp) == Ok(TerminateTask(resp.terminateTaskId))
    ensures resp.cmd.Restart? ==> Decode(server, resp) == Ok(RestartWith(resp.restartMessage))
    ensures resp.cmd.Run? ==> Decode(server, resp) == Ok(RunTask(ManifestOf(server, resp.manifest)))
  {
  }

  /** `_log_is_asleep` after a poll reply: set by SLEEP, cleared by RUN, kept by the rest. */
  function AsleepAfter(asleep: bool, cmd: Cmd): bool {
    if cmd.Sleep? then true else if cmd.Run? then false else asleep
  }

  /** Whether the poll logs "Going to sleep". */
  predicate Notices(asleep: bool, cmd: Cmd) {
    cmd.Sleep? && !asleep
  }

  /** The "Going to sleep" notices logged over a series of poll replies. */
  function NoticesOver(asleep: bool, cmds: seq<Cmd>): nat
    decreases |cmds|
  {
    if |cmds| == 0 then 0
    else (if Notices(asleep, cmds[0]) then 1 else 0) + NoticesOver(AsleepAfter(asleep, cmds[0]), cmds[1..])
  }

  /** Polls that neither sleep nor run leave the flag as it was and log nothing. */
  predicate Neutral(cmds: seq<Cmd>) {
    forall i :: 0 <= i < |cmds| ==> !cmds[i].Sleep? && !cmds[i].Run?
  }

  function AsleepOver(asleep: bool, cmds: seq<Cmd>): bool
    decreases |cmds|
  {
    if |cmds| == 0 then asleep else AsleepOver(AsleepAfter(asleep, cmds[0]), cmds[1..])
  }

  /** Between two SLEEPs, updates, terminations and restarts do not make the bot log again. */
  lemma {:induction false} NeutralKeepsFlag(asleep: bool, cmds: seq<Cmd>)
    requires Neutral(cmds)
    ensures AsleepOver(asleep, cmds) == asleep && NoticesOver(asleep, cmds) == 0
  {
    if |cmds| > 0 {
      assert !cmds[0].Sleep? && !cmds[0].Run?;
      NeutralKeepsFlag(asleep, cmds[1..]);
    }
  }

  /** The notices over one series and then another. */
  lemma {:induction false} NoticesAppend(asleep: bool, a: seq<Cmd>, b: seq<Cmd>)
    ensures NoticesOver(asleep, a + b) == NoticesOver(asleep, a) + NoticesOver(AsleepOver(asleep, a), b)
    ensures AsleepOver(asleep, a + b) == AsleepOver(AsleepOver(asleep, a), b)
    decreases |a|
  {
    if |a| > 0 {
      assert (a + b)[0] == a[0] && (a + b)[1..] == a[1..] + b;
      NoticesAppend(AsleepAfter(asleep, a[0]), a[1..], b);
    } else {
      assert a + b == b;
    }
  }

  /**
   * A SLEEP, whatever neutral polls follow, and another SLEEP log once if the
   * bot was awake and never otherwise; a RUN in between makes the second
   * SLEEP log again.
   */
  lemma SleepsLogOnce(asleep: bool, between: seq<Cmd>)
    requires Neutral(between)
    ensures NoticesOver(asleep, [Sleep] + between + [Sleep]) == if asleep then 0 else 1
    ensures NoticesOver(asleep, [Sleep] + between + [Run, Sleep]) == if asleep then 1 else 2
  {
    NeutralKeepsFlag(true, between);
    NoticesAppend(asleep, [Sleep], between);
    NoticesAppend(asleep, [Sleep] + between, [Sleep]);
    NoticesAppend(asleep, [Sleep] + between, [Run, Sleep]);
    assert NoticesOver(true, [Run, Sleep]) == 1;
  }

  // ----------------------------------------------------------- handshake

  datatype HandshakeResponse = HandshakeResponse(
    serverVersion: string,
    botVersion: string,
    cfgVersion: string,
    cfgDimensions: seq<DimensionPair>)

  /** `{d.name: d.values for d in pairs}`: a later pair for a name wins. */
  function PairsToMap(pairs: seq<DimensionPair>): (m: map<string, seq<string>>)
    ensures m.Keys == set p | p in pairs :: p.name
  {
    if |pairs| == 0 then map[]
    else
      var last := pairs[|pairs| - 1];
      var m := PairsToMap(pairs[..|pairs| - 1])[last.name := last.values];
      assert forall p :: p in pairs <==> p in pairs[..|pairs| - 1] || p == last;
      m
  }

  /** Reading back the encoded dimensions gives the dimensions. */
  lemma {:induction false} PairsToMapOfEncoding(pairs: seq<DimensionPair>, dims: map<string, seq<string>>)
    requires EncodesDims(pairs, dims)
    ensures PairsToMap(pairs) == dims
  {
    var m := PairsToMap(pairs);
    forall k | k in dims
      ensures k in m && m[k] == dims[k]
    {
      assert k in Names(pairs);
      var i :| 0 <= i < |pairs| && Names(pairs)[i] == k;
      LastPairWins(pairs, i);
    }
    forall k | k in m
      ensures k in dims
    {
      var p :| p in pairs && p.name == k;
    }
  }

  /** With distinct names, each pair's values are found under its name. */
  lemma {:induction false} LastPairWins(pairs: seq<DimensionPair>, i: nat)
    requires i < |pairs|
    requires forall a, b :: 0 <= a < b < |pairs| ==> pairs[a].name != pairs[b].name
    ensures pairs[i].name in PairsToMap(pairs) && PairsToMap(pairs)[pairs[i].name] == pairs[i].values
  {
    if i < |pairs| - 1 {
      LastPairWins(pairs[..|pairs| - 1], i);
    }
  }

  /** The dimensions as the dictionary value of the handshake reply. */
  function DimsValue(dims: map<string, seq<string>>): map<string, Value> {
    map k | k in dims :: List(seq(|dims[k]|, i requires 0 <= i < |dims[k]| => Str(dims[k][i])))
  }

  const ServerVersionKey: string := "server_version"
  const BotVersionKey: string := "bot_version"
  const CfgVersionKey: string := "bot_group_cfg_version"
  const CfgKey: string := "bot_group_cfg"
  const DimensionsKey: string := "dimensions"

  /** The dictionary `do_handshake` returns. */
  function HandshakeReply(resp: HandshakeResponse): (r: map<string, Value>)
    ensures r.Keys == {ServerVersionKey, BotVersionKey, CfgVersionKey, CfgKey}
    ensures r[CfgKey] == Dict(map[DimensionsKey := Dict(DimsValue(PairsToMap(resp.cfgDimensions)))])
    ensures r[ServerVersionKey] == Str(resp.serverVersion) && r[BotVersionKey] == Str(resp.botVersion)
    ensures r[CfgVersionKey] == Str(resp.cfgVersion)
  {
    map[ServerVersionKey := Str(resp.serverVersion),
        BotVersionKey := Str(resp.botVersion),
        CfgVersionKey := Str(resp.cfgVersion),
        CfgKey := Dict(map[DimensionsKey := Dict(DimsValue(PairsToMap(resp.cfgDimensions)))])]
  }

  // -------------------------------------------------------------- client

  /** One call made through the gRPC stub. */
  datatype Rpc = HandshakeCall(attributes: AttributesProto) | PollCall(attributes: AttributesProto)

  class RemoteClient {
    const server: string
    /** The fields of the `State` message type, with their kinds. */
    const stateFields: map<string, FieldKind>
    /** `_log_is_asleep`. */
    var logIsAsleep: bool
    /** How many times "Going to sleep" was logged. */
    var sleepNotices: nat
    /** The calls made through the stub, in order. */
    var calls: seq<Rpc>

    constructor (server: string, stateFields: map<string, FieldKind>)
      ensures this.server == server && this.stateFields == stateFields
      ensures !logIsAsleep && sleepNotices == 0 && calls == []
    {
      this.server := server;
      this.stateFields := stateFields;
      logIsAsleep := false;
      sleepNotices := 0;
      calls := [];
    }

    /** `post_bot_event`: only logged, never sent; nothing changes. */
    method PostBotEvent(kind: string, message: string, attributes: map<string, Value>) {
    }

    /** `post_task_update`: only logged; it reports success. */
    method PostTaskUpdate(taskId: string, botId: string, params: map<string, Value>, stdout: Option<string>, exitCode: Option<int>)
      returns (ok: bool)
      ensures ok
    {
      ok := true;
    }

    /** `post_task_error`: only logged; it reports success. */
    method PostTaskError(taskId: string, botId: string, message: string) returns (ok: bool)
      ensures ok
    {
      ok := true;
    }

    /** The request attributes, or the error that stops the call before the stub is reached. */
    method Encode(attributes: AttributesJson) returns (r: Result<AttributesProto, Raise>)
      ensures r.Ok? <==> AttributesFit(attributes, stateFields)
      ensures r.Ok? ==> EncodesAttributes(r.value, attributes)
    {
      var msg := new AttributesMessage(stateFields);
      var done := AttributesToProto(attributes, msg);
      if done.Err? {
        return Err(done.error);
      }
      r := Ok(AttributesProto(msg.version, msg.dimensions, msg.state.fields));
    }

    /** `do_handshake(attributes)`, the stub answering `resp`. */
    method DoHandshake(attributes: AttributesJson, resp: HandshakeResponse) returns (r: Result<map<string, Value>, Raise>)
      modifies this
      ensures r.Ok? <==> AttributesFit(attributes, stateFields)
      ensures r.Ok? ==>
                r.value == HandshakeReply(resp)
                && |calls| == |old(calls)| + 1 && calls[..|old(calls)|] == old(calls)
                && calls[|old(calls)|].HandshakeCall? && EncodesAttributes(calls[|old(calls)|].attributes, attributes)
      ensures r.Err? ==> calls == old(calls)
      ensures logIsAsleep == old(logIsAsleep) && sleepNotices == old(sleepNotices)
    {
      var request := Encode(attributes);
      if request.Err? {
        return Err(request.error);
      }
      calls := calls + [HandshakeCall(request.value)];
      r := Ok(HandshakeReply(resp));
    }

    /** `poll(attributes)`, the stub answering `resp`. */
    method Poll(attributes: AttributesJson, resp: PollResponse) returns (r: Result<PollOutcome, Raise>)
      modifies this
      ensures !AttributesFit(attributes, stateFields) ==>
                r.Err? && calls == old(calls)
                && logIsAsleep == old(logIsAsleep) && sleepNotices == old(sleepNotices)
      ensures AttributesFit(attributes, stateFields) ==>
                r == Decode(server, resp)
                && |calls| == |old(calls)| + 1 && calls[..|old(calls)|] == old(calls)
                && calls[|old(calls)|].PollCall? && EncodesAttributes(calls[|old(calls)|].attributes, attributes)
                && logIsAsleep == AsleepAfter(old(logIsAsleep), resp.cmd)
                && sleepNotices == old(sleepNotices) + (if Notices(old(logIsAsleep), resp.cmd) then 1 else 0)
    {
      var request := Encode(attributes);
      if request.Err? {
        return Err(request.error);
      }
      calls := calls + [PollCall(request.value)];
      match resp.cmd {
        case Update =>
          r := Ok(UpdateTo(resp.version));
        case Sleep =>
          if !logIsAsleep {
            sleepNotices := sleepNotices + 1;
            logIsAsleep := true;
          }
          r := Ok(SleepFor(resp.sleepTime));
        case Terminate =>
          r := Ok(TerminateTask(resp.terminateTaskId));
        case Restart =>
          r := Ok(RestartWith(resp.restartMessage));
        case Run =>
          var manifest := ManifestOf(server, resp.manifest);
          logIsAsleep := false;
          r := Ok(RunTask(manifest));
        case Unknown(_) =>
          r := Err(ValueError("Unknown command in response"));
      }
    }
  }
}
