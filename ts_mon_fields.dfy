/**
 * The metric fields of the Swarming server's monitoring (`ts_mon_metrics.py`):
 * task tags read as a dictionary, the job fields taken from them, the pool
 * string of a bot, the status of an executor and the metric updates made
 * when a task completes.
 */
module TsMonFields {
  import opened Wrappers
  import opened Strings
  import opened Values
  import opened Ordering

  // ----------------------------------------------------------------- tags

  type Tags = map<string, string>

  /** `dict.get(k, default)` on the tags. */
  function GetOr(d: Tags, k: string, default: string): string {
    if k in d then d[k] else default
  }

  /** `_tags_to_dict(tags)`: each tag split at its first ':', tags without one skipped, the later tag winning. */
  function TagsDict(tags: seq<string>): Tags {
    if |tags| == 0 then map[]
    else
      var d := TagsDict(tags[..|tags| - 1]);
      match SplitAtFirst(tags[|tags| - 1], ':')
      case None => d
      case Some((k, v)) => d[k := v]
  }

  /** The loop of `_tags_to_dict`. */
  method TagsToDict(tags: seq<string>) returns (d: Tags)
    ensures d == TagsDict(tags)
  {
    d := map[];
    for i := 0 to |tags|
      invariant d == TagsDict(tags[..i])
    {
      assert tags[..i + 1][..i] == tags[..i];
      match SplitAtFirst(tags[i], ':') {
        case None =>
        case Some((k, v)) =>
          d := d[k := v];
      }
    }
    assert tags[..|tags|] == tags;
  }

  /** The tag `tags[i]` reads as key `k` and value `v`. */
  predicate TagIs(tags: seq<string>, i: nat, k: string, v: string) {
    i < |tags| && SplitAtFirst(tags[i], ':') == Some((k, v))
  }

  predicate HasKey(tag: string, k: string) {
    var split := SplitAtFirst(tag, ':');
    split.Some? && split.value.0 == k
  }

  /** A key is in the dictionary exactly when some tag has it before its first ':'. */
  lemma {:induction false} TagKeys(tags: seq<string>, k: string)
    ensures k in TagsDict(tags) <==> exists i :: 0 <= i < |tags| && HasKey(tags[i], k)
  {
    if |tags| > 0 {
      var n := |tags| - 1;
      TagKeys(tags[..n], k);
      assert forall i :: 0 <= i < n ==> tags[i] == tags[..n][i];
      if k in TagsDict(tags[..n]) {
        var i :| 0 <= i < n && HasKey(tags[..n][i], k);
        assert HasKey(tags[i], k);
      }
    }
  }

  /** The value of a key is the rest of the last tag with that key, ':' characters included. */
  lemma {:induction false} LastTagWins(tags: seq<string>, i: nat, k: string, v: string)
    requires TagIs(tags, i, k, v)
    requires forall j :: i < j < |tags| ==> !HasKey(tags[j], k)
    ensures k in TagsDict(tags) && TagsDict(tags)[k] == v
  {
    var n := |tags| - 1;
    if i < n {
      assert !HasKey(tags[n], k);
      assert TagIs(tags[..n], i, k, v);
      LastTagWins(tags[..n], i, k, v);
    }
  }

  /** `'spec_name:my:custom:test:spec:name'` gives the spec name `'my:custom:test:spec:name'`. */
  lemma ValueKeepsColons(k: string, v: string)
    requires ':' !in k
    ensures TagsDict([k + ":" + v]) == map[k := v]
  {
    SplitAtFirstOf(k, ':', v);
    assert [k + ":" + v][..0] == [];
  }

  // ----------------------------------------------------------- job fields

  /** The fields of the job metrics: `spec_name`, `project_id`, `subproject_id`, `pool`. */
  datatype JobFields = JobFields(specName: string, projectId: string, subprojectId: string, pool: string)

  const Experimental: string := ":experimental"

  /** `_extract_job_fields(tags)`. */
  function ExtractJobFields(tags: Tags): (f: JobFields)
    ensures GetOr(tags, "spec_name", "") != "" ==> f.specName == tags["spec_name"]
    ensures GetOr(tags, "spec_name", "") == "" && GetOr(tags, "build_is_experimental", "") == "true" ==>
              f.specName == GetOr(tags, "buildername", "") + Experimental
    ensures GetOr(tags, "spec_name", "") == "" && GetOr(tags, "build_is_experimental", "") != "true" ==>
              f.specName == GetOr(tags, "buildername", "")
    ensures f.projectId == GetOr(tags, "project", "") && f.subprojectId == GetOr(tags, "subproject", "")
    ensures f.pool == GetOr(tags, "pool", "")
  {
    var given := GetOr(tags, "spec_name", "");
    var spec :=
      if given != "" then given
      else GetOr(tags, "buildername", "") + (if GetOr(tags, "build_is_experimental", "") == "true" then Experimental else "");
    JobFields(spec, GetOr(tags, "project", ""), GetOr(tags, "subproject", ""), GetOr(tags, "pool", ""))
  }

  /** An experimental build is told apart from the same builder's normal builds. */
  lemma ExperimentalIsDistinct(tags: Tags)
    requires GetOr(tags, "spec_name", "") == ""
    ensures ExtractJobFields(tags).specName != ExtractJobFields(tags["build_is_experimental" := "true"]).specName
      || GetOr(tags, "build_is_experimental", "") == "true"
  {
    var b := GetOr(tags, "buildername", "");
    if GetOr(tags, "build_is_experimental", "") != "true" {
      assert |ExtractJobFields(tags).specName| == |b|;
      assert |ExtractJobFields(tags["build_is_experimental" := "true"]).specName| == |b| + |Experimental|;
    }
  }

  /** The fields of the PubSub latency metrics: `pool` and `status`. */
  datatype PubSubFields = PubSubFields(pool: string, status: string)

  /** `_extract_pubsub_job_fields(tags, state)`, `stateName` being the state's name string. */
  function ExtractPubsubJobFields(tags: Tags, stateName: string): (f: PubSubFields)
    ensures f.pool == GetOr(tags, "pool", "") && f.status == stateName
  {
    PubSubFields(GetOr(tags, "pool", ""), stateName)
  }

  // ----------------------------------------------------------------- pool

  /** `_IGNORED_DIMENSIONS`. */
  const Ignored: set<string> := {"android_devices", "caches", "id", "server_version", "temp_band"}

  /** Whether a later value of the same key starts with `value`. */
  predicate Shadowed(value: string, later: seq<string>) {
    exists v :: v in later && StartsWith(v, value)
  }

  function PairText(key: string, value: string): string {
    key + ":" + value
  }

  /** The pairs the values `values[..n]` of `key` contribute. */
  function KeptPairs(key: string, values: seq<string>, n: nat): (r: seq<string>)
    requires n <= |values|
  {
    if n == 0 then []
    else KeptPairs(key, values, n - 1) + (if Shadowed(values[n - 1], values[n..]) then [] else [PairText(key, values[n - 1])])
  }

  /** The pairs one key contributes: none for an ignored key, else its values no later value extends. */
  function KeyPairs(key: string, values: seq<string>): seq<string> {
    if key in Ignored then [] else KeptPairs(key, values, |values|)
  }

  /** The pairs of the keys `keys`, taken in any order. */
  ghost function PoolPairs(dims: map<string, seq<string>>, keys: set<string>): multiset<string>
    requires keys <= dims.Keys
    decreases keys
  {
    if keys == {} then multiset{}
    else
      var k :| k in keys;
      PoolPairs(dims, keys - {k}) + multiset(KeyPairs(k, dims[k]))
  }

  /** The keys may be taken in any order. */
  lemma {:induction false} PoolPairsAny(dims: map<string, seq<string>>, keys: set<string>, k: string)
    requires keys <= dims.Keys && k in keys
    ensures PoolPairs(dims, keys) == PoolPairs(dims, keys - {k}) + multiset(KeyPairs(k, dims[k]))
    decreases keys
  {
    var j :| j in keys && PoolPairs(dims, keys) == PoolPairs(dims, keys - {j}) + multiset(KeyPairs(j, dims[j]));
    if j != k {
      PoolPairsAny(dims, keys - {j}, k);
      PoolPairsAny(dims, keys - {k}, j);
      assert keys - {j} - {k} == keys - {k} - {j};
    }
  }

  /** A pair is in the pool exactly when one of the keys contributes it. */
  lemma {:induction false} PoolPairsMembers(dims: map<string, seq<string>>, keys: set<string>, p: string)
    requires keys <= dims.Keys
    ensures p in PoolPairs(dims, keys) <==> exists k :: k in keys && p in KeyPairs(k, dims[k])
    decreases keys
  {
    if keys != {} {
      var k :| k in keys;
      PoolPairsAny(dims, keys, k);
      PoolPairsMembers(dims, keys - {k}, p);
    }
  }

  /** A multiset as a sequence, in some order. */
  ghost function Listed(m: multiset<string>): (s: seq<string>)
    decreases |m|
  {
    if |m| == 0 then []
    else
      var x :| x in m;
      [x] + Listed(m - multiset{x})
  }

  /** `Listed` lists exactly the multiset. */
  lemma {:induction false} ListedIsAll(m: multiset<string>)
    ensures multiset(Listed(m)) == m
    decreases |m|
  {
    if |m| > 0 {
      var x :| x in m && Listed(m) == [x] + Listed(m - multiset{x});
      ListedIsAll(m - multiset{x});
    }
  }

  /** The pool string: the sorted pairs joined with '|'. */
  ghost function Pool(dims: map<string, seq<string>>): string {
    Join("|", SortStrings(Listed(PoolPairs(dims, dims.Keys))))
  }

  /**
   * A pair is in the pool exactly when it is `key:value` for a key that is
   * not ignored and a value that no later value of that key starts with.
   */
  lemma {:induction false} KeptPairsMembers(key: string, values: seq<string>, n: nat, p: string)
    requires n <= |values|
    ensures p in KeptPairs(key, values, n) <==>
      exists i :: 0 <= i < n && p == PairText(key, values[i]) && !Shadowed(values[i], values[i + 1..])
  {
    if n > 0 {
      KeptPairsMembers(key, values, n - 1, p);
      if p == PairText(key, values[n - 1]) && !Shadowed(values[n - 1], values[n..]) {
        assert p in KeptPairs(key, values, n);
      }
    }
  }

  /** `_pool_from_dimensions(dims)`. */
  method PoolFromDimensions(dims: map<string, seq<string>>) returns (r: string)
    ensures r == Pool(dims)
  {
    var pairs: seq<string> := [];
    var todo := dims.Keys;
    while todo != {}
      invariant todo <= dims.Keys
      invariant multiset(pairs) == PoolPairs(dims, dims.Keys - todo)
      decreases |todo|
    {
      var k :| k in todo;
      var kept := PairsOfKey(k, dims[k]);
      PoolPairsAny(dims, dims.Keys - (todo - {k}), k);
      assert dims.Keys - (todo - {k}) - {k} == dims.Keys - todo;
      pairs := pairs + kept;
      todo := todo - {k};
    }
    assert dims.Keys - todo == dims.Keys;
    var sorted := SortStrings(pairs);
    ListedIsAll(PoolPairs(dims, dims.Keys));
    SortedUnique(sorted, SortStrings(Listed(PoolPairs(dims, dims.Keys))));
    r := Join("|", sorted);
  }

  /** The inner loop of `_pool_from_dimensions` over one key's values. */
  method PairsOfKey(key: string, values: seq<string>) returns (kept: seq<string>)
    ensures kept == KeyPairs(key, values)
  {
    kept := [];
    if key in Ignored {
      return;
    }
    for i := 0 to |values|
      invariant kept == KeptPairs(key, values, i)
    {
      var shadowed := exists v :: v in values[i + 1..] && StartsWith(v, values[i]);
      if !shadowed {
        kept := kept + [PairText(key, values[i])];
      }
    }
  }

  // ------------------------------------------------------------ executors

  /** The parts of a `BotInfo` that decide its status. */
  datatype BotInfo = BotInfo(
    id: string,
    taskId: string,
    quarantined: bool,
    isDead: bool,
    state: map<string, Value>,
    dimensions: map<string, seq<string>>)

  /** The status rule of `_set_executors_metrics`. */
  function ExecutorStatus(bot: BotInfo): (s: string)
    ensures s == "running" <==> bot.taskId != ""
    ensures s == "quarantined" <==> bot.taskId == "" && bot.quarantined
    ensures s == "dead" <==> bot.taskId == "" && !bot.quarantined && bot.isDead
    ensures s == "maintenance" <==>
              bot.taskId == "" && !bot.quarantined && !bot.isDead && Truthy(Get(bot.state, "maintenance"))
    ensures s in {"running", "quarantined", "dead", "maintenance", "ready"}
  {
    if bot.taskId != "" then "running"
    else if bot.quarantined then "quarantined"
    else if bot.isDead then "dead"
    else if |bot.state| > 0 && Truthy(Get(bot.state, "maintenance")) then "maintenance"
    else "ready"
  }

  // ----------------------------------------------------------- completion

  /** The task states the metrics tell apart; `stateName` of a summary is the state's name string. */
  datatype TaskState = Pending | Running | Expired | Completed | Other

  /** The parts of a `TaskResultSummary` the metrics read. */
  datatype Summary = Summary(
    tags: seq<string>,
    state: TaskState,
    stateName: string,
    botId: string,
    priority: int,
    internalFailure: bool,
    failure: bool,
    duration: Option<real>,
    pendingNow: Option<real>)

  /** One update of a metric. */
  datatype MetricUpdate =
    | ExpiredTask(fields: JobFields, priority: int)
    | CompletedJob(fields: JobFields, result: string, status: string)
    | JobDuration(fields: JobFields, result: string, duration: real)

  /** How a finished task is counted: as an infrastructure failure, a failure, or a success. */
  function ResultOf(s: Summary): (r: string)
    ensures r == "infra-failure" <==> s.internalFailure
    ensures r == "failure" <==> !s.internalFailure && s.failure
    ensures r == "success" <==> !s.internalFailure && !s.failure
  {
    if s.internalFailure then "infra-failure" else if s.failure then "failure" else "success"
  }

  /**
   * The metric updates `on_task_completed(summary)` makes. An expired task
   * only counts as expired, with its priority; any other task counts once as
   * completed with its result and state, and records a duration exactly when
   * it has one.
   */
  function OnTaskCompleted(s: Summary): (u: seq<MetricUpdate>)
    ensures |u| > 0 && forall x :: x in u ==> x.fields == ExtractJobFields(TagsDict(s.tags))
    ensures s.state == Expired <==> u[0].ExpiredTask?
    ensures s.state == Expired ==> u == [ExpiredTask(u[0].fields, s.priority)]
    ensures s.state != Expired ==>
              u[0] == CompletedJob(u[0].fields, ResultOf(s), s.stateName)
              && (|u| == 2 <==> s.duration.Some?)
              && (|u| == 2 ==> u[1] == JobDuration(u[0].fields, ResultOf(s), s.duration.value))
  {
    var fields := ExtractJobFields(TagsDict(s.tags));
    if s.state == Expired then [ExpiredTask(fields, s.priority)]
    else
      [CompletedJob(fields, ResultOf(s), s.stateName)]
      + (if s.duration.Some? then [JobDuration(fields, ResultOf(s), s.duration.value)] else [])
  }
}
