/**
 * The sharded collection of the global metrics (`ts_mon_metrics.py`): a
 * chain of task-queue tasks, each reading a bounded run of task summaries
 * or bots from a query cursor and handing the rest of the run on to the
 * next task through the `_ShardParams` payload.
 *
 * The query is replaced by the turns of the loop it drives: each turn sees
 * the elapsed time, the cursor after the items already read, and the next
 * item.
 */
module TsMonShards {
  import opened Wrappers
  import opened Strings
  import opened Values
  import opened Exceptions
  import opened TsMonFields

  /** `_REQUEST_TIMEOUT_SEC`: a shard stops once it has run longer than this. */
  const RequestTimeout: real := 50.0
  const ExecutorsPerShard: nat := 500
  const JobsPerShard: nat := 500

  /** What one turn of a shard loop observes when the query has another item. */
  datatype Step<T> = Step(elapsed: real, cursorAfter: string, item: T)

  /**
   * The turn, from `i` on, at which a shard loop stops: the first one at
   * which `limit` items were read already or the time is up, or the end of
   * the query.
   */
  function StopAt<T>(steps: seq<Step<T>>, limit: nat, i: nat): (n: nat)
    requires i <= |steps|
    ensures i <= n <= |steps|
    ensures i <= limit ==> n <= limit
    ensures forall j :: i <= j < n ==> j < limit && steps[j].elapsed <= RequestTimeout
    ensures n < |steps| ==> n >= limit || steps[n].elapsed > RequestTimeout
    decreases |steps| - i
  {
    if i == |steps| then i
    else if i >= limit || steps[i].elapsed > RequestTimeout then i
    else StopAt(steps, limit, i + 1)
  }

  // -------------------------------------------------------- shard params

  /** The fields of `_ShardParams` that travel in the payload. */
  datatype Params = Params(cursor: Option<string>, taskStart: string, taskCount: int, count: int)

  const CursorKey: string := "cursor"
  const TaskStartKey: string := "task_start"
  const TaskCountKey: string := "task_count"
  const CountKey: string := "count"

  /** The dictionary `json()` encodes. */
  function ParamsJson(p: Params): (m: map<string, Value>)
    ensures m.Keys == {CursorKey, TaskStartKey, TaskCountKey, CountKey}
  {
    map[CursorKey := (if p.cursor.Some? then Str(p.cursor.value) else Null),
        TaskStartKey := Str(p.taskStart),
        TaskCountKey := Int(p.taskCount),
        CountKey := Int(p.count)]
  }

  /** A time written as `%Y-%m-%d %H:%M:%S`, with the digits where that format puts them. */
  predicate IsTimestamp(s: string) {
    |s| == 19 && s[4] == '-' && s[7] == '-' && s[10] == ' ' && s[13] == ':' && s[16] == ':'
    && forall i :: 0 <= i < 19 && i !in {4, 7, 10, 13, 16} ==> IsDigit(s[i])
  }

  /** `params['cursor']`: a falsy value means no cursor. */
  function CursorOf(v: Value): Result<Option<string>, Raise> {
    if !Truthy(v) then Ok(None)
    else if v.Str? then Ok(Some(v.s))
    else Err(TypeError(CursorKey))
  }

  function IntField(d: map<string, Value>, k: string): Result<int, Raise> {
    if k !in d then Err(KeyError(k))
    else if d[k].Int? then Ok(d[k].i)
    else Err(TypeError(k))
  }

  /**
   * `_ShardParams(payload)`, `parsed` being what `json.loads(payload)`
   * returns (None when it raises) and `now` the current time.
   */
  function ParseParams(payload: string, parsed: Option<Value>, now: string): (r: Result<Params, Raise>)
    ensures payload == "" ==> r == Ok(Params(None, now, 0, 0))
    ensures payload != "" && parsed.None? ==> r.Err? && r.error.ValueError?
    ensures payload != "" && r.Ok? ==>
              parsed.Some? && parsed.value.Dict?
              && (forall k :: k in {CursorKey, TaskStartKey, TaskCountKey, CountKey} ==> k in parsed.value.entries)
              && IsTimestamp(r.value.taskStart)
  {
    if payload == "" then Ok(Params(None, now, 0, 0))
    else if parsed.None? then Err(ValueError("No JSON object could be decoded"))
    else if !parsed.value.Dict? then Err(TypeError("payload"))
    else
      var d := parsed.value.entries;
      if CursorKey !in d then Err(KeyError(CursorKey))
      else
        var cursor :- CursorOf(d[CursorKey]);
        if TaskStartKey !in d then Err(KeyError(TaskStartKey))
        else if !d[TaskStartKey].Str? then Err(TypeError(TaskStartKey))
        else if !IsTimestamp(d[TaskStartKey].s) then Err(ValueError(TaskStartKey))
        else
          var taskCount :- IntField(d, TaskCountKey);
          var count :- IntField(d, CountKey);
          Ok(Params(cursor, d[TaskStartKey].s, taskCount, count))
  }

  /** Parameters written by `json()` read back as the same parameters. */
  lemma JsonThenParse(p: Params, payload: string, now: string)
    requires payload != "" && IsTimestamp(p.taskStart)
    requires p.cursor.None? || p.cursor.value != ""
    ensures ParseParams(payload, Some(Dict(ParamsJson(p))), now) == Ok(p)
  {
  }

  /**
   * A payload that parses reproduces itself through `json()` when it holds
   * the four keys only and its cursor is a string or None.
   */
  lemma ParseThenJson(payload: string, d: map<string, Value>, now: string)
    requires payload != "" && ParseParams(payload, Some(Dict(d)), now).Ok?
    requires d.Keys == {CursorKey, TaskStartKey, TaskCountKey, CountKey}
    requires d[CursorKey].Null? || (d[CursorKey].Str? && d[CursorKey].s != "")
    ensures ParamsJson(ParseParams(payload, Some(Dict(d)), now).value) == d
  {
    var p := ParseParams(payload, Some(Dict(d)), now).value;
    assert ParamsJson(p).Keys == d.Keys;
  }

  /** `_ShardParams`: the parameters of one task of the chain. */
  class ShardParams {
    var cursor: Option<string>
    var taskStart: string
    var taskCount: int
    var count: int

    function Current(): Params
      reads this
    {
      Params(cursor, taskStart, taskCount, count)
    }

    constructor (p: Params)
      ensures Current() == p
    {
      cursor := p.cursor;
      taskStart := p.taskStart;
      taskCount := p.taskCount;
      count := p.count;
    }

    /** `json()`, as the dictionary it encodes. */
    function Json(): map<string, Value>
      reads this
    {
      ParamsJson(Current())
    }
  }

  /** `_ShardParams(payload)`, which raises on a malformed payload. */
  method NewShardParams(payload: string, parsed: Option<Value>, now: string) returns (r: Result<ShardParams, Raise>)
    ensures r.Ok? <==> ParseParams(payload, parsed, now).Ok?
    ensures r.Ok? ==> fresh(r.value) && r.value.Current() == ParseParams(payload, parsed, now).value
    ensures r.Err? ==> r.error == ParseParams(payload, parsed, now).error
  {
    var p := ParseParams(payload, parsed, now);
    if p.Err? {
      return Err(p.error);
    }
    var params := new ShardParams(p.value);
    r := Ok(params);
  }

  // ---------------------------------------------------------------- jobs

  /** `state_map`: the status a pending or running summary is counted under. */
  function StatusName(s: TaskState): string {
    match s
    case Running => "running"
    case Pending => "pending"
    case _ => ""
  }

  datatype JobKey = JobKey(fields: JobFields, status: string)
  datatype PendingKey = PendingKey(fields: JobFields, status: string, deviceType: string)

  /** What the jobs loop gathers. */
  datatype JobsStats = JobsStats(
    counts: map<JobKey, nat>,
    running: set<(string, JobFields)>,
    pending: map<PendingKey, seq<real>>,
    maxPending: map<PendingKey, real>)

  const NoJobs: JobsStats := JobsStats(map[], {}, map[], map[])

  function KeyOf(s: Summary): JobKey {
    JobKey(ExtractJobFields(TagsDict(s.tags)), StatusName(s.state))
  }

  function PendingKeyOf(s: Summary): PendingKey {
    PendingKey(ExtractJobFields(TagsDict(s.tags)), StatusName(s.state), GetOr(TagsDict(s.tags), "device_type", ""))
  }

  function CountAt(m: map<JobKey, nat>, k: JobKey): nat {
    if k in m then m[k] else 0
  }

  function MaxAt(m: map<PendingKey, real>, k: PendingKey): real {
    if k in m then m[k] else 0.0
  }

  function Max(a: real, b: real): real {
    if a >= b then a else b
  }

  /** The running mark summary `s` adds, if any. */
  function MarkOf(s: Summary): set<(string, JobFields)> {
    if s.botId != "" && StatusName(s.state) == "running" then {("autogen:" + s.botId, KeyOf(s).fields)} else {}
  }

  /** One summary added to the statistics. */
  function AddJob(st: JobsStats, s: Summary): JobsStats {
    var key := KeyOf(s);
    JobsStats(st.counts[key := CountAt(st.counts, key) + 1], st.running + MarkOf(s),
      AddPending(st.pending, s), AddMaxPending(st.maxPending, s))
  }

  /** `jobs_pending_distributions[key].add(...)`, when the summary is pending. */
  function AddPending(m: map<PendingKey, seq<real>>, s: Summary): map<PendingKey, seq<real>> {
    if s.pendingNow.None? then m
    else
      var pkey := PendingKeyOf(s);
      m[pkey := (if pkey in m then m[pkey] else []) + [s.pendingNow.value]]
  }

  /** `jobs_max_pending_durations[key] = max(...)`, when the summary is pending. */
  function AddMaxPending(m: map<PendingKey, real>, s: Summary): map<PendingKey, real> {
    if s.pendingNow.None? then m
    else
      var pkey := PendingKeyOf(s);
      m[pkey := Max(MaxAt(m, pkey), s.pendingNow.value)]
  }

  /** The statistics of the summaries `items`, read in order. */
  function JobsOf(items: seq<Summary>): JobsStats {
    if |items| == 0 then NoJobs else AddJob(JobsOf(items[..|items| - 1]), items[|items| - 1])
  }

  /** How many of `items` have the key `key`. */
  function CountOf(items: seq<Summary>, key: JobKey): nat {
    if |items| == 0 then 0
    else CountOf(items[..|items| - 1], key) + (if KeyOf(items[|items| - 1]) == key then 1 else 0)
  }

  /** The active-jobs count of a key is the number of summaries read with that key. */
  lemma {:induction false} CountsCount(items: seq<Summary>, key: JobKey)
    ensures CountAt(JobsOf(items).counts, key) == CountOf(items, key)
  {
    if |items| > 0 {
      CountsCount(items[..|items| - 1], key);
    }
  }

  /** Summary `s` marks job `x` as running on its bot. */
  predicate RunsAs(s: Summary, x: (string, JobFields)) {
    s.botId != "" && StatusName(s.state) == "running" && x == ("autogen:" + s.botId, KeyOf(s).fields)
  }

  lemma AddJobRunning(st: JobsStats, s: Summary, x: (string, JobFields))
    ensures x in AddJob(st, s).running <==> x in st.running || RunsAs(s, x)
  {
  }

  /** The running marks of the summaries `items`, read in order. */
  function RunningOf(items: seq<Summary>): set<(string, JobFields)> {
    if |items| == 0 then {} else RunningOf(items[..|items| - 1]) + MarkOf(items[|items| - 1])
  }

  lemma {:induction false} RunningIsRunningOf(items: seq<Summary>)
    ensures JobsOf(items).running == RunningOf(items)
  {
    if |items| > 0 {
      RunningIsRunningOf(items[..|items| - 1]);
    }
  }

  lemma {:induction false} InRunningOf(items: seq<Summary>, x: (string, JobFields), i: nat)
    requires i < |items| && x in MarkOf(items[i])
    ensures x in RunningOf(items)
  {
    var n := |items| - 1;
    if i < n {
      assert items[..n][i] == items[i];
      InRunningOf(items[..n], x, i);
    }
  }

  /** Every running summary read that names a bot marks its job as running. */
  lemma RunningComplete(items: seq<Summary>, x: (string, JobFields), i: nat)
    requires i < |items| && RunsAs(items[i], x)
    ensures x in JobsOf(items).running
  {
    RunningIsRunningOf(items);
    assert x in MarkOf(items[i]);
    InRunningOf(items, x, i);
  }

  /** Only the running summaries read that name a bot mark a job as running. */
  lemma {:induction false} RunningSound(items: seq<Summary>, x: (string, JobFields))
    requires x in JobsOf(items).running
    ensures exists i :: 0 <= i < |items| && RunsAs(items[i], x)
  {
    var n := |items| - 1;
    AddJobRunning(JobsOf(items[..n]), items[n], x);
    if !RunsAs(items[n], x) {
      RunningSound(items[..n], x);
      var i :| 0 <= i < n && RunsAs(items[..n][i], x);
      assert items[..n][i] == items[i];
    }
  }

  /** The running jobs are exactly those of the running summaries read that name a bot. */
  lemma RunningJobs(items: seq<Summary>, x: (string, JobFields))
    ensures x in JobsOf(items).running <==> exists i :: 0 <= i < |items| && RunsAs(items[i], x)
  {
    if exists i :: 0 <= i < |items| && RunsAs(items[i], x) {
      var i :| 0 <= i < |items| && RunsAs(items[i], x);
      RunningComplete(items, x, i);
    }
    if x in JobsOf(items).running {
      RunningSound(items, x);
    }
  }

  /** Summary `s` has a pending duration recorded under `key`. */
  predicate PendsUnder(s: Summary, key: PendingKey) {
    s.pendingNow.Some? && PendingKeyOf(s) == key
  }

  /** The pending durations recorded under `key`, in the order read. */
  function Durations(items: seq<Summary>, key: PendingKey): seq<real> {
    if |items| == 0 then []
    else
      var s := items[|items| - 1];
      Durations(items[..|items| - 1], key) + (if PendsUnder(s, key) then [s.pendingNow.value] else [])
  }

  /** The largest of `ds`, starting from the default 0.0. */
  function MaxOf(ds: seq<real>): real {
    if |ds| == 0 then 0.0 else Max(MaxOf(ds[..|ds| - 1]), ds[|ds| - 1])
  }

  /** The result is at least every element, and is one of them or 0.0. */
  lemma {:induction false} MaxOfIsMax(ds: seq<real>)
    ensures forall i :: 0 <= i < |ds| ==> ds[i] <= MaxOf(ds)
    ensures MaxOf(ds) == 0.0 || MaxOf(ds) in ds
  {
    if |ds| > 0 {
      var front := ds[..|ds| - 1];
      MaxOfIsMax(front);
      assert forall i :: 0 <= i < |front| ==> ds[i] == front[i];
      assert MaxOf(front) in front ==> MaxOf(front) in ds;
    }
  }

  /** What one summary does to the durations recorded under `key`. */
  lemma AddJobPending(st: JobsStats, s: Summary, key: PendingKey)
    ensures key in AddJob(st, s).pending <==> key in st.pending || PendsUnder(s, key)
    ensures key in AddJob(st, s).pending ==>
              AddJob(st, s).pending[key]
              == (if key in st.pending then st.pending[key] else []) + (if PendsUnder(s, key) then [s.pendingNow.value] else [])
  {
    assert AddJob(st, s).pending == AddPending(st.pending, s);
  }

  /** What one summary does to the maximum pending duration recorded under `key`. */
  lemma AddJobMaxPending(st: JobsStats, s: Summary, key: PendingKey)
    ensures key in AddJob(st, s).maxPending <==> key in st.maxPending || PendsUnder(s, key)
    ensures MaxAt(AddJob(st, s).maxPending, key)
      == if PendsUnder(s, key) then Max(MaxAt(st.maxPending, key), s.pendingNow.value) else MaxAt(st.maxPending, key)
  {
    assert AddJob(st, s).maxPending == AddMaxPending(st.maxPending, s);
  }

  /**
   * The pending distribution of a key holds exactly the durations recorded
   * under it, and exists exactly when some duration is recorded under it.
   */
  lemma {:induction false} PendingIsDurations(items: seq<Summary>, key: PendingKey)
    ensures key in JobsOf(items).pending <==> |Durations(items, key)| > 0
    ensures key in JobsOf(items).pending ==> JobsOf(items).pending[key] == Durations(items, key)
  {
    if |items| > 0 {
      var front := items[..|items| - 1];
      var s := items[|items| - 1];
      PendingIsDurations(front, key);
      assert JobsOf(items) == AddJob(JobsOf(front), s);
      assert Durations(items, key) == Durations(front, key) + (if PendsUnder(s, key) then [s.pendingNow.value] else []);
      AddJobPending(JobsOf(front), s, key);
    }
  }

  /**
   * The maximum pending duration of a key is the maximum of the durations
   * recorded under it, and is set exactly when some duration is.
   */
  lemma {:induction false} MaxPendingIsMaxOf(items: seq<Summary>, key: PendingKey)
    ensures key in JobsOf(items).maxPending <==> |Durations(items, key)| > 0
    ensures MaxAt(JobsOf(items).maxPending, key) == MaxOf(Durations(items, key))
  {
    if |items| > 0 {
      var front := items[..|items| - 1];
      var s := items[|items| - 1];
      MaxPendingIsMaxOf(front, key);
      assert JobsOf(items) == AddJob(JobsOf(front), s);
      var before := Durations(front, key);
      AddJobMaxPending(JobsOf(front), s, key);
      if PendsUnder(s, key) {
        var after := before + [s.pendingNow.value];
        assert Durations(items, key) == after;
        assert after[..|after| - 1] == before;
      } else {
        assert Durations(items, key) == before;
      }
    }
  }

  /** The maximum pending duration of a key is at least every pending duration recorded under it. */
  lemma MaxPendingBounds(items: seq<Summary>, key: PendingKey)
    ensures forall d :: d in Durations(items, key) ==> d <= MaxAt(JobsOf(items).maxPending, key)
    ensures MaxAt(JobsOf(items).maxPending, key) == 0.0 || MaxAt(JobsOf(items).maxPending, key) in Durations(items, key)
  {
    MaxPendingIsMaxOf(items, key);
    MaxOfIsMax(Durations(items, key));
  }

  function Items<T>(steps: seq<Step<T>>): (r: seq<T>)
    ensures |r| == |steps| && forall i :: 0 <= i < |steps| ==> r[i] == steps[i].item
  {
    if |steps| == 0 then [] else [steps[0].item] + Items(steps[1..])
  }

  /** The payload of the continuation task: the parameters as they are, with the next task number. */
  function Continuation(p: Params): map<string, Value> {
    ParamsJson(p.(taskCount := p.taskCount + 1))
  }

  /** One summary read by the jobs loop, computed as the loop does it. */
  method AddSummary(st: JobsStats, s: Summary) returns (r: JobsStats)
    ensures r == AddJob(st, s)
  {
    var status := StatusName(s.state);
    var tags := TagsToDict(s.tags);
    var fields := ExtractJobFields(tags);
    var key := JobKey(fields, status);
    assert key == KeyOf(s);
    var running := st.running;
    if s.botId != "" && status == "running" {
      running := running + {("autogen:" + s.botId, fields)};
    }
    var counts := st.counts[key := CountAt(st.counts, key) + 1];
    var pending := st.pending;
    var maxPending := st.maxPending;
    if s.pendingNow.Some? {
      var pkey := PendingKey(fields, status, GetOr(tags, "device_type", ""));
      assert pkey == PendingKeyOf(s);
      var d := s.pendingNow.value;
      pending := pending[pkey := (if pkey in pending then pending[pkey] else []) + [d]];
      maxPending := maxPending[pkey := Max(MaxAt(maxPending, pkey), d)];
    }
    assert pending == AddPending(st.pending, s) && maxPending == AddMaxPending(st.maxPending, s);
    r := JobsStats(counts, running, pending, maxPending);
  }

  /**
   * The cutoff: the shard records the items it read and, when some remain,
   * the cursor after them, and hands on the payload of the next task.
   */
  method HandOn<T>(params: ShardParams, steps: seq<Step<T>>, n: nat) returns (next: Option<map<string, Value>>)
    requires n <= |steps|
    modifies params
    ensures params.count == old(params.count) + n
    ensures params.taskCount == old(params.taskCount) && params.taskStart == old(params.taskStart)
    ensures n < |steps| ==> params.cursor == Some(steps[n].cursorAfter) && next == Some(Continuation(params.Current()))
    ensures n == |steps| ==> params.cursor == old(params.cursor) && next.None?
  {
    params.count := params.count + n;
    next := None;
    if n < |steps| {
      params.cursor := Some(steps[n].cursorAfter);
      params.taskCount := params.taskCount + 1;
      next := Some(params.Json());
      params.taskCount := params.taskCount - 1;
    }
  }

  /**
   * `_set_jobs_metrics`: the statistics of the summaries read before the
   * cutoff; when items remain, the payload of the continuation task.
   */
  method JobsShard(params: ShardParams, steps: seq<Step<Summary>>) returns (stats: JobsStats, next: Option<map<string, Value>>)
    modifies params
    ensures var n := StopAt(steps, JobsPerShard, 0);
      stats == JobsOf(Items(steps)[..n])
      && params.count == old(params.count) + n
      && params.taskCount == old(params.taskCount) && params.taskStart == old(params.taskStart)
      && (n < |steps| ==> params.cursor == Some(steps[n].cursorAfter) && next == Some(Continuation(params.Current())))
      && (n == |steps| ==> params.cursor == old(params.cursor) && next.None?)
  {
    stats := NoJobs;
    var total := 0;
    ghost var items := Items(steps);
    ghost var stop := StopAt(steps, JobsPerShard, 0);
    while total < |steps|
      invariant total <= stop == StopAt(steps, JobsPerShard, total)
      invariant stats == JobsOf(items[..total])
      invariant unchanged(params)
      decreases |steps| - total
    {
      if total >= JobsPerShard || steps[total].elapsed > RequestTimeout {
        break;
      }
      assert items[..total + 1][..total] == items[..total];
      stats := AddSummary(stats, steps[total].item);
      total := total + 1;
    }
    assert total == stop;
    next := HandOn(params, steps, total);
  }

  // ----------------------------------------------------------- executors

  /** What one bot's turn reports: its status and its pool, under `autogen:<id>`. */
  datatype ExecutorReport = ExecutorReport(hostname: string, status: string, pool: string)

  ghost function ReportOf(b: BotInfo): ExecutorReport {
    ExecutorReport("autogen:" + b.id, ExecutorStatus(b), Pool(b.dimensions))
  }

  /** One bot's report, computed as the loop does it. */
  method ReportFor(bot: BotInfo) returns (r: ExecutorReport)
    ensures r == ReportOf(bot)
  {
    var status := ExecutorStatus(bot);
    var pool := PoolFromDimensions(bot.dimensions);
    r := ExecutorReport("autogen:" + bot.id, status, pool);
  }

  /** The reports of a run of bots, in order. */
  ghost function ReportsOf(bots: seq<BotInfo>): (r: seq<ExecutorReport>)
    ensures |r| == |bots|
  {
    if |bots| == 0 then [] else ReportsOf(bots[..|bots| - 1]) + [ReportOf(bots[|bots| - 1])]
  }

  /** The report of each bot of a run is that bot's own report. */
  lemma {:induction false} ReportsOfEach(bots: seq<BotInfo>, i: nat)
    requires i < |bots|
    ensures ReportsOf(bots)[i] == ReportOf(bots[i])
  {
    if i < |bots| - 1 {
      ReportsOfEach(bots[..|bots| - 1], i);
    }
  }

  /** The reports of the bots read before the cutoff, one per turn. */
  method ReportsUntilStop(steps: seq<Step<BotInfo>>) returns (reports: seq<ExecutorReport>, total: nat)
    ensures total == StopAt(steps, ExecutorsPerShard, 0)
    ensures reports == ReportsOf(Items(steps)[..total])
  {
    reports := [];
    total := 0;
    ghost var items := Items(steps);
    ghost var stop := StopAt(steps, ExecutorsPerShard, 0);
    while total < |steps|
      invariant total <= stop == StopAt(steps, ExecutorsPerShard, total)
      invariant reports == ReportsOf(items[..total])
      decreases |steps| - total
    {
      if total >= ExecutorsPerShard || steps[total].elapsed > RequestTimeout {
        break;
      }
      assert items[..total + 1][..total] == items[..total];
      var report := ReportFor(steps[total].item);
      reports := reports + [report];
      total := total + 1;
    }
  }

  /**
   * `_set_executors_metrics`: a report per bot read before the cutoff; when
   * bots remain, the payload of the continuation task.
   */
  method ExecutorsShard(params: ShardParams, steps: seq<Step<BotInfo>>) returns (reports: seq<ExecutorReport>, next: Option<map<string, Value>>)
    modifies params
    ensures var n := StopAt(steps, ExecutorsPerShard, 0);
      |reports| == n && (forall i :: 0 <= i < n ==> reports[i] == ReportOf(steps[i].item))
      && params.count == old(params.count) + n
      && params.taskCount == old(params.taskCount) && params.taskStart == old(params.taskStart)
      && (n < |steps| ==> params.cursor == Some(steps[n].cursorAfter) && next == Some(Continuation(params.Current())))
      && (n == |steps| ==> params.cursor == old(params.cursor) && next.None?)
  {
    var total;
    reports, total := ReportsUntilStop(steps);
    forall i | 0 <= i < total
      ensures reports[i] == ReportOf(steps[i].item)
    {
      ReportsOfEach(Items(steps)[..total], i);
    }
    next := HandOn(params, steps, total);
  }
}
