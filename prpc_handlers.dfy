/**
 * The Swarming server's pRPC handlers (`handlers_prpc.py`): the request
 * checks of `BotAPIService.Events` and of the task-backend calls that fetch
 * or cancel tasks by id.
 *
 * The Datastore is replaced by what it answers: the page `fetch_page`
 * returns for the query the handler builds, and whether the bot's root
 * entity exists. Times are microseconds since the epoch.
 */
module PrpcHandlers {
  import opened Wrappers

  const FetchTasksLimit: nat := 1000
  const CancelTasksLimit: nat := 500
  const DefaultPageSize: nat := 200
  const MaxPageSize: nat := 1000

  /** `BadRequestException` raised for a request naming too many tasks. */
  datatype BadRequest = TooManyTasks(requested: nat, allowed: nat)

  /** The id-count check of `FetchTasks`: at most `FetchTasksLimit` ids. */
  function CheckFetchTasks(ids: seq<string>): (r: Option<BadRequest>)
    ensures r.None? <==> |ids| <= FetchTasksLimit
    ensures r.Some? ==> r.value.requested == |ids| && r.value.allowed == FetchTasksLimit
  {
    if |ids| > FetchTasksLimit then Some(TooManyTasks(|ids|, FetchTasksLimit)) else None
  }

  /** The id-count check of `CancelTasks`: at most `CancelTasksLimit` ids. */
  function CheckCancelTasks(ids: seq<string>): (r: Option<BadRequest>)
    ensures r.None? <==> |ids| <= CancelTasksLimit
    ensures r.Some? ==> r.value.requested == |ids| && r.value.allowed == CancelTasksLimit
  {
    if |ids| > CancelTasksLimit then Some(TooManyTasks(|ids|, CancelTasksLimit)) else None
  }

  /** Adding an id to a request the check already refuses keeps it refused, for either call. */
  lemma LimitsAreMonotone(ids: seq<string>, id: string)
    ensures CheckFetchTasks(ids).Some? ==> CheckFetchTasks(ids + [id]).Some?
    ensures CheckCancelTasks(ids).Some? ==> CheckCancelTasks(ids + [id]).Some?
    ensures CheckCancelTasks(ids).None? ==> CheckFetchTasks(ids).None?
  {
  }

  // ------------------------------------------------------------- Events

  /** The fields of `BotEventsRequest` the handler reads; an unset time is None. */
  datatype EventsRequest = EventsRequest(
    botId: string, pageSize: int, startTime: Option<int>, endTime: Option<int>, pageToken: string)

  /** The sort orders of the events query. */
  datatype SortKey = ByKey | ByTsDescending

  /** The filters the handler adds to the events query. */
  datatype Filter = TsAtLeast(start: int) | TsBefore(end: int)

  datatype EventsQuery = EventsQuery(botId: string, order: seq<SortKey>, filters: seq<Filter>)

  /** What the handler asks `fetch_page` for. */
  datatype Plan = Plan(query: EventsQuery, pageSize: nat, pageToken: string)

  /** `page_size`, with its default and its cap; a negative size is refused. */
  function PageSize(requested: int): (r: Result<nat, string>)
    ensures r.Ok? <==> requested >= 0
    ensures requested == 0 ==> r == Ok(DefaultPageSize)
    ensures 0 < requested <= MaxPageSize ==> r == Ok(requested)
    ensures requested > MaxPageSize ==> r == Ok(MaxPageSize)
  {
    var n := if requested == 0 then DefaultPageSize else requested;
    var n := if n > MaxPageSize then MaxPageSize else n;
    if n < 0 then Err("page_size must be positive") else Ok(n)
  }

  /** An event at time `ts` passes the filter. */
  predicate Passes(f: Filter, ts: int) {
    match f
    case TsAtLeast(start) => ts >= start
    case TsBefore(end) => ts < end
  }

  predicate PassesAll(filters: seq<Filter>, ts: int) {
    forall i :: 0 <= i < |filters| ==> Passes(filters[i], ts)
  }

  /** The time window a request names: its bounds that are set, start included and end excluded. */
  predicate InWindow(req: EventsRequest, ts: int) {
    (req.startTime.None? || req.startTime.value <= ts) && (req.endTime.None? || ts < req.endTime.value)
  }

  /**
   * The checks and the query of `Events`: the error message of a
   * `ValueError`, or what is asked of `fetch_page`.
   */
  function EventsPlan(req: EventsRequest): (r: Result<Plan, string>)
    ensures r.Err? <==>
              req.botId == "" || req.pageSize < 0
              || (req.startTime.Some? && req.endTime.Some? && req.startTime.value >= req.endTime.value)
    ensures r.Ok? ==>
              r.value.query.botId == req.botId && r.value.pageToken == req.pageToken
              && 1 <= r.value.pageSize <= MaxPageSize
    ensures r.Ok? ==> PageSize(req.pageSize).Ok? && r.value.pageSize == PageSize(req.pageSize).value
  {
    if req.botId == "" then Err("specify bot_id")
    else
      var size :- PageSize(req.pageSize);
      if req.startTime.Some? && req.endTime.Some? && req.startTime.value >= req.endTime.value then
        Err("start_time must be before end_time")
      else
        var byKey := req.startTime.None? && req.endTime.None?;
        var order := if byKey then [ByKey] else [ByTsDescending, ByKey];
        var since := if req.startTime.Some? then [TsAtLeast(req.startTime.value)] else [];
        var before := if req.endTime.Some? then [TsBefore(req.endTime.value)] else [];
        Ok(Plan(EventsQuery(req.botId, order, since + before), size, req.pageToken))
  }

  /**
   * The query is in key order exactly when the request names no bound, and
   * else newest first; its filters admit exactly the request's window.
   */
  lemma EventsQueryShape(req: EventsRequest, ts: int)
    requires EventsPlan(req).Ok?
    ensures var q := EventsPlan(req).value.query;
      (q.order == [ByKey] <==> req.startTime.None? && req.endTime.None?)
      && (q.order != [ByKey] ==> q.order == [ByTsDescending, ByKey])
      && (PassesAll(q.filters, ts) <==> InWindow(req, ts))
  {
    var q := EventsPlan(req).value.query;
    if PassesAll(q.filters, ts) {
      if req.startTime.Some? {
        assert Passes(q.filters[0], ts);
      }
      if req.endTime.Some? {
        assert Passes(q.filters[|q.filters| - 1], ts);
      }
    }
  }

  /** A window a request is allowed to name holds at least its start. */
  lemma WindowNotEmpty(req: EventsRequest)
    requires EventsPlan(req).Ok? && req.startTime.Some?
    ensures InWindow(req, req.startTime.value)
  {
  }

  // ------------------------------------------------------------ response

  /** A `BotEvent` entity, carried unchanged into its proto. */
  datatype BotEvent = BotEvent(ts: int, eventType: string, message: string)
  datatype EventProto = EventProto(event: BotEvent)

  datatype Code = OK | InvalidArgument | NotFound

  datatype EventsResponse = EventsResponse(nextPageToken: string, events: seq<EventProto>)

  /** What `Events` hands back: the status set on the context, its details, and the response. */
  datatype Reply = Reply(code: Code, details: string, response: Option<EventsResponse>)

  /** `BotEventsResponse` with one `events` entry per item, in order. */
  method Respond(items: seq<BotEvent>, cursor: string) returns (out: EventsResponse)
    ensures out.nextPageToken == cursor
    ensures |out.events| == |items| && forall i :: 0 <= i < |items| ==> out.events[i] == EventProto(items[i])
  {
    out := EventsResponse(cursor, []);
    for k := 0 to |items|
      invariant out.nextPageToken == cursor
      invariant |out.events| == k && forall i :: 0 <= i < k ==> out.events[i] == EventProto(items[i])
    {
      out := out.(events := out.events + [EventProto(items[k])]);
    }
  }

  /**
   * `BotAPIService.Events`: `items` and `cursor` are the page `fetch_page`
   * returns for the planned query, and `rootExists` says whether the bot's
   * `BotRoot` entity exists.
   */
  method Events(req: EventsRequest, items: seq<BotEvent>, cursor: string, rootExists: bool) returns (r: Reply)
    ensures EventsPlan(req).Err? ==> r == Reply(InvalidArgument, EventsPlan(req).error, None)
    ensures EventsPlan(req).Ok? && |items| == 0 && !rootExists ==> r == Reply(NotFound, "Bot does not exist", None)
    ensures r.code == OK <==> EventsPlan(req).Ok? && (|items| > 0 || rootExists)
    ensures r.code == OK ==>
              r.response.Some? && r.response.value.nextPageToken == cursor
              && |r.response.value.events| == |items|
              && forall i :: 0 <= i < |items| ==> r.response.value.events[i] == EventProto(items[i])
  {
    var plan := EventsPlan(req);
    if plan.Err? {
      return Reply(InvalidArgument, plan.error, None);
    }
    if |items| == 0 && !rootExists {
      return Reply(NotFound, "Bot does not exist", None);
    }
    var out := Respond(items, cursor);
    r := Reply(OK, "", Some(out));
  }
}
