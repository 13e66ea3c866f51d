/**
 * The adapter that serves Cloud Endpoints v1 services through Flask
 * (`components/endpoints_flask/adapter.py`): it decodes a request into a
 * protorpc message, maps the API method's outcome to an HTTP status, and
 * builds the URL routes of a list of services.
 *
 * protorpc messages are modelled by their fields and the values set in
 * them; decoding a request body and encoding a response are left to the
 * protocol, whose results are parameters here.
 */
module EndpointsAdapter {
  import opened Wrappers
  import opened Strings
  import opened Values
  import opened Ordering
  import opened Exceptions

  // ------------------------------------------------------- decode_field

  datatype FieldKind = BooleanKind | OtherKind(name: string)

  /** A message field: its name, its kind and whether it is repeated. */
  datatype Field = Field(name: string, kind: FieldKind, repeated: bool)

  /** A decoded field value: a boolean, or what the protocol makes of a value of another kind. */
  datatype FieldValue = BoolValue(b: bool) | Decoded(kind: string, value: Value)

  /**
   * `PROTOCOL.decode_field`: the protocol's decoder for a field kind other
   * than boolean, given the kind's name and the text; it may raise.
   */
  type Decoder = (string, string) -> Result<FieldValue, Raise>

  const BooleanMessage: string := "boolean field must be either \"true\" or \"false\""

  /** `decode_field`: a boolean is `true` or `false` in any letter case; other kinds go to the protocol. */
  function DecodeField(f: Field, value: string, decode: Decoder): (r: Result<FieldValue, Raise>)
    ensures f.kind.BooleanKind? ==> (r.Ok? <==> Lower(value) == "true" || Lower(value) == "false")
    ensures f.kind.BooleanKind? && r.Ok? ==> r.value == BoolValue(Lower(value) == "true")
    ensures f.kind.BooleanKind? && r.Err? ==> r.error == ValueError(BooleanMessage)
    ensures f.kind.OtherKind? ==> r == decode(f.kind.name, value)
  {
    match f.kind
    case BooleanKind =>
      var v := Lower(value);
      if v == "true" then Ok(BoolValue(true))
      else if v == "false" then Ok(BoolValue(false))
      else Err(ValueError(BooleanMessage))
    case OtherKind(kind) => decode(kind, value)
  }

  lemma LowerOfUpper(s: string)
    ensures Lower(Upper(s)) == Lower(s)
  {
    assert forall k :: 0 <= k < |s| ==> LowerChar(UpperChar(s[k])) == LowerChar(s[k]);
  }

  /** A boolean decodes the same whatever the letter case it is written in. */
  lemma BooleanIgnoresCase(f: Field, value: string, decode: Decoder)
    requires f.kind.BooleanKind?
    ensures DecodeField(f, Upper(value), decode) == DecodeField(f, value, decode)
    ensures DecodeField(f, Lower(value), decode) == DecodeField(f, value, decode)
  {
    LowerOfUpper(value);
    assert Lower(Lower(value)) == Lower(value);
  }

  /** `true` and `false`, as written by the encoder, decode to themselves. */
  lemma BooleanRoundTrip(f: Field, b: bool, decode: Decoder)
    requires f.kind.BooleanKind?
    ensures DecodeField(f, if b then "true" else "false", decode) == Ok(BoolValue(b))
  {
    assert Lower("true") == "true";
    assert Lower("false") == "false";
  }

  /** Decoding every value of a parameter, as the list comprehension does. */
  function DecodeAll(f: Field, values: seq<string>, decode: Decoder): (r: Result<seq<FieldValue>, Raise>)
    ensures r.Ok? <==> forall i :: 0 <= i < |values| ==> DecodeField(f, values[i], decode).Ok?
    ensures r.Ok? ==> |r.value| == |values| && forall i :: 0 <= i < |values| ==> r.value[i] == DecodeField(f, values[i], decode).value
  {
    if |values| == 0 then Ok([])
    else
      var first := DecodeField(f, values[0], decode);
      var rest := DecodeAll(f, values[1..], decode);
      if first.Err? then Err(first.error)
      else if rest.Err? then Err(rest.error)
      else Ok([first.value] + rest.value)
  }

  // ----------------------------------------------------- decode_message

  /** The value set in a field: one value, or the list of a repeated field. */
  datatype Slot = One(value: FieldValue) | Many(values: seq<FieldValue>)

  /**
   * The parts of a Flask request the decoder reads: `args[name]`, the first
   * value of a query-string parameter, and `values.get_list(name)`, all the
   * values of a parameter in the query string and the form.
   */
  datatype HttpRequest = HttpRequest(httpMethod: string, args: map<string, string>, values: map<string, seq<string>>)

  /** An `endpoints.ResourceContainer`: its body fields, parameter fields and combined fields. */
  datatype Container = Container(bodyFields: seq<Field>, parameterFields: seq<Field>, combinedFields: seq<Field>)

  /** The request type of a remote method: a resource container, or a plain message with its fields. */
  datatype RemoteMethod = RemoteMethod(container: Option<Container>, requestFields: seq<Field>)

  function Names(fields: seq<Field>): set<string> {
    set i | 0 <= i < |fields| :: fields[i].name
  }

  /** The fields of the message `decode_message` returns. */
  function ResultFields(m: RemoteMethod): seq<Field> {
    if m.container.Some? then m.container.value.combinedFields else m.requestFields
  }

  /** The message before parameters are read: the body, copied into the combined message when there is a container. */
  function StartSlots(m: RemoteMethod, body: map<string, Slot>): map<string, Slot> {
    if m.container.Some? then
      map n | n in body && n in Names(m.container.value.bodyFields) :: body[n]
    else body
  }

  /** The fields whose values are read from the URL: all of them for GET, else the container's parameters. */
  function ParamFields(m: RemoteMethod, req: HttpRequest): seq<Field> {
    if req.httpMethod == "GET" then ResultFields(m)
    else if m.container.Some? then m.container.value.parameterFields
    else []
  }

  /** The values of a parameter: the first of the query string if it is there, else all of them. */
  function ValuesFor(req: HttpRequest, name: string): seq<string> {
    if name in req.args then [req.args[name]]
    else if name in req.values then req.values[name]
    else []
  }

  function Existing(slots: map<string, Slot>, name: string): seq<FieldValue> {
    if name in slots && slots[name].Many? then slots[name].values else []
  }

  /** One parameter field read into the message: a repeated field extends, another takes the first value. */
  function MergeField(slots: map<string, Slot>, f: Field, req: HttpRequest, decode: Decoder): (r: Result<map<string, Slot>, Raise>)
    ensures r.Ok? ==>
              r.value.Keys <= slots.Keys + {f.name}
              && forall n :: n in slots && n != f.name ==> n in r.value && r.value[n] == slots[n]
  {
    var values := ValuesFor(req, f.name);
    if |values| == 0 then Ok(slots)
    else
      var decoded :- DecodeAll(f, values, decode);
      if f.repeated then Ok(slots[f.name := Many(Existing(slots, f.name) + decoded)])
      else Ok(slots[f.name := One(decoded[0])])
  }

  /** The parameter fields read in order into the message. */
  function Merge(slots: map<string, Slot>, fields: seq<Field>, req: HttpRequest, decode: Decoder): Result<map<string, Slot>, Raise> {
    if |fields| == 0 then Ok(slots)
    else
      var before :- Merge(slots, fields[..|fields| - 1], req, decode);
      MergeField(before, fields[|fields| - 1], req, decode)
  }

  /**
   * A parameter in the query string contributes exactly its first value: a
   * repeated field gains that one value, another field is set to it.
   */
  lemma QueryArgIsOneValue(slots: map<string, Slot>, f: Field, req: HttpRequest, decode: Decoder)
    requires f.name in req.args
    ensures MergeField(slots, f, req, decode).Ok? <==> DecodeField(f, req.args[f.name], decode).Ok?
    ensures MergeField(slots, f, req, decode).Ok? ==>
              var v := DecodeField(f, req.args[f.name], decode).value;
              MergeField(slots, f, req, decode).value[f.name] == if f.repeated then Many(Existing(slots, f.name) + [v]) else One(v)
  {
  }

  /** The two maps hold the same thing at `n`. */
  predicate Agree(a: map<string, Slot>, b: map<string, Slot>, n: string) {
    (n in a <==> n in b) && (n in a ==> a[n] == b[n])
  }

  /** Reading a field looks at and changes only that field. */
  lemma MergeFieldLocal(a: map<string, Slot>, b: map<string, Slot>, f: Field, req: HttpRequest, decode: Decoder)
    requires Agree(a, b, f.name)
    ensures MergeField(a, f, req, decode).Ok? <==> MergeField(b, f, req, decode).Ok?
    ensures MergeField(a, f, req, decode).Ok? ==> Agree(MergeField(a, f, req, decode).value, MergeField(b, f, req, decode).value, f.name)
  {
    assert Existing(a, f.name) == Existing(b, f.name);
  }

  /** A field no parameter names keeps the value the body gave it. */
  lemma {:induction false} MergeKeepsOthers(slots: map<string, Slot>, fields: seq<Field>, req: HttpRequest, decode: Decoder, n: string)
    requires n !in Names(fields) && Merge(slots, fields, req, decode).Ok?
    ensures Agree(Merge(slots, fields, req, decode).value, slots, n)
  {
    if |fields| > 0 {
      var front := fields[..|fields| - 1];
      assert Names(front) <= Names(fields) by {
        forall x | x in Names(front) ensures x in Names(fields) {
          var i :| 0 <= i < |front| && front[i].name == x;
          assert fields[i].name == x;
        }
      }
      MergeKeepsOthers(slots, front, req, decode, n);
      assert fields[|fields| - 1].name in Names(fields);
    }
  }

  predicate DistinctNames(fields: seq<Field>) {
    forall i, j :: 0 <= i < j < |fields| ==> fields[i].name != fields[j].name
  }

  /** With distinct field names, each field ends as reading it alone into the body would leave it. */
  lemma {:induction false} MergeAt(slots: map<string, Slot>, fields: seq<Field>, req: HttpRequest, decode: Decoder, i: nat)
    requires DistinctNames(fields) && i < |fields| && Merge(slots, fields, req, decode).Ok?
    ensures MergeField(slots, fields[i], req, decode).Ok?
    ensures Agree(Merge(slots, fields, req, decode).value, MergeField(slots, fields[i], req, decode).value, fields[i].name)
  {
    var n := |fields| - 1;
    var front := fields[..n];
    var last := fields[n];
    var before := Merge(slots, front, req, decode).value;
    if i == n {
      assert forall j :: 0 <= j < |front| ==> front[j].name != last.name by {
        assert forall j :: 0 <= j < |front| ==> front[j] == fields[j];
      }
      MergeKeepsOthers(slots, front, req, decode, last.name);
      MergeFieldLocal(before, slots, last, req, decode);
    } else {
      assert front[i] == fields[i];
      assert DistinctNames(front);
      MergeAt(slots, front, req, decode, i);
      assert fields[i].name != last.name;
    }
  }

  /** A merge that succeeds had every value of every parameter field accepted by its decoder. */
  lemma {:induction false} MergeDecodedEvery(slots: map<string, Slot>, fields: seq<Field>, req: HttpRequest, decode: Decoder)
    requires Merge(slots, fields, req, decode).Ok?
    ensures forall i, j :: 0 <= i < |fields| && 0 <= j < |ValuesFor(req, fields[i].name)| ==>
              DecodeField(fields[i], ValuesFor(req, fields[i].name)[j], decode).Ok?
  {
    if |fields| > 0 {
      var n := |fields| - 1;
      var front := fields[..n];
      MergeDecodedEvery(slots, front, req, decode);
      assert forall i :: 0 <= i < n ==> front[i] == fields[i];
    }
  }

  /** The message `decode_message` fills in. */
  class Message {
    const fields: seq<Field>
    var slots: map<string, Slot>

    constructor (fields: seq<Field>, slots: map<string, Slot>)
      ensures this.fields == fields && this.slots == slots
    {
      this.fields := fields;
      this.slots := slots;
    }
  }

  /**
   * `decode_message`, `body` being the fields set in what the protocol
   * decodes from the request body.
   */
  method DecodeMessage(m: RemoteMethod, req: HttpRequest, body: map<string, Slot>, decode: Decoder) returns (r: Result<Message, Raise>)
    ensures r.Ok? <==> Merge(StartSlots(m, body), ParamFields(m, req), req, decode).Ok?
    ensures r.Ok? ==>
              fresh(r.value) && r.value.fields == ResultFields(m)
              && r.value.slots == Merge(StartSlots(m, body), ParamFields(m, req), req, decode).value
    ensures r.Err? ==> r.error == Merge(StartSlots(m, body), ParamFields(m, req), req, decode).error
  {
    var result := new Message(ResultFields(m), StartSlots(m, body));
    var params := ParamFields(m, req);
    ghost var start := StartSlots(m, body);
    for k := 0 to |params|
      invariant Merge(start, params[..k], req, decode).Ok? && result.slots == Merge(start, params[..k], req, decode).value
    {
      assert params[..k + 1][..k] == params[..k];
      var f := params[k];
      var values := ValuesFor(req, f.name);
      if |values| > 0 {
        var decoded := DecodeAll(f, values, decode);
        if decoded.Err? {
          MergeStopsAtError(start, params, req, decode, k + 1);
          return Err(decoded.error);
        }
        if f.repeated {
          result.slots := result.slots[f.name := Many(Existing(result.slots, f.name) + decoded.value)];
        } else {
          result.slots := result.slots[f.name := One(decoded.value[0])];
        }
      }
    }
    assert params[..|params|] == params;
    r := Ok(result);
  }

  /** The first field that fails to decode is the error of the whole merge. */
  lemma {:induction false} MergeStopsAtError(slots: map<string, Slot>, fields: seq<Field>, req: HttpRequest, decode: Decoder, k: nat)
    requires k <= |fields| && Merge(slots, fields[..k], req, decode).Err?
    ensures Merge(slots, fields, req, decode) == Merge(slots, fields[..k], req, decode)
    decreases |fields|
  {
    if k < |fields| {
      var front := fields[..|fields| - 1];
      assert front[..k] == fields[..k];
      MergeStopsAtError(slots, front, req, decode, k);
    } else {
      assert fields[..k] == fields;
    }
  }

  // ------------------------------------------------------- path_handler

  /** What the API method does: return a response message, or raise a `ServiceException`. */
  datatype Invocation = Returned(response: ApiResponse) | ServiceError(httpStatus: nat, message: string)

  /** A response message: the `VoidMessage`, or one the protocol encodes to JSON. */
  datatype ApiResponse = VoidMessage | Encoded(json: Value)

  const BadRequestStatus: nat := 400
  const NoContentStatus: nat := 204
  const OkStatus: nat := 200

  /** `CORS_HEADERS`, sent with every reply. */
  const CorsHeaders: map<string, string> := map[
    "Access-Control-Allow-Origin" := "*",
    "Access-Control-Allow-Headers" := "Origin, Authorization, Content-Type, Accept, User-Agent",
    "Access-Control-Allow-Methods" := "DELETE, GET, OPTIONS, POST, PUT"]

  /** The reply tuple, and whether the API method was called to make it. */
  datatype HandlerReply = HandlerReply(body: Option<Value>, status: nat, headers: map<string, string>, invoked: bool)

  function ErrorBody(message: string): Value {
    Dict(map["error" := Dict(map["message" := Str(message)])])
  }

  /**
   * `path_handler`: `decoded` is the decoded and checked request or the
   * message of the decode or validation error, `api` the API method,
   * `fieldMask` the `fields` request value and `mask` what `partial.mask`
   * makes of a response under it.
   */
  function PathHandler<M>(decoded: Result<M, string>, api: M -> Invocation, fieldMask: string,
                          mask: Value -> Result<Value, string>): (r: HandlerReply)
    ensures r.headers == CorsHeaders
    ensures r.invoked <==> decoded.Ok?
    ensures decoded.Err? ==> r.status == BadRequestStatus && r.body == Some(ErrorBody(decoded.error))
    ensures decoded.Ok? && api(decoded.value).ServiceError? ==>
              r.status == api(decoded.value).httpStatus && r.body == Some(ErrorBody(api(decoded.value).message))
    ensures decoded.Ok? && api(decoded.value) == Returned(VoidMessage) ==> r.status == NoContentStatus && r.body.None?
    ensures decoded.Ok? && api(decoded.value).Returned? && api(decoded.value).response.Encoded? ==>
              var full := api(decoded.value).response.json;
              r.status == OkStatus
              && r.body == Some(if fieldMask != "" && mask(full).Ok? then mask(full).value else full)
  {
    if decoded.Err? then HandlerReply(Some(ErrorBody(decoded.error)), BadRequestStatus, CorsHeaders, false)
    else
      match api(decoded.value)
      case ServiceError(status, message) => HandlerReply(Some(ErrorBody(message)), status, CorsHeaders, true)
      case Returned(VoidMessage) => HandlerReply(None, NoContentStatus, CorsHeaders, true)
      case Returned(Encoded(full)) =>
        var body := if fieldMask != "" then (match mask(full) case Ok(masked) => masked case Err(_) => full) else full;
        HandlerReply(Some(body), OkStatus, CorsHeaders, true)
  }

  /** A bad field mask leaves the full response; an empty one is not applied. */
  lemma MaskFallsBack<M>(req: M, api: M -> Invocation, fieldMask: string, mask: Value -> Result<Value, string>)
    requires api(req).Returned? && api(req).response.Encoded?
    requires fieldMask == "" || mask(api(req).response.json).Err?
    ensures PathHandler(Ok(req), api, fieldMask, mask) == HandlerReply(Some(api(req).response.json), OkStatus, CorsHeaders, true)
  {
  }

  // ---------------------------------------------------------- api_routes

  datatype ApiInfo = ApiInfo(name: string, version: string)

  /** A remote method's path (as `get_path` gives it) and declared HTTP method. */
  datatype MethodInfo = MethodInfo(path: string, httpMethod: string)

  /** An API class: its info and its remote methods by name. */
  datatype ApiClass = ApiClass(info: ApiInfo, methods: map<string, MethodInfo>)

  datatype Handler =
    | ApiHandler(api: ApiInfo, methodName: string, servicePath: string)
    | CorsHandler
    | DirectoryHandler
    | DiscoveryHandler
    | ExplorerProxy
    | ExplorerRedirect

  /** A route: URL rule, handler and, when given, the accepted HTTP methods. */
  datatype Route = Route(rule: string, handler: Handler, methods: Option<seq<string>>)

  /** The defaults of `api_routes`. */
  const DefaultBasePath: string := "/_ah/api"
  const DefaultRegex: string := "[^/]+"

  function ApiBasePath(basePath: string, info: ApiInfo): string {
    basePath + "/" + info.name + "/" + info.version
  }

  /** A method path with each `{` made `<` and each `}` made `:<regex>>`, as Flask writes a variable. */
  function Template(path: string, regex: string): string {
    ReplaceChar(ReplaceChar(path, '{', "<"), '}', ":" + regex + ">")
  }

  /** A path with no braces is its own template. */
  lemma PlainTemplate(path: string, regex: string)
    requires '{' !in path && '}' !in path
    ensures Template(path, regex) == path
  {
  }

  /** No brace is left in a template when the regex has none. */
  lemma TemplateHasNoBraces(path: string, regex: string)
    requires '{' !in regex && '}' !in regex
    ensures '{' !in Template(path, regex) && '}' !in Template(path, regex)
  {
    var t := ReplaceChar(path, '{', "<");
    BraceFree(t, '}', ":" + regex + ">", '{');
  }

  lemma {:induction false} BraceFree(s: string, c: char, with: string, d: char)
    requires d !in s && d !in with
    ensures d !in ReplaceChar(s, c, with)
  {
    if |s| > 0 {
      BraceFree(s[1..], c, with, d);
    }
  }

  /** `posixpath.join(a, b)` for two paths. */
  function PosixJoin(a: string, b: string): (r: string)
    ensures EndsWith(r, b)
  {
    if StartsWith(b, "/") then b
    else if a == "" || EndsWith(a, "/") then a + b
    else a + "/" + b
  }

  /** The route's HTTP method: the declared one upper-cased, POST when none is declared. */
  function HttpMethod(declared: string): (r: string)
    ensures declared != "" ==> r == Upper(declared)
    ensures declared == "" ==> r == "POST"
  {
    var m := Upper(declared);
    if m == "" then "POST" else m
  }

  function MethodRule(c: ApiClass, basePath: string, regex: string, name: string): string
    requires name in c.methods
  {
    PosixJoin(ApiBasePath(basePath, c.info), Template(c.methods[name].path, regex))
  }

  function MethodRoute(c: ApiClass, basePath: string, regex: string, name: string): Route
    requires name in c.methods
  {
    var apiBase := ApiBasePath(basePath, c.info);
    Route(MethodRule(c, basePath, regex, name), ApiHandler(c.info, name, apiBase), Some([HttpMethod(c.methods[name].httpMethod)]))
  }

  function MethodRoutes(c: ApiClass, basePath: string, regex: string, names: seq<string>): (rs: seq<Route>)
    requires forall i :: 0 <= i < |names| ==> names[i] in c.methods
  {
    seq(|names|, i requires 0 <= i < |names| => MethodRoute(c, basePath, regex, names[i]))
  }

  function OptionsRoutes(templates: seq<string>): (rs: seq<Route>) {
    seq(|templates|, i requires 0 <= i < |templates| => Route(templates[i], CorsHandler, Some(["OPTIONS"])))
  }

  /** The set of URL rules of a class's methods. */
  function Templates(c: ApiClass, basePath: string, regex: string): set<string> {
    set name | name in c.methods :: MethodRule(c, basePath, regex, name)
  }

  /**
   * The routes of one class: one per method in sorted name order, then one
   * OPTIONS route per distinct rule in sorted order.
   */
  ghost function ClassRoutes(c: ApiClass, basePath: string, regex: string): (rs: seq<Route>) {
    MethodRoutes(c, basePath, regex, SortedElements(c.methods.Keys))
      + OptionsRoutes(SortedElements(Templates(c, basePath, regex)))
  }

  /** The four routes served after every class's routes. */
  function GenericRoutes(basePath: string): seq<Route> {
    [Route(basePath + "/discovery/v1/apis", DirectoryHandler, None),
     Route(basePath + "/discovery/v1/apis/<name>/<version>/rest", DiscoveryHandler, None),
     Route(basePath + "/static/proxy.html", ExplorerProxy, None),
     Route(basePath + "/explorer", ExplorerRedirect, None)]
  }

  ghost function AllClassRoutes(classes: seq<ApiClass>, basePath: string, regex: string): seq<Route> {
    if |classes| == 0 then []
    else AllClassRoutes(classes[..|classes| - 1], basePath, regex) + ClassRoutes(classes[|classes| - 1], basePath, regex)
  }

  /** `api_routes`: the routes of every class in turn, then the generic ones. */
  ghost function Routes(classes: seq<ApiClass>, basePath: string, regex: string): seq<Route> {
    AllClassRoutes(classes, basePath, regex) + GenericRoutes(basePath)
  }

  /** Method routes for strictly sorted names are API routes in strictly increasing method-name order. */
  lemma MethodRoutesSorted(c: ApiClass, basePath: string, regex: string, names: seq<string>)
    requires StrictlySorted(names) && forall i :: 0 <= i < |names| ==> names[i] in c.methods
    ensures var rs := MethodRoutes(c, basePath, regex, names);
      forall i, j :: 0 <= i < j < |rs| ==>
        rs[i].handler.ApiHandler? && rs[j].handler.ApiHandler?
        && StrLe(rs[i].handler.methodName, rs[j].handler.methodName)
        && rs[i].handler.methodName != rs[j].handler.methodName
  {
  }

  /** A class's first routes are its method routes, over its sorted method names. */
  lemma MethodRoutesFirst(c: ApiClass, basePath: string, regex: string)
    ensures var names := SortedElements(c.methods.Keys);
      ClassRoutes(c, basePath, regex)[..|c.methods|] == MethodRoutes(c, basePath, regex, names)
      && StrictlySorted(names) && |names| == |c.methods|
  {
    var ms := MethodRoutes(c, basePath, regex, SortedElements(c.methods.Keys));
    assert ClassRoutes(c, basePath, regex)[..|ms|] == ms;
  }

  /** Every method of a class has its route among the first ones. */
  lemma EveryMethodRouted(c: ApiClass, basePath: string, regex: string, name: string)
    requires name in c.methods
    ensures var rs := ClassRoutes(c, basePath, regex);
      exists i :: 0 <= i < |c.methods| && rs[i] == MethodRoute(c, basePath, regex, name)
  {
    var names := SortedElements(c.methods.Keys);
    var rs := ClassRoutes(c, basePath, regex);
    var i :| 0 <= i < |names| && names[i] == name;
    assert rs[i] == MethodRoute(c, basePath, regex, name);
  }

  /** OPTIONS routes for strictly sorted rules are CORS routes in strictly increasing rule order. */
  lemma OptionsRoutesSorted(ts: seq<string>)
    requires StrictlySorted(ts)
    ensures var rs := OptionsRoutes(ts);
      (forall i :: 0 <= i < |rs| ==> rs[i].handler == CorsHandler && rs[i].methods == Some(["OPTIONS"]))
      && (forall i, j :: 0 <= i < j < |rs| ==> StrLe(rs[i].rule, rs[j].rule) && rs[i].rule != rs[j].rule)
  {
  }

  /** The routes after a class's method routes are its OPTIONS routes, over the sorted set of its rules. */
  lemma OptionsRoutesAfter(c: ApiClass, basePath: string, regex: string)
    ensures var rs := ClassRoutes(c, basePath, regex);
      var ts := SortedElements(Templates(c, basePath, regex));
      rs[|c.methods|..] == OptionsRoutes(ts) && StrictlySorted(ts)
      && forall t :: t in ts <==> exists name :: name in c.methods && MethodRule(c, basePath, regex, name) == t
  {
    var rs := ClassRoutes(c, basePath, regex);
    var ms := MethodRoutes(c, basePath, regex, SortedElements(c.methods.Keys));
    assert |ms| == |c.methods|;
    assert rs[|ms|..] == OptionsRoutes(SortedElements(Templates(c, basePath, regex)));
  }

  /** The generic routes come last, after every class's routes. */
  lemma GenericRoutesLast(classes: seq<ApiClass>, basePath: string, regex: string)
    ensures var rs := Routes(classes, basePath, regex);
      |rs| >= 4 && rs[|rs| - 4..] == GenericRoutes(basePath)
      && rs[..|rs| - 4] == AllClassRoutes(classes, basePath, regex)
  {
    var rs := Routes(classes, basePath, regex);
    assert rs[|rs| - 4..] == GenericRoutes(basePath);
    assert rs[..|rs| - 4] == AllClassRoutes(classes, basePath, regex);
  }

  /** The loop over a class's methods in sorted order: their routes, and the set of their rules. */
  method MethodRoutesOf(c: ApiClass, basePath: string, regex: string, names: seq<string>)
    returns (routes: seq<Route>, templates: set<string>)
    requires forall i :: 0 <= i < |names| ==> names[i] in c.methods
    ensures routes == MethodRoutes(c, basePath, regex, names)
    ensures templates == set i | 0 <= i < |names| :: MethodRule(c, basePath, regex, names[i])
  {
    var apiBase := ApiBasePath(basePath, c.info);
    templates := {};
    routes := [];
    for k := 0 to |names|
      invariant RoutesUpTo(c, basePath, regex, names, k, routes)
      invariant templates == RulesUpTo(c, basePath, regex, names, k)
    {
      var info := c.methods[names[k]];
      var t := PosixJoin(apiBase, Template(info.path, regex));
      var route := Route(t, ApiHandler(c.info, names[k], apiBase), Some([HttpMethod(info.httpMethod)]));
      assert t == MethodRule(c, basePath, regex, names[k]);
      RoutesStep(c, basePath, regex, names, k, routes, route);
      routes := routes + [route];
      RulesStep(c, basePath, regex, names, k);
      templates := templates + {t};
    }
    assert routes == MethodRoutes(c, basePath, regex, names);
  }

  /** `routes` are the routes of the first `k` names. */
  predicate RoutesUpTo(c: ApiClass, basePath: string, regex: string, names: seq<string>, k: nat, routes: seq<Route>)
    requires k <= |names| && forall i :: 0 <= i < |names| ==> names[i] in c.methods
  {
    |routes| == k && forall i :: 0 <= i < k ==> routes[i] == MethodRoute(c, basePath, regex, names[i])
  }

  lemma RoutesStep(c: ApiClass, basePath: string, regex: string, names: seq<string>, k: nat, routes: seq<Route>, route: Route)
    requires k < |names| && forall i :: 0 <= i < |names| ==> names[i] in c.methods
    requires RoutesUpTo(c, basePath, regex, names, k, routes)
    requires route.rule == MethodRule(c, basePath, regex, names[k])
    requires route.handler == ApiHandler(c.info, names[k], ApiBasePath(basePath, c.info))
    requires route.methods == Some([HttpMethod(c.methods[names[k]].httpMethod)])
    ensures RoutesUpTo(c, basePath, regex, names, k + 1, routes + [route])
  {
    assert route == MethodRoute(c, basePath, regex, names[k]);
  }

  /** The rules of the first `k` names. */
  function RulesUpTo(c: ApiClass, basePath: string, regex: string, names: seq<string>, k: nat): set<string>
    requires k <= |names| && forall i :: 0 <= i < |names| ==> names[i] in c.methods
  {
    set i | 0 <= i < k :: MethodRule(c, basePath, regex, names[i])
  }

  lemma RulesStep(c: ApiClass, basePath: string, regex: string, names: seq<string>, k: nat)
    requires k < |names| && forall i :: 0 <= i < |names| ==> names[i] in c.methods
    ensures RulesUpTo(c, basePath, regex, names, k + 1)
              == RulesUpTo(c, basePath, regex, names, k) + {MethodRule(c, basePath, regex, names[k])}
  {
    var a := RulesUpTo(c, basePath, regex, names, k + 1);
    var b := RulesUpTo(c, basePath, regex, names, k) + {MethodRule(c, basePath, regex, names[k])};
    forall t | t in a ensures t in b {
      var i :| 0 <= i < k + 1 && t == MethodRule(c, basePath, regex, names[i]);
      if i < k {
        assert t in RulesUpTo(c, basePath, regex, names, k);
      }
    }
  }

  /** The loop adding one OPTIONS route per rule. */
  method OptionsRoutesOf(ts: seq<string>) returns (routes: seq<Route>)
    ensures routes == OptionsRoutes(ts)
  {
    routes := [];
    for k := 0 to |ts|
      invariant |routes| == k && forall i :: 0 <= i < k ==> routes[i] == Route(ts[i], CorsHandler, Some(["OPTIONS"]))
    {
      routes := routes + [Route(ts[k], CorsHandler, Some(["OPTIONS"]))];
    }
  }

  /** The rules of a list holding every method name are the class's rules. */
  lemma RulesOfNames(c: ApiClass, basePath: string, regex: string, names: seq<string>)
    requires forall x :: x in names <==> x in c.methods
    ensures (set i | 0 <= i < |names| :: MethodRule(c, basePath, regex, names[i])) == Templates(c, basePath, regex)
  {
    forall t | t in Templates(c, basePath, regex)
      ensures t in set i | 0 <= i < |names| :: MethodRule(c, basePath, regex, names[i])
    {
      var name :| name in c.methods && MethodRule(c, basePath, regex, name) == t;
      var i :| 0 <= i < |names| && names[i] == name;
    }
  }

  /** The routes of one class, computed by the loops of `api_routes`. */
  method RoutesOfClass(c: ApiClass, basePath: string, regex: string) returns (routes: seq<Route>)
    ensures routes == ClassRoutes(c, basePath, regex)
  {
    var names := SortedSet(c.methods.Keys);
    var methodRoutes, templates := MethodRoutesOf(c, basePath, regex, names);
    RulesOfNames(c, basePath, regex, names);
    var ts := SortedSet(templates);
    var optionsRoutes := OptionsRoutesOf(ts);
    routes := methodRoutes + optionsRoutes;
  }

  /** `api_routes`, with its defaults for the base path and the parameter pattern. */
  method ApiRoutes(classes: seq<ApiClass>, basePath: string := DefaultBasePath, regex: string := DefaultRegex)
    returns (routes: seq<Route>)
    ensures routes == Routes(classes, basePath, regex)
  {
    routes := [];
    for k := 0 to |classes|
      invariant routes == AllClassRoutes(classes[..k], basePath, regex)
    {
      var classRoutes := RoutesOfClass(classes[k], basePath, regex);
      assert classes[..k + 1][..k] == classes[..k];
      routes := routes + classRoutes;
    }
    assert classes[..|classes|] == classes;
    routes := routes + GenericRoutes(basePath);
  }
}
