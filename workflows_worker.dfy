/** The workflows worker's `fetch` handler: a POST triggers a workflow instance, a GET
    reports an instance's status, anything else is 404. The workflow binding's `create` and
    `get`, the body read, and `JSON.parse` are parameters; the calls the handler makes are
    returned as a trace, so that what it does not call can be stated. */
module WorkflowsWorker {
  import opened Wrappers
  import opened Values
  import opened Validation
  import opened WorkflowSchemas
  import opened Http
  import Strings

  /** The parts of the incoming request the handler looks at. `body` is the outcome of
      `req.text()`; `instanceIdParam` is `url.searchParams.get('instanceId')`. */
  datatype WorkerRequest = WorkerRequest(
    httpMethod: string,
    contentType: Option<string>,
    body: Outcome<string>,
    instanceIdParam: Option<string>)

  /** A workflow instance as `MY_WORKFLOW.get` resolves it: the value of its `status`
      property (absent when it does not serialise) and the instance as JSON. */
  datatype Instance = Instance(status: Option<Value>, json: Value)

  /** The external actions the handler performs, in order. */
  datatype Effect = ReadBody | Create(params: TriggerRequest) | GetInstance(id: string)

  /** The collaborators: `JSON.parse` (`None` when it throws), the e-mail check, and the two
      workflow binding calls. */
  datatype Env = Env(
    parse: string -> Option<Value>,
    isEmail: string -> bool,
    create: TriggerRequest -> Outcome<string>,
    get: string -> Outcome<Instance>)

  const TriggeredMessage := "Workflow triggered successfully"

  /** `issues.map(err => ({path: err.path.join('.'), message: err.message}))`. */
  function Details(issues: seq<Issue>): (r: seq<Detail>)
    ensures |r| == |issues|
    ensures forall k :: 0 <= k < |issues| ==> r[k] == Detail(PathText(issues[k].path), issues[k].message)
  {
    if issues == [] then [] else [Detail(PathText(issues[0].path), issues[0].message)] + Details(issues[1..])
  }

  /** What the handler answers, before it is written out as a response. */
  datatype Reply =
    | Triggered(instanceId: string)
    | Reported(instance: Instance)
    | Failed(status: nat, error: string, details: Option<seq<Detail>>)
    | NotFound

  /** `Response.json(...)` (status 200 unless given) and `new Response('Not found', {status: 404})`. */
  function Render(reply: Reply): Response {
    match reply
    case Triggered(id) => Response(200, Json(TriggerResponseValue(TriggerResponse(true, id, TriggeredMessage))))
    case Reported(i) => Response(200, Json(StatusResponseValue(StatusResponse(true, i.status, Some(i.json)))))
    case Failed(status, error, details) => Response(status, Json(ErrorResponseValue(ErrorResponse(false, error, details))))
    case NotFound => Response(404, Text("Not found"))
  }

  predicate AcceptsJson(contentType: Option<string>) {
    contentType.Some? && Strings.Contains(contentType.value, "application/json")
  }

  /** `!text || text.trim().length === 0`. */
  predicate Blank(text: string) {
    text == [] || Strings.Trim(text) == []
  }

  /** The POST branch, after the body has been read. */
  function TriggerWith(text: string, env: Env): (Reply, seq<Effect>) {
    if Blank(text) then (Failed(400, "Request body is required", None), [ReadBody])
    else if env.parse(text).None? then (Failed(400, "Invalid JSON in request body", None), [ReadBody])
    else
      var validation := ParseTriggerRequest(env.parse(text).value, env.isEmail);
      if validation.Err? then (Failed(400, "Validation error", Some(Details(validation.error))), [ReadBody])
      else
        var params := validation.value;
        match env.create(params)
        case Threw(t) => (Failed(500, ErrorMessage(t), None), [ReadBody, Create(params)])
        case Returned(id) => (Triggered(id), [ReadBody, Create(params)])
  }

  function Trigger(req: WorkerRequest, env: Env): (Reply, seq<Effect>) {
    if !AcceptsJson(req.contentType) then (Failed(400, "Content-Type must be application/json", None), [])
    else
      match req.body
      case Threw(t) => (Failed(500, ErrorMessage(t), None), [ReadBody])
      case Returned(text) => TriggerWith(text, env)
  }

  /** `{instanceId: url.searchParams.get('instanceId')}`: `null` when the parameter is missing. */
  function StatusQuery(param: Option<string>): Value {
    Obj([("instanceId", if param.Some? then Str(param.value) else Null)])
  }

  function Status(req: WorkerRequest, env: Env): (Reply, seq<Effect>) {
    var validation := ParseStatusParams(StatusQuery(req.instanceIdParam));
    if validation.Err? then (Failed(400, "Validation error", Some(Details(validation.error))), [])
    else
      var id := validation.value;
      match env.get(id)
      case Threw(t) => (Failed(500, ErrorMessage(t), None), [GetInstance(id)])
      case Returned(instance) => (Reported(instance), [GetInstance(id)])
  }

  /** The default export's `fetch`: the reply and the calls made, in order. */
  function Handle(req: WorkerRequest, env: Env): (Reply, seq<Effect>) {
    if req.httpMethod == "POST" then Trigger(req, env)
    else if req.httpMethod == "GET" then Status(req, env)
    else (NotFound, [])
  }

  /** `ExampleWorkflow.run`'s result, once its one step has slept. */
  function RunResult(): Value {
    Obj([("success", Bool(true)), ("message", Str("Workflow finished"))])
  }

  // Properties of the handler.

  lemma OtherMethodsNotFound(req: WorkerRequest, env: Env)
    requires req.httpMethod != "POST" && req.httpMethod != "GET"
    ensures Handle(req, env) == (NotFound, [])
    ensures Render(Handle(req, env).0) == Response(404, Text("Not found"))
  {
  }

  /** A POST without a JSON content type is refused before its body is read. */
  lemma ContentTypeChecked(req: WorkerRequest, env: Env)
    requires req.httpMethod == "POST"
    ensures !AcceptsJson(req.contentType) <==>
      Handle(req, env) == (Failed(400, "Content-Type must be application/json", None), [])
  {
  }

  /** A body of nothing but white space, the empty body included, is refused, and nothing is
      parsed or created. */
  lemma BlankBodyRefused(req: WorkerRequest, env: Env)
    requires req.httpMethod == "POST" && AcceptsJson(req.contentType)
    requires req.body.Returned? && Strings.AllSpace(req.body.value)
    ensures Handle(req, env) == (Failed(400, "Request body is required", None), [ReadBody])
  {
    Strings.TrimEmptyIffAllSpace(req.body.value);
  }

  lemma UnparsableBodyRefused(req: WorkerRequest, env: Env)
    requires req.httpMethod == "POST" && AcceptsJson(req.contentType)
    requires req.body.Returned? && !Strings.AllSpace(req.body.value) && env.parse(req.body.value).None?
    ensures Handle(req, env) == (Failed(400, "Invalid JSON in request body", None), [ReadBody])
  {
    Strings.TrimEmptyIffAllSpace(req.body.value);
  }

  /** A payload the trigger schema refuses is answered with one detail per issue, each with
      the issue's path joined by dots; no instance is created. */
  lemma InvalidPayloadRefused(req: WorkerRequest, env: Env)
    requires req.httpMethod == "POST" && AcceptsJson(req.contentType)
    requires req.body.Returned? && !Strings.AllSpace(req.body.value) && env.parse(req.body.value).Some?
    requires ParseTriggerRequest(env.parse(req.body.value).value, env.isEmail).Err?
    ensures var issues := ParseTriggerRequest(env.parse(req.body.value).value, env.isEmail).error;
      Handle(req, env) == (Failed(400, "Validation error", Some(Details(issues))), [ReadBody])
  {
    Strings.TrimEmptyIffAllSpace(req.body.value);
  }

  /** `create` is called exactly when all four checks pass, then with the validated request,
      and nothing is called after it. */
  lemma CreateOnlyWhenValid(req: WorkerRequest, env: Env, p: TriggerRequest)
    ensures Create(p) in Handle(req, env).1 <==>
      req.httpMethod == "POST" && AcceptsJson(req.contentType) && req.body.Returned?
      && !Strings.AllSpace(req.body.value) && env.parse(req.body.value).Some?
      && ParseTriggerRequest(env.parse(req.body.value).value, env.isEmail) == Ok(p)
    ensures Create(p) in Handle(req, env).1 ==> Handle(req, env).1 == [ReadBody, Create(p)]
  {
    if req.httpMethod == "POST" && AcceptsJson(req.contentType) && req.body.Returned? {
      TriggerWithCreates(req.body.value, env, p);
    } else if req.httpMethod == "POST" {
      assert Handle(req, env).1 == [] || Handle(req, env).1 == [ReadBody];
    } else if req.httpMethod == "GET" {
      assert forall e :: e in Handle(req, env).1 ==> e.GetInstance?;
    }
  }

  lemma TriggerWithCreates(text: string, env: Env, p: TriggerRequest)
    ensures Create(p) in TriggerWith(text, env).1 <==>
      !Strings.AllSpace(text) && env.parse(text).Some? && ParseTriggerRequest(env.parse(text).value, env.isEmail) == Ok(p)
    ensures Create(p) in TriggerWith(text, env).1 ==> TriggerWith(text, env).1 == [ReadBody, Create(p)]
  {
    Strings.TrimEmptyIffAllSpace(text);
    TriggerWithTrace(text, env);
  }

  /** The calls of the POST branch once the body is read. */
  lemma TriggerWithTrace(text: string, env: Env)
    ensures TriggerWith(text, env).1 ==
      if !Blank(text) && env.parse(text).Some? && ParseTriggerRequest(env.parse(text).value, env.isEmail).Ok?
      then [ReadBody, Create(ParseTriggerRequest(env.parse(text).value, env.isEmail).value)]
      else [ReadBody]
  {
  }

  /** After `create`, its outcome alone decides the reply: its id with the success message,
      or a 500 with the message of what it threw. */
  lemma CreateOutcomeDecides(req: WorkerRequest, env: Env, p: TriggerRequest)
    requires Create(p) in Handle(req, env).1
    ensures env.create(p).Returned? ==> Handle(req, env).0 == Triggered(env.create(p).value)
    ensures env.create(p).Threw? ==> Handle(req, env).0 == Failed(500, ErrorMessage(env.create(p).thrown), None)
  {
    CreateOnlyWhenValid(req, env, p);
  }

  /** A failed body read is a 500 with its message. */
  lemma BodyReadFailureIs500(req: WorkerRequest, env: Env)
    requires req.httpMethod == "POST" && AcceptsJson(req.contentType) && req.body.Threw?
    ensures Handle(req, env) == (Failed(500, ErrorMessage(req.body.thrown), None), [ReadBody])
  {
  }

  /** A missing or empty `instanceId` is refused without calling `get`; any other id is
      looked up, and the lookup's outcome decides the reply. */
  lemma StatusLookup(req: WorkerRequest, env: Env)
    requires req.httpMethod == "GET"
    ensures (req.instanceIdParam.None? || req.instanceIdParam == Some("")) <==>
      Handle(req, env).1 == [] && Handle(req, env).0.Failed? && Handle(req, env).0.status == 400
    ensures req.instanceIdParam.Some? && req.instanceIdParam.value != "" ==>
      var id := req.instanceIdParam.value;
      Handle(req, env).1 == [GetInstance(id)]
      && Handle(req, env).0 == match env.get(id)
         case Threw(t) => Failed(500, ErrorMessage(t), None)
         case Returned(i) => Reported(i)
  {
    var q := StatusQuery(req.instanceIdParam);
    assert Get(q.fields, "instanceId") == Some(if req.instanceIdParam.Some? then Str(req.instanceIdParam.value) else Null);
  }

  /** An empty `instanceId` is reported with the schema's message. */
  lemma EmptyInstanceIdIssue(req: WorkerRequest, env: Env)
    requires req.httpMethod == "GET" && req.instanceIdParam == Some("")
    ensures Handle(req, env).0 == Failed(400, "Validation error", Some([Detail("instanceId", InstanceIdRequired)]))
  {
    var q := StatusQuery(req.instanceIdParam);
    assert Get(q.fields, "instanceId") == Some(Str(""));
    assert PathText([Key("instanceId")]) == "instanceId" by {
      assert SegmentTexts([Key("instanceId")]) == ["instanceId"];
    }
    assert Details([Issue([Key("instanceId")], InstanceIdRequired)]) == [Detail("instanceId", InstanceIdRequired)];
  }

  /** A missing `instanceId` reaches the schema as `null`, and is reported as such. */
  lemma MissingInstanceIdIssue(req: WorkerRequest, env: Env)
    requires req.httpMethod == "GET" && req.instanceIdParam.None?
    ensures Handle(req, env).0 == Failed(400, "Validation error",
      Some([Detail("instanceId", "Invalid input: expected string, received null")]))
  {
    MissingIdRejected();
    MissingIdDetail();
  }

  lemma MissingIdRejected()
    ensures ParseStatusParams(StatusQuery(None))
      == Err([Issue([Key("instanceId")], "Invalid input: expected string, received null")])
  {
    var q := StatusQuery(None);
    assert Get(q.fields, "instanceId") == Some(Null);
    assert InvalidType("string", Some(Null)) == "Invalid input: expected string, received null";
    assert [Key("instanceId")] + [] == [Key("instanceId")];
  }

  lemma MissingIdDetail()
    ensures Details([Issue([Key("instanceId")], "Invalid input: expected string, received null")])
      == [Detail("instanceId", "Invalid input: expected string, received null")]
  {
    assert PathText([Key("instanceId")]) == "instanceId" by {
      assert SegmentTexts([Key("instanceId")]) == ["instanceId"];
    }
  }

  /** Every JSON reply has one of the shared response shapes: a failure reads back through the
      error schema with `success` false, a success through the trigger or status schema with
      `success` true. */
  lemma RepliesMatchSchemas(reply: Reply)
    ensures reply.Failed? ==> ParseErrorResponse(Render(reply).body.value) == Ok(ErrorResponse(false, reply.error, reply.details))
    ensures reply.Triggered? ==>
      ParseTriggerResponse(Render(reply).body.value) == Ok(TriggerResponse(true, reply.instanceId, TriggeredMessage))
    ensures reply.Reported? ==>
      ParseStatusResponse(Render(reply).body.value) == Ok(StatusResponse(true, reply.instance.status, Some(reply.instance.json)))
  {
    match reply
    case Failed(status, error, details) => ErrorResponseRoundTrip(ErrorResponse(false, error, details));
    case Triggered(id) => TriggerResponseRoundTrip(TriggerResponse(true, id, TriggeredMessage));
    case Reported(i) => StatusResponseRoundTrip(StatusResponse(true, i.status, Some(i.json)));
    case NotFound =>
  }

  /** Only the handler's failures carry a status other than 200 or 404, and these are 400 for
      a refused request and 500 for a thrown failure. */
  lemma FailureStatuses(req: WorkerRequest, env: Env)
    ensures Handle(req, env).0.Failed? ==> Handle(req, env).0.status in {400, 500}
    ensures Render(Handle(req, env).0).status in {200, 400, 404, 500}
  {
  }
}
