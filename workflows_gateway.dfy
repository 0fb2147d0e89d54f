/** The API server's workflow routes, which proxy to the workflows worker through its service
    binding: `POST /workflows/trigger` re-validates the body, forwards it and shape-checks the
    worker's reply; `GET /workflows/status/{instanceId}` forwards the id and copies three
    fields of the reply. The binding's `fetch`, with the reading of the reply's JSON, is a
    parameter; the requests sent through it are returned as a trace. */
module WorkflowsGateway {
  import opened Wrappers
  import opened Values
  import opened Validation
  import opened WorkflowSchemas
  import opened Http
  import Strings
  import Worker = WorkflowsWorker

  /** A request sent to the worker: method, URL, `Content-Type` header and the JSON value whose
      `JSON.stringify` is the body. */
  datatype Downstream = Downstream(verb: string, url: string, contentType: Option<string>, body: Option<Value>)

  /** `WORKFLOWS.fetch(request)` followed by `response.json()`: the reply's JSON, or what
      either step threw. The reply's HTTP status is not part of it, as the handlers never read it. */
  type Fetch = Downstream -> Outcome<Value>

  const WorkerOrigin := "http://workflows-starter/"
  const InvalidResponse := "Invalid response from workflow"

  function ErrorReply(status: nat, error: string, details: Option<seq<Detail>>): Response {
    Response(status, Json(ErrorResponseValue(ErrorResponse(false, error, details))))
  }

  /** The downstream request for a validated trigger request. */
  function TriggerDownstream(t: TriggerRequest): Downstream {
    Downstream("POST", WorkerOrigin, Some("application/json"), Some(TriggerValue(t)))
  }

  /** The trigger handler, given the body the route's own schema produced. */
  function Trigger(body: Value, isEmail: string -> bool, fetch: Fetch): (Response, seq<Downstream>) {
    var validation := ParseTriggerRequest(body, isEmail);
    if validation.Err? then
      (ErrorReply(400, "Validation error", Some(Worker.Details(validation.error))), [])
    else
      var d := TriggerDownstream(validation.value);
      match fetch(d)
      case Threw(t) => (ErrorReply(500, ErrorMessage(t), None), [d])
      case Returned(result) =>
        var responseValidation := ParseTriggerResponse(result);
        if responseValidation.Err? then (ErrorReply(500, InvalidResponse, None), [d])
        else (Response(200, Json(TriggerResponseValue(responseValidation.value))), [d])
  }

  /** The worker URL for a status request: the id is appended as it is, without encoding. */
  function StatusUrl(instanceId: string): (r: string)
    ensures Strings.StartsWith(r, WorkerOrigin + "?instanceId=")
    ensures r[|WorkerOrigin + "?instanceId="|..] == instanceId
  {
    WorkerOrigin + "?instanceId=" + instanceId
  }

  function StatusDownstream(instanceId: string): Downstream {
    Downstream("GET", StatusUrl(instanceId), None, None)
  }

  /** The status handler, given the path parameter. */
  function Status(instanceId: string, fetch: Fetch): (Response, seq<Downstream>) {
    var d := StatusDownstream(instanceId);
    match fetch(d)
    case Threw(t) => (ErrorReply(500, ErrorMessage(t), None), [d])
    case Returned(result) =>
      var responseValidation := ParseStatusResponse(result);
      if responseValidation.Err? then (ErrorReply(500, InvalidResponse, None), [d])
      else
        var data := responseValidation.value;
        (Response(200, Json(StatusResponseValue(StatusResponse(data.success, data.status, data.instance)))), [d])
  }

  // Properties of the trigger route.

  /** A body the shared schema refuses is answered with the issue details, without calling
      the worker. */
  lemma InvalidBodyNotForwarded(body: Value, isEmail: string -> bool, fetch: Fetch)
    requires ParseTriggerRequest(body, isEmail).Err?
    ensures Trigger(body, isEmail, fetch) ==
      (ErrorReply(400, "Validation error", Some(Worker.Details(ParseTriggerRequest(body, isEmail).error))), [])
  {
  }

  /** A body the route's OpenAPI schema produced always passes the shared schema, so the
      re-validation never refuses it. */
  lemma RouteOutputPassesRevalidation(raw: Value, isEmail: string -> bool, fetch: Fetch)
    requires ParseTriggerRequestOpenApi(raw, isEmail).Ok?
    ensures var t := ParseTriggerRequestOpenApi(raw, isEmail).value;
      Trigger(TriggerValue(t), isEmail, fetch).1 == [TriggerDownstream(t)]
  {
    var t := ParseTriggerRequestOpenApi(raw, isEmail).value;
    TriggerRoundTrip(t, isEmail);
  }

  /** A valid body is forwarded once, as a JSON POST whose body is the validated, defaulted data. */
  lemma ValidBodyForwarded(body: Value, isEmail: string -> bool, fetch: Fetch)
    requires ParseTriggerRequest(body, isEmail).Ok?
    ensures var t := ParseTriggerRequest(body, isEmail).value;
      Trigger(body, isEmail, fetch).1 == [Downstream("POST", WorkerOrigin, Some("application/json"), Some(TriggerValue(t)))]
  {
  }

  /** The worker's reply decides the answer only through the trigger-response shape: a reply
      with that shape is returned as parsed with 200, any other reply is a 500. */
  lemma TriggerReplyMapping(body: Value, isEmail: string -> bool, fetch: Fetch)
    requires ParseTriggerRequest(body, isEmail).Ok?
    ensures var d := TriggerDownstream(ParseTriggerRequest(body, isEmail).value);
      var r := Trigger(body, isEmail, fetch).0;
      match fetch(d)
      case Threw(t) => r == ErrorReply(500, ErrorMessage(t), None)
      case Returned(v) =>
        (ParseTriggerResponse(v).Err? ==> r == ErrorReply(500, InvalidResponse, None))
        && (ParseTriggerResponse(v).Ok? ==> r == Response(200, Json(TriggerResponseValue(ParseTriggerResponse(v).value))))
  {
  }

  /** Every failure envelope of the worker, whatever its HTTP status, lacks `instanceId`:
      a refused trigger (a 400 downstream) comes back from the gateway as a 500. */
  lemma WorkerFailureBecomes500(body: Value, isEmail: string -> bool, fetch: Fetch, e: ErrorResponse)
    requires ParseTriggerRequest(body, isEmail).Ok?
    requires fetch(TriggerDownstream(ParseTriggerRequest(body, isEmail).value)) == Returned(ErrorResponseValue(e))
    ensures Trigger(body, isEmail, fetch).0 == ErrorReply(500, InvalidResponse, None)
  {
    ErrorResponseFields(e);
    ErrorResponseHasNoInstanceId(e);
  }

  /** A successful worker reply passes through unchanged. */
  lemma WorkerSuccessPassesThrough(body: Value, isEmail: string -> bool, fetch: Fetch, id: string)
    requires ParseTriggerRequest(body, isEmail).Ok?
    requires fetch(TriggerDownstream(ParseTriggerRequest(body, isEmail).value))
             == Returned(Worker.Render(Worker.Triggered(id)).body.value)
    ensures Trigger(body, isEmail, fetch).0 == Worker.Render(Worker.Triggered(id))
  {
    Worker.RepliesMatchSchemas(Worker.Triggered(id));
  }

  /** The request the gateway forwards, received by the worker, creates the very instance the
      gateway validated: the worker's checks all pass and `create` gets the same data. */
  lemma ForwardedTriggerCreates(body: Value, env: Worker.Env, text: string)
    requires ParseTriggerRequest(body, env.isEmail).Ok?
    requires !Strings.AllSpace(text)
    requires env.parse(text) == TriggerDownstream(ParseTriggerRequest(body, env.isEmail).value).body
    ensures var t := ParseTriggerRequest(body, env.isEmail).value;
      var d := TriggerDownstream(t);
      Worker.Handle(Worker.WorkerRequest(d.verb, d.contentType, Returned(text), None), env).1
        == [Worker.ReadBody, Worker.Create(t)]
  {
    var t := ParseTriggerRequest(body, env.isEmail).value;
    var d := TriggerDownstream(t);
    TriggerRoundTrip(t, env.isEmail);
    Strings.OccursContains("application/json", "application/json", 0);
    Worker.CreateOnlyWhenValid(Worker.WorkerRequest(d.verb, d.contentType, Returned(text), None), env, t);
  }

  // Properties of the status route.

  /** The id is sent to the worker as the `instanceId` query value, appended without encoding. */
  lemma StatusForwarded(instanceId: string, fetch: Fetch)
    ensures Status(instanceId, fetch).1 == [Downstream("GET", "http://workflows-starter/?instanceId=" + instanceId, None, None)]
  {
    assert WorkerOrigin + "?instanceId=" == "http://workflows-starter/?instanceId=";
  }

  /** Only `success`, `status` and `instance` of the worker's reply are copied into a 200; any
      reply without a boolean `success` is a 500. */
  lemma StatusReplyMapping(instanceId: string, fetch: Fetch)
    ensures match fetch(StatusDownstream(instanceId))
      case Threw(t) => Status(instanceId, fetch).0 == ErrorReply(500, ErrorMessage(t), None)
      case Returned(v) =>
        (ParseStatusResponse(v).Err? ==> Status(instanceId, fetch).0 == ErrorReply(500, InvalidResponse, None))
        && (ParseStatusResponse(v).Ok? ==>
          Status(instanceId, fetch).0 == Response(200, Json(StatusResponseValue(
            StatusResponse(Get(v.fields, "success").value.b, Get(v.fields, "status"), Get(v.fields, "instance"))))))
  {
    if fetch(StatusDownstream(instanceId)).Returned? {
      var v := fetch(StatusDownstream(instanceId)).value;
      if ParseStatusResponse(v).Ok? {
        var data := ParseStatusResponse(v).value;
        assert data == StatusResponse(Get(v.fields, "success").value.b, Get(v.fields, "status"), Get(v.fields, "instance"));
      }
    }
  }

  /** A worker failure on the status path, such as a 500 because `get` threw, is answered with
      200 and `{success: false}`: the error message is dropped. */
  lemma WorkerStatusFailureBecomes200(instanceId: string, fetch: Fetch, error: string)
    requires fetch(StatusDownstream(instanceId)) == Returned(ErrorResponseValue(ErrorResponse(false, error, None)))
    ensures Status(instanceId, fetch).0 == Response(200, Json(Obj([("success", Bool(false))])))
  {
    ErrorResponseFields(ErrorResponse(false, error, None));
    var f := ErrorResponseValue(ErrorResponse(false, error, None)).fields;
    assert f == [("success", Bool(false)), ("error", Str(error))];
    assert Get(f, "status").None? && Get(f, "instance").None?;
    assert ParseStatusResponse(Obj(f)) == Ok(StatusResponse(false, None, None));
    assert StatusResponseValue(StatusResponse(false, None, None)).fields == [("success", Bool(false))];
  }

  /** Any exception in either handler is a 500 with its message. */
  lemma ThrownIs500(body: Value, isEmail: string -> bool, instanceId: string, fetch: Fetch, t: Thrown)
    ensures ParseTriggerRequest(body, isEmail).Ok?
            && fetch(TriggerDownstream(ParseTriggerRequest(body, isEmail).value)) == Threw(t) ==>
            Trigger(body, isEmail, fetch).0 == ErrorReply(500, ErrorMessage(t), None)
    ensures fetch(StatusDownstream(instanceId)) == Threw(t) ==>
            Status(instanceId, fetch).0 == ErrorReply(500, ErrorMessage(t), None)
  {
  }
}
