/** The shared workflow schemas: the trigger request, the status query, and the three
    response shapes the workflows worker answers with. Each schema has a parser (what
    `safeParse` accepts, with its output or its issues) and, for the data the system writes
    out, an encoder to the JavaScript object the parser reads back. */
module WorkflowSchemas {
  import opened Wrappers
  import opened Values
  import opened Validation

  /** The validated trigger request; `metadata` keeps the record's entries in order. */
  datatype TriggerRequest = TriggerRequest(email: string, metadata: seq<(string, string)>)

  const InvalidEmailFormat := "Invalid email format"
  const InstanceIdRequired := "instanceId is required"

  /** `metadata`: a string-to-string record, `{}` when absent; an explicit `null` is invalid. */
  function CheckMetadata(v: Option<Value>): Checked<seq<(string, string)>> {
    if v.None? then Ok([]) else CheckStringRecord(v)
  }

  /** The trigger-request object schema, with `emailMessage` as the e-mail check's message:
      an object whose `email` is a string that is an address and whose `metadata` is absent
      or a string record. Unknown keys are dropped; issues come in the order of the schema's
      keys. */
  function ParseTriggerRequestWith(v: Value, isEmail: string -> bool, emailMessage: string): (r: Checked<TriggerRequest>)
    ensures r.Ok? <==>
      v.Obj? && CheckEmail(Get(v.fields, "email"), isEmail, emailMessage).Ok?
      && (Get(v.fields, "metadata").None? || CheckStringRecord(Get(v.fields, "metadata")).Ok?)
    ensures r.Ok? ==>
      Get(v.fields, "email") == Some(Str(r.value.email)) && isEmail(r.value.email)
    ensures r.Ok? && Get(v.fields, "metadata").None? ==> r.value.metadata == []
    ensures r.Ok? && Get(v.fields, "metadata").Some? ==> r.value.metadata == StringEntries(Get(v.fields, "metadata").value.fields)
    ensures !v.Obj? ==> r == Err([Issue([], InvalidType("object", Some(v)))])
  {
    if !v.Obj? then Fail(InvalidType("object", Some(v)))
    else
      var email := CheckEmail(Get(v.fields, "email"), isEmail, emailMessage);
      var metadata := CheckMetadata(Get(v.fields, "metadata"));
      if email.Ok? && metadata.Ok? then Ok(TriggerRequest(email.value, metadata.value))
      else Err(Under(Key("email"), Problems(email)) + Under(Key("metadata"), Problems(metadata)))
  }

  /** `WorkflowTriggerRequestSchema.safeParse`. */
  function ParseTriggerRequest(v: Value, isEmail: string -> bool): Checked<TriggerRequest> {
    ParseTriggerRequestWith(v, isEmail, InvalidEmailFormat)
  }

  /** The gateway's OpenAPI copy of the trigger schema, which keeps zod's default e-mail message. */
  function ParseTriggerRequestOpenApi(v: Value, isEmail: string -> bool): Checked<TriggerRequest> {
    ParseTriggerRequestWith(v, isEmail, InvalidEmailAddress)
  }

  /** The two copies of the trigger schema accept the same payloads with the same output; they
      differ only in the message of a refused address. */
  lemma TriggerSchemasAgree(v: Value, isEmail: string -> bool)
    ensures ParseTriggerRequestOpenApi(v, isEmail).Ok? <==> ParseTriggerRequest(v, isEmail).Ok?
    ensures ParseTriggerRequest(v, isEmail).Ok? ==> ParseTriggerRequestOpenApi(v, isEmail) == ParseTriggerRequest(v, isEmail)
  {
  }

  /** The object `JSON.stringify(validation.data)` describes: the two keys in schema order. */
  function TriggerValue(t: TriggerRequest): Value {
    Obj([("email", Str(t.email)), ("metadata", Obj(RecordValue(t.metadata)))])
  }

  /** Writing out a validated request and parsing it again gives the same request. */
  lemma TriggerRoundTrip(t: TriggerRequest, isEmail: string -> bool)
    requires isEmail(t.email)
    ensures ParseTriggerRequest(TriggerValue(t), isEmail) == Ok(t)
  {
    var v := TriggerValue(t);
    assert Get(v.fields, "email") == Some(Str(t.email));
    assert Get(v.fields, "metadata") == Some(Obj(RecordValue(t.metadata)));
    RecordRoundTrip(t.metadata);
  }

  /** An address the e-mail check refuses is reported at `email` with the schema's message. */
  lemma BadEmailReported(fields: seq<(string, Value)>, isEmail: string -> bool, email: string)
    requires Get(fields, "email") == Some(Str(email)) && !isEmail(email)
    ensures ParseTriggerRequest(Obj(fields), isEmail).Err?
    ensures Issue([Key("email")], InvalidEmailFormat) in ParseTriggerRequest(Obj(fields), isEmail).error
  {
    var r := ParseTriggerRequest(Obj(fields), isEmail);
    assert Under(Key("email"), [Issue([], InvalidEmailFormat)])[0] == Issue([Key("email")], InvalidEmailFormat);
  }

  /** A metadata value that is not a string is reported at `metadata.<key>`. */
  lemma NonStringMetadataReported(fields: seq<(string, Value)>, isEmail: string -> bool,
                                  meta: seq<(string, Value)>, j: nat)
    requires Get(fields, "metadata") == Some(Obj(meta))
    requires j < |meta| && !meta[j].1.Str?
    ensures ParseTriggerRequest(Obj(fields), isEmail).Err?
    ensures Issue([Key("metadata"), Key(meta[j].0)], InvalidType("string", Some(meta[j].1)))
            in ParseTriggerRequest(Obj(fields), isEmail).error
  {
    var email := CheckEmail(Get(fields, "email"), isEmail, InvalidEmailFormat);
    var bad := Issue([Key(meta[j].0)], InvalidType("string", Some(meta[j].1)));
    RecordIssuesAt(meta, j);
    assert CheckMetadata(Get(fields, "metadata")) == Err(RecordIssues(meta));
    UnderKeeps(Key("metadata"), RecordIssues(meta), bad);
    assert [Key("metadata")] + bad.path == [Key("metadata"), Key(meta[j].0)];
    InConcat(Under(Key("email"), Problems(email)), Under(Key("metadata"), RecordIssues(meta)),
             Issue([Key("metadata"), Key(meta[j].0)], InvalidType("string", Some(meta[j].1))));
  }

  /** Properties outside the schema do not affect the outcome. */
  lemma UnknownKeyIgnored(fields: seq<(string, Value)>, extra: (string, Value), isEmail: string -> bool)
    requires extra.0 != "email" && extra.0 != "metadata"
    ensures ParseTriggerRequest(Obj(fields + [extra]), isEmail) == ParseTriggerRequest(Obj(fields), isEmail)
  {
    GetAppendOther(fields, extra, "email");
    GetAppendOther(fields, extra, "metadata");
  }

  /** `WorkflowStatusParamsSchema.safeParse`: `instanceId` must be a non-empty string. */
  function ParseStatusParams(v: Value): (r: Checked<string>)
    ensures r.Ok? <==> v.Obj? && exists id :: Get(v.fields, "instanceId") == Some(Str(id)) && id != ""
    ensures r.Ok? ==> Get(v.fields, "instanceId") == Some(Str(r.value))
    ensures v.Obj? && Get(v.fields, "instanceId") == Some(Str("")) ==>
      r == Err([Issue([Key("instanceId")], InstanceIdRequired)])
  {
    if !v.Obj? then Fail(InvalidType("object", Some(v)))
    else
      var id := CheckMinLength(Get(v.fields, "instanceId"), 1, InstanceIdRequired);
      if id.Ok? then Ok(id.value)
      else
        assert [Key("instanceId")] + [] == [Key("instanceId")];
        Err(Under(Key("instanceId"), id.error))
  }

  // Response schemas.

  datatype TriggerResponse = TriggerResponse(success: bool, instanceId: string, message: string)

  /** `status` and `instance` are `z.any()`: any value, or absent. */
  datatype StatusResponse = StatusResponse(success: bool, status: Option<Value>, instance: Option<Value>)

  datatype Detail = Detail(path: string, message: string)

  datatype ErrorResponse = ErrorResponse(success: bool, error: string, details: Option<seq<Detail>>)

  /** `WorkflowTriggerResponseSchema.safeParse`. */
  function ParseTriggerResponse(v: Value): (r: Checked<TriggerResponse>)
    ensures r.Ok? <==> v.Obj? && CheckBoolean(Get(v.fields, "success")).Ok?
                       && CheckString(Get(v.fields, "instanceId")).Ok? && CheckString(Get(v.fields, "message")).Ok?
    ensures r.Ok? ==> Get(v.fields, "success") == Some(Bool(r.value.success))
                      && Get(v.fields, "instanceId") == Some(Str(r.value.instanceId))
                      && Get(v.fields, "message") == Some(Str(r.value.message))
  {
    if !v.Obj? then Fail(InvalidType("object", Some(v)))
    else
      var success := CheckBoolean(Get(v.fields, "success"));
      var id := CheckString(Get(v.fields, "instanceId"));
      var message := CheckString(Get(v.fields, "message"));
      if success.Ok? && id.Ok? && message.Ok? then Ok(TriggerResponse(success.value, id.value, message.value))
      else Err(Under(Key("success"), Problems(success)) + Under(Key("instanceId"), Problems(id))
               + Under(Key("message"), Problems(message)))
  }

  /** `WorkflowStatusResponseSchema.safeParse`: only `success` is checked. */
  function ParseStatusResponse(v: Value): (r: Checked<StatusResponse>)
    ensures r.Ok? <==> v.Obj? && CheckBoolean(Get(v.fields, "success")).Ok?
    ensures r.Ok? ==> Get(v.fields, "success") == Some(Bool(r.value.success))
                      && r.value.status == Get(v.fields, "status")
                      && r.value.instance == Get(v.fields, "instance")
  {
    if !v.Obj? then Fail(InvalidType("object", Some(v)))
    else
      var success := CheckBoolean(Get(v.fields, "success"));
      if success.Ok? then Ok(StatusResponse(success.value, Get(v.fields, "status"), Get(v.fields, "instance")))
      else Err(Under(Key("success"), success.error))
  }

  /** One element of `details`: an object with string `path` and `message`. */
  function ParseDetail(v: Value): (r: Checked<Detail>)
    ensures r.Ok? <==> v.Obj? && CheckString(Get(v.fields, "path")).Ok? && CheckString(Get(v.fields, "message")).Ok?
    ensures r.Ok? ==> Get(v.fields, "path") == Some(Str(r.value.path))
                      && Get(v.fields, "message") == Some(Str(r.value.message))
  {
    if !v.Obj? then Fail(InvalidType("object", Some(v)))
    else
      var path := CheckString(Get(v.fields, "path"));
      var message := CheckString(Get(v.fields, "message"));
      if path.Ok? && message.Ok? then Ok(Detail(path.value, message.value))
      else Err(Under(Key("path"), Problems(path)) + Under(Key("message"), Problems(message)))
  }

  /** The elements of `details` from index `offset` on. */
  function ParseDetailItems(items: seq<Value>, offset: nat): (r: Checked<seq<Detail>>)
    ensures r.Ok? <==> forall k :: 0 <= k < |items| ==> ParseDetail(items[k]).Ok?
    ensures r.Ok? ==> |r.value| == |items| && forall k :: 0 <= k < |items| ==> r.value[k] == ParseDetail(items[k]).value
  {
    if items == [] then Ok([])
    else
      var head := ParseDetail(items[0]);
      var rest := ParseDetailItems(items[1..], offset + 1);
      if head.Ok? && rest.Ok? then
        assert forall k :: 1 <= k < |items| ==> items[k] == items[1..][k - 1];
        Ok([head.value] + rest.value)
      else
        assert !head.Ok? ==> !ParseDetail(items[0]).Ok?;
        assert !rest.Ok? ==> exists k :: 0 <= k < |items[1..]| && !ParseDetail(items[1..][k]).Ok?;
        assert !rest.Ok? ==> exists k :: 1 <= k < |items| && !ParseDetail(items[k]).Ok?;
        Err(Under(Index(offset), Problems(head)) + Problems(rest))
  }

  /** `ErrorResponseSchema.safeParse`: `details` is optional. */
  function ParseErrorResponse(v: Value): (r: Checked<ErrorResponse>)
    ensures r.Ok? <==> v.Obj? && CheckBoolean(Get(v.fields, "success")).Ok? && CheckString(Get(v.fields, "error")).Ok?
                       && (Get(v.fields, "details").None?
                           || (Get(v.fields, "details").value.Arr? && ParseDetailItems(Get(v.fields, "details").value.items, 0).Ok?))
    ensures r.Ok? ==> Get(v.fields, "success") == Some(Bool(r.value.success))
                      && Get(v.fields, "error") == Some(Str(r.value.error))
                      && (r.value.details.None? <==> Get(v.fields, "details").None?)
    ensures r.Ok? && r.value.details.Some? ==>
      r.value.details.value == ParseDetailItems(Get(v.fields, "details").value.items, 0).value
  {
    if !v.Obj? then Fail(InvalidType("object", Some(v)))
    else
      var success := CheckBoolean(Get(v.fields, "success"));
      var error := CheckString(Get(v.fields, "error"));
      var d := Get(v.fields, "details");
      var details: Checked<Option<seq<Detail>>> :=
        if d.None? then Ok(None)
        else if !d.value.Arr? then Fail(InvalidType("array", d))
        else
          var items := ParseDetailItems(d.value.items, 0);
          if items.Ok? then Ok(Some(items.value)) else Err(items.error);
      if success.Ok? && error.Ok? && details.Ok? then Ok(ErrorResponse(success.value, error.value, details.value))
      else Err(Under(Key("success"), Problems(success)) + Under(Key("error"), Problems(error))
               + Under(Key("details"), Problems(details)))
  }

  // Encoders: the JSON objects the worker writes, with keys in the order the source lists them.

  function TriggerResponseValue(t: TriggerResponse): Value {
    Obj([("success", Bool(t.success)), ("instanceId", Str(t.instanceId)), ("message", Str(t.message))])
  }

  /** `JSON.stringify` leaves out properties whose value is `undefined`. */
  function StatusResponseValue(s: StatusResponse): Value {
    Obj([("success", Bool(s.success))]
        + (if s.status.Some? then [("status", s.status.value)] else [])
        + (if s.instance.Some? then [("instance", s.instance.value)] else []))
  }

  function DetailValue(d: Detail): Value {
    Obj([("path", Str(d.path)), ("message", Str(d.message))])
  }

  function DetailValues(ds: seq<Detail>): (r: seq<Value>)
    ensures |r| == |ds| && forall k :: 0 <= k < |ds| ==> r[k] == DetailValue(ds[k])
  {
    if ds == [] then [] else [DetailValue(ds[0])] + DetailValues(ds[1..])
  }

  function ErrorResponseValue(e: ErrorResponse): Value {
    Obj([("success", Bool(e.success)), ("error", Str(e.error))]
        + (if e.details.Some? then [("details", Arr(DetailValues(e.details.value)))] else []))
  }

  lemma TriggerResponseRoundTrip(t: TriggerResponse)
    ensures ParseTriggerResponse(TriggerResponseValue(t)) == Ok(t)
  {
    var f := TriggerResponseValue(t).fields;
    assert f[1..][1..] == [("message", Str(t.message))];
    assert f[0].0[0] == 's' && f[1].0[0] == 'i' && f[2].0[0] == 'm';
    assert Get(f, "success") == Some(Bool(t.success));
    assert Get(f, "instanceId") == Get(f[1..], "instanceId") == Some(Str(t.instanceId));
    assert Get(f, "message") == Get(f[1..][1..], "message") == Some(Str(t.message));
  }

  lemma StatusResponseRoundTrip(s: StatusResponse)
    ensures ParseStatusResponse(StatusResponseValue(s)) == Ok(s)
  {
    var f := StatusResponseValue(s).fields;
    var tail := (if s.status.Some? then [("status", s.status.value)] else [])
      + (if s.instance.Some? then [("instance", s.instance.value)] else []);
    assert f == [("success", Bool(s.success))] + tail;
    assert f[1..] == tail;
    assert Get(f, "status") == Get(tail, "status");
    assert Get(f, "instance") == Get(tail, "instance");
    if s.status.Some? {
      assert tail[1..] == (if s.instance.Some? then [("instance", s.instance.value)] else []);
      assert Get(tail, "instance") == Get(tail[1..], "instance");
    }
  }

  lemma DetailRoundTrip(d: Detail)
    ensures ParseDetail(DetailValue(d)) == Ok(d)
  {
    var f := DetailValue(d).fields;
    assert Get(f, "path") == Some(Str(d.path));
    assert Get(f, "message") == Some(Str(d.message));
  }

  lemma {:induction false} DetailItemsRoundTrip(ds: seq<Detail>, offset: nat)
    ensures ParseDetailItems(DetailValues(ds), offset) == Ok(ds)
  {
    if ds != [] {
      var items := DetailValues(ds);
      DetailItemsRoundTrip(ds[1..], offset + 1);
      assert items[1..] == DetailValues(ds[1..]);
      DetailRoundTrip(ds[0]);
      assert ParseDetailItems(items, offset) == Ok([ds[0]] + ds[1..]);
      assert [ds[0]] + ds[1..] == ds;
    }
  }

  /** An error response carries no `instanceId`. */
  lemma ErrorResponseHasNoInstanceId(e: ErrorResponse)
    ensures Get(ErrorResponseValue(e).fields, "instanceId").None?
  {
    var f := ErrorResponseValue(e).fields;
    assert forall k :: 0 <= k < |f| ==> f[k].0[0] != 'i';
  }

  /** The three properties an encoded error response has. */
  lemma ErrorResponseFields(e: ErrorResponse)
    ensures Get(ErrorResponseValue(e).fields, "success") == Some(Bool(e.success))
    ensures Get(ErrorResponseValue(e).fields, "error") == Some(Str(e.error))
    ensures Get(ErrorResponseValue(e).fields, "details") ==
      if e.details.Some? then Some(Arr(DetailValues(e.details.value))) else None
  {
    var f := ErrorResponseValue(e).fields;
    assert "success" != "details" by { assert "success"[0] != "details"[0]; }
    if e.details.Some? {
      var items := DetailValues(e.details.value);
      assert f == [("success", Bool(e.success)), ("error", Str(e.error)), ("details", Arr(items))];
      assert f[1..][1..] == [("details", Arr(items))];
      assert Get(f, "details") == Get(f[1..], "details");
      assert Get(f[1..], "details") == Get(f[1..][1..], "details");
    } else {
      assert f == [("success", Bool(e.success)), ("error", Str(e.error))];
    }
  }

  lemma ErrorResponseRoundTrip(e: ErrorResponse)
    ensures ParseErrorResponse(ErrorResponseValue(e)) == Ok(e)
  {
    ErrorResponseFields(e);
    if e.details.Some? {
      DetailItemsRoundTrip(e.details.value, 0);
    }
  }
}
