/** The tRPC set-up shared by the routers: the middleware behind `protectedProcedure`, and
    the error formatter that attaches the flattened validation failure to every error shape. */
module TrpcLib {
  import opened Wrappers
  import opened Values
  import opened Validation

  /** The signed-in user; `id` is what the procedures pass on as the caller. */
  datatype User = User(id: string, fields: seq<(string, Value)>)

  /** The context's `auth`: a session whose user may be missing. */
  datatype Auth = Auth(user: Option<User>, session: Value)

  /** The middleware's decision: throw `UNAUTHORIZED`, or call `next` with this `auth`. */
  datatype Gate = Unauthorized | Next(auth: Auth)

  /** `if (!ctx.auth?.user) throw ...; return next({ctx: {auth: ctx.auth}})`. */
  function Protect(auth: Option<Auth>): (r: Gate)
    ensures auth.None? ==> r == Unauthorized
    ensures auth.Some? && auth.value.user.None? ==> r == Unauthorized
    ensures r.Next? <==> auth.Some? && auth.value.user.Some?
    ensures r.Next? ==> r.auth == auth.value
  {
    if auth.None? || auth.value.user.None? then Unauthorized else Next(auth.value)
  }

  /** The `cause` of a tRPC error: a zod validation failure, or anything else. */
  datatype Cause = ZodCause(issues: seq<Issue>) | OtherCause

  function StrValues(ss: seq<string>): (r: seq<Value>)
    ensures |r| == |ss| && forall k :: 0 <= k < |ss| ==> r[k] == Str(ss[k])
  {
    if ss == [] then [] else [Str(ss[0])] + StrValues(ss[1..])
  }

  function GroupValues(groups: Groups): (r: seq<(string, Value)>)
    ensures |r| == |groups| && forall k :: 0 <= k < |groups| ==> r[k] == (groups[k].0, Arr(StrValues(groups[k].1)))
  {
    if groups == [] then [] else [(groups[0].0, Arr(StrValues(groups[0].1)))] + GroupValues(groups[1..])
  }

  /** The object `z.flattenError` returns. */
  function FlattenedValue(f: Flattened): Value {
    Obj([("formErrors", Arr(StrValues(f.formErrors))), ("fieldErrors", Obj(GroupValues(f.fieldErrors)))])
  }

  function ZodErrorValue(cause: Cause): Value {
    if cause.ZodCause? then FlattenedValue(Flatten(cause.issues)) else Null
  }

  /** The properties of `shape.data`; spreading something that is not an object adds none. */
  function DataFields(shape: seq<(string, Value)>): seq<(string, Value)> {
    var d := Get(shape, "data");
    if d.Some? && d.value.Obj? then d.value.fields else []
  }

  /** `errorFormatter`: the shape with its `data` replaced by `data` plus `zodError`. Every
      other property of the shape, and every other property of `data`, is kept as it was. */
  function FormatError(shape: seq<(string, Value)>, cause: Cause): (r: seq<(string, Value)>)
    ensures Get(r, "data").Some? && Get(r, "data").value.Obj?
    ensures forall k :: k != "data" ==> Get(r, k) == Get(shape, k)
    ensures Get(Get(r, "data").value.fields, "zodError") == Some(ZodErrorValue(cause))
    ensures forall k :: k != "zodError" ==> Get(Get(r, "data").value.fields, k) == Get(DataFields(shape), k)
  {
    Put(shape, "data", Obj(Put(DataFields(shape), "zodError", ZodErrorValue(cause))))
  }

  /** `zodError` is `null` exactly when the cause is not a zod error; for a zod error it is
      that error flattened. */
  lemma ZodErrorOnlyForZodCause(shape: seq<(string, Value)>, cause: Cause)
    ensures var z := Get(Get(FormatError(shape, cause), "data").value.fields, "zodError").value;
      (z == Null <==> cause.OtherCause?)
      && (cause.ZodCause? ==> z == FlattenedValue(Flatten(cause.issues)))
  {
  }

  /** The formatter is idempotent: formatting a formatted shape again with the same cause
      gives the same shape. */
  lemma FormatErrorIdempotent(shape: seq<(string, Value)>, cause: Cause)
    ensures FormatError(FormatError(shape, cause), cause) == FormatError(shape, cause)
  {
    var z := ZodErrorValue(cause);
    var data := Put(DataFields(shape), "zodError", z);
    var once := FormatError(shape, cause);
    assert DataFields(once) == data;
    PutTwice(DataFields(shape), "zodError", z);
    PutTwice(shape, "data", Obj(data));
  }
}
