/** JavaScript values as the validators and handlers see them: what `JSON.parse` produces,
    plus the `Date` objects that the admin procedures receive. An object is the list of its
    properties in the order they were written. JavaScript lists integer-like keys first and
    `JSON.parse` keeps the last of two equal keys; the model keeps the written order and
    reads the first of two equal keys. */
module Values {
  import opened Wrappers

  datatype Value =
    | Null
    | Bool(b: bool)
    | Num(n: real)
    | Str(s: string)
    | Arr(items: seq<Value>)
    | Obj(fields: seq<(string, Value)>)
    | Date(time: int)

  /** Property lookup on an object's fields; `None` is JavaScript's `undefined`. */
  function Get(fields: seq<(string, Value)>, key: string): (r: Option<Value>)
    ensures r.None? <==> forall k :: 0 <= k < |fields| ==> fields[k].0 != key
    ensures r.Some? ==> (key, r.value) in fields
  {
    if fields == [] then None
    else if fields[0].0 == key then Some(fields[0].1)
    else Get(fields[1..], key)
  }

  /** A property added after the existing ones does not change the lookup of any other key. */
  lemma {:induction false} GetAppendOther(fields: seq<(string, Value)>, extra: (string, Value), key: string)
    requires extra.0 != key
    ensures Get(fields + [extra], key) == Get(fields, key)
  {
    if fields != [] {
      assert (fields + [extra])[1..] == fields[1..] + [extra];
      GetAppendOther(fields[1..], extra, key);
    }
  }

  /** `o[key] = v` on an object: an existing property keeps its position and takes the new
      value, a new property goes last; no other property changes. This is also what
      `{...o, key: v}` produces. */
  function Put(fields: seq<(string, Value)>, key: string, v: Value): (r: seq<(string, Value)>)
    ensures Get(r, key) == Some(v)
    ensures forall other :: other != key ==> Get(r, other) == Get(fields, other)
  {
    if fields == [] then
      var r := [(key, v)];
      assert forall other :: other != key ==> Get(r, other) == Get(r[1..], other);
      r
    else if fields[0].0 == key then [(key, v)] + fields[1..]
    else [fields[0]] + Put(fields[1..], key, v)
  }

  /** Setting a property twice to the same value is setting it once. */
  lemma {:induction false} PutTwice(fields: seq<(string, Value)>, key: string, v: Value)
    ensures Put(Put(fields, key, v), key, v) == Put(fields, key, v)
  {
    if fields != [] && fields[0].0 != key {
      PutTwice(fields[1..], key, v);
      assert ([fields[0]] + Put(fields[1..], key, v))[1..] == Put(fields[1..], key, v);
    } else if fields != [] {
      assert ([(key, v)] + fields[1..])[1..] == fields[1..];
    }
  }

  predicate IsInteger(n: real) {
    n.Floor as real == n
  }

  /** The name zod's English messages give to the type of a received value. */
  function TypeName(v: Option<Value>): string {
    match v
    case None => "undefined"
    case Some(Null) => "null"
    case Some(Bool(_)) => "boolean"
    case Some(Num(_)) => "number"
    case Some(Str(_)) => "string"
    case Some(Arr(_)) => "array"
    case Some(Obj(_)) => "object"
    case Some(Date(_)) => "Date"
  }
}
