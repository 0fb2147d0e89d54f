/** The validation behaviour of the zod 4 schemas the core declares: issues with paths,
    the checks for strings, e-mail addresses, booleans, dates, enumerations, integers in a
    range, string arrays and string-to-string records, `optional` and `default`, and
    `flattenError`. The wording of library-generated messages is zod 4's English wording. */
module Validation {
  import opened Wrappers
  import opened Values
  import Strings

  /** One step of an issue path: an object key or an array index. */
  datatype Segment = Key(name: string) | Index(index: nat)

  datatype Issue = Issue(path: seq<Segment>, message: string)

  type Checked<T> = Result<T, seq<Issue>>

  /** The issues of a failed check, none of a passed one. */
  function Problems<T>(r: Checked<T>): seq<Issue> {
    if r.Err? then r.error else []
  }

  /** The issues of a nested schema, seen from the enclosing object: each path gains `seg` in front. */
  function Under(seg: Segment, issues: seq<Issue>): (r: seq<Issue>)
    ensures |r| == |issues|
    ensures forall k :: 0 <= k < |r| ==> r[k] == Issue([seg] + issues[k].path, issues[k].message)
    ensures |issues| == 1 ==> r == [Issue([seg] + issues[0].path, issues[0].message)]
  {
    if issues == [] then []
    else [Issue([seg] + issues[0].path, issues[0].message)] + Under(seg, issues[1..])
  }

  lemma UnderKeeps(seg: Segment, issues: seq<Issue>, i: Issue)
    requires i in issues
    ensures Issue([seg] + i.path, i.message) in Under(seg, issues)
  {
    var k :| 0 <= k < |issues| && issues[k] == i;
    assert Under(seg, issues)[k] == Issue([seg] + i.path, i.message);
  }

  lemma InConcat(a: seq<Issue>, b: seq<Issue>, i: Issue)
    requires i in b
    ensures i in a + b
  {
    var k :| 0 <= k < |b| && b[k] == i;
    assert (a + b)[|a| + k] == i;
  }

  function DigitChar(d: nat): char
    requires d < 10
  {
    "0123456789"[d]
  }

  /** The decimal text of a natural number, as `String(n)` writes it. */
  function NatText(n: nat): (r: string)
    ensures |r| >= 1
    ensures forall k :: 0 <= k < |r| ==> '0' <= r[k] <= '9'
  {
    if n < 10 then [DigitChar(n)] else NatText(n / 10) + [DigitChar(n % 10)]
  }

  /** The number a text of decimal digits stands for, read left to right. */
  function DigitsValue(s: string): nat
    requires forall k :: 0 <= k < |s| ==> '0' <= s[k] <= '9'
  {
    if s == [] then 0 else DigitsValue(s[..|s| - 1]) * 10 + (s[|s| - 1] as int - '0' as int)
  }

  /** The decimal text of `n` reads back as `n`. */
  lemma {:induction false} NatTextValue(n: nat)
    ensures DigitsValue(NatText(n)) == n
  {
    if n < 10 {
      assert DigitChar(n) as int - '0' as int == n;
      assert NatText(n)[..0] == [];
    } else {
      NatTextValue(n / 10);
      var t := NatText(n);
      assert t[..|t| - 1] == NatText(n / 10);
      assert DigitChar(n % 10) as int - '0' as int == n % 10;
    }
  }

  function IntText(i: int): string {
    if i < 0 then "-" + NatText(-i) else NatText(i)
  }

  function SegmentText(seg: Segment): string {
    match seg
    case Key(name) => name
    case Index(i) => NatText(i)
  }

  function SegmentTexts(path: seq<Segment>): (r: seq<string>)
    ensures |r| == |path|
    ensures forall k :: 0 <= k < |path| ==> r[k] == SegmentText(path[k])
  {
    if path == [] then [] else [SegmentText(path[0])] + SegmentTexts(path[1..])
  }

  /** `issue.path.join(".")`. */
  function PathText(path: seq<Segment>): string {
    Strings.Join(SegmentTexts(path), ".")
  }

  // Messages zod produces when the schema gives none.

  function InvalidType(expected: string, got: Option<Value>): string {
    "Invalid input: expected " + expected + ", received " + TypeName(got)
  }

  function TooSmallNumber(min: int): string {
    "Too small: expected number to be >=" + IntText(min)
  }

  function TooBigNumber(max: int): string {
    "Too big: expected number to be <=" + IntText(max)
  }

  function TooSmallArray(min: nat): string {
    "Too small: expected array to have >=" + NatText(min) + " items"
  }

  function Quoted(options: seq<string>): seq<string> {
    if options == [] then [] else ["\"" + options[0] + "\""] + Quoted(options[1..])
  }

  function InvalidOption(options: seq<string>): string {
    "Invalid option: expected one of " + Strings.Join(Quoted(options), "|")
  }

  const InvalidEmailAddress := "Invalid email address"

  /** The largest integer `z.number().int()` accepts (`Number.MAX_SAFE_INTEGER`). */
  const MaxSafeInteger: int := 9007199254740991

  // Checks. Each receives the property value (`None` when it is absent) and reports issues
  // with paths relative to it.

  function Fail<T>(message: string): Checked<T> {
    Err([Issue([], message)])
  }

  /** `z.string()`. */
  function CheckString(v: Option<Value>): (r: Checked<string>)
    ensures r.Ok? <==> v.Some? && v.value.Str?
    ensures r.Ok? ==> r.value == v.value.s
  {
    if v.Some? && v.value.Str? then Ok(v.value.s) else Fail(InvalidType("string", v))
  }

  /** `z.string().min(min, message)`: the length is counted in characters. */
  function CheckMinLength(v: Option<Value>, min: nat, message: string): (r: Checked<string>)
    ensures r.Ok? <==> v.Some? && v.value.Str? && |v.value.s| >= min
    ensures r.Ok? ==> r.value == v.value.s
  {
    if !(v.Some? && v.value.Str?) then Fail(InvalidType("string", v))
    else if |v.value.s| < min then Fail(message)
    else Ok(v.value.s)
  }

  /** `z.string().email(message)`; the address syntax itself is the predicate `isEmail`. */
  function CheckEmail(v: Option<Value>, isEmail: string -> bool, message: string): (r: Checked<string>)
    ensures r.Ok? <==> v.Some? && v.value.Str? && isEmail(v.value.s)
    ensures r.Ok? ==> r.value == v.value.s
    ensures v.Some? && v.value.Str? && !isEmail(v.value.s) ==> r == Err([Issue([], message)])
  {
    if !(v.Some? && v.value.Str?) then Fail(InvalidType("string", v))
    else if !isEmail(v.value.s) then Fail(message)
    else Ok(v.value.s)
  }

  /** `z.boolean()`. */
  function CheckBoolean(v: Option<Value>): (r: Checked<bool>)
    ensures r.Ok? <==> v.Some? && v.value.Bool?
    ensures r.Ok? ==> r.value == v.value.b
  {
    if v.Some? && v.value.Bool? then Ok(v.value.b) else Fail(InvalidType("boolean", v))
  }

  /** `z.date()`: a `Date` object, represented by its time value. */
  function CheckDate(v: Option<Value>): (r: Checked<int>)
    ensures r.Ok? <==> v.Some? && v.value.Date?
    ensures r.Ok? ==> r.value == v.value.time
  {
    if v.Some? && v.value.Date? then Ok(v.value.time) else Fail(InvalidType("date", v))
  }

  /** `z.enum(options)`: one of the listed strings, nothing else. */
  function CheckEnum(v: Option<Value>, options: seq<string>): (r: Checked<string>)
    ensures r.Ok? <==> v.Some? && v.value.Str? && v.value.s in options
    ensures r.Ok? ==> r.value == v.value.s
  {
    if v.Some? && v.value.Str? && v.value.s in options then Ok(v.value.s)
    else Fail(InvalidOption(options))
  }

  /** `.optional()`: an absent value passes as `None`, a present one goes through `check`. */
  function Optional<T>(v: Option<Value>, check: Option<Value> -> Checked<T>): (r: Checked<Option<T>>)
    ensures v.None? ==> r == Ok(None)
    ensures v.Some? ==> (r.Ok? <==> check(v).Ok?)
    ensures v.Some? && r.Ok? ==> r.value == Some(check(v).value)
    ensures v.Some? && r.Err? ==> r.error == check(v).error
  {
    if v.None? then Ok(None)
    else match check(v)
      case Ok(x) => Ok(Some(x))
      case Err(e) => Err(e)
  }

  /** `z.number().int().min(lo)` with an optional `.max(hi)` and `.default(default)`: an absent
      value becomes `default`; otherwise the value must be a safe integer in range. Only the
      first failing check is reported (see the README's "Left out"). */
  function CheckIntInRange(v: Option<Value>, lo: int, hi: int, default: int): (r: Checked<int>)
    ensures v.None? ==> r == Ok(default)
    ensures v.Some? ==> (r.Ok? <==>
      v.value.Num? && IsInteger(v.value.n) && lo as real <= v.value.n <= hi as real
      && -MaxSafeInteger as real <= v.value.n <= MaxSafeInteger as real)
    ensures v.Some? && r.Ok? ==> r.value as real == v.value.n
  {
    if v.None? then Ok(default)
    else if !v.value.Num? then Fail(InvalidType("number", v))
    else
      var n := v.value.n;
      if !IsInteger(n) then Fail(InvalidType("int", v))
      else if n < -MaxSafeInteger as real then Fail("Too small: expected int to be >=" + IntText(-MaxSafeInteger))
      else if n > MaxSafeInteger as real then Fail("Too big: expected int to be <=" + IntText(MaxSafeInteger))
      else if n < lo as real then Fail(TooSmallNumber(lo))
      else if n > hi as real then Fail(TooBigNumber(hi))
      else Ok(n.Floor)
  }

  /** The element issues of `z.array(z.string())`, with their indexes counted from `offset`. */
  function StringItemIssues(items: seq<Value>, offset: nat): (r: seq<Issue>)
    ensures r == [] <==> forall k :: 0 <= k < |items| ==> items[k].Str?
  {
    if items == [] then []
    else
      (if items[0].Str? then [] else [Issue([Index(offset)], InvalidType("string", Some(items[0])))])
      + StringItemIssues(items[1..], offset + 1)
  }

  function Strs(items: seq<Value>): (r: seq<string>)
    requires forall k :: 0 <= k < |items| ==> items[k].Str?
    ensures |r| == |items| && forall k :: 0 <= k < |items| ==> r[k] == items[k].s
  {
    if items == [] then [] else [items[0].s] + Strs(items[1..])
  }

  /** `z.array(z.string()).min(min)`. */
  function CheckStringArray(v: Option<Value>, min: nat): (r: Checked<seq<string>>)
    ensures r.Ok? <==> v.Some? && v.value.Arr? && |v.value.items| >= min
                       && forall k :: 0 <= k < |v.value.items| ==> v.value.items[k].Str?
    ensures r.Ok? ==> |r.value| == |v.value.items|
                      && forall k :: 0 <= k < |r.value| ==> Str(r.value[k]) == v.value.items[k]
  {
    if !(v.Some? && v.value.Arr?) then Fail(InvalidType("array", v))
    else
      var issues := StringItemIssues(v.value.items, 0);
      if issues != [] then Err(issues)
      else if |v.value.items| < min then Fail(TooSmallArray(min))
      else Ok(Strs(v.value.items))
  }

  /** The value issues of `z.record(z.string(), z.string())`: one per non-string value, at its key. */
  function RecordIssues(fields: seq<(string, Value)>): (r: seq<Issue>)
    ensures r == [] <==> forall k :: 0 <= k < |fields| ==> fields[k].1.Str?
  {
    if fields == [] then []
    else
      (if fields[0].1.Str? then [] else [Issue([Key(fields[0].0)], InvalidType("string", Some(fields[0].1)))])
      + RecordIssues(fields[1..])
  }

  function StringEntries(fields: seq<(string, Value)>): (r: seq<(string, string)>)
    requires forall k :: 0 <= k < |fields| ==> fields[k].1.Str?
    ensures |r| == |fields|
    ensures forall k :: 0 <= k < |fields| ==> r[k] == (fields[k].0, fields[k].1.s)
  {
    if fields == [] then [] else [(fields[0].0, fields[0].1.s)] + StringEntries(fields[1..])
  }

  /** `z.record(z.string(), z.string())`: a plain object whose every value is a string; the
      entries keep their order. */
  function CheckStringRecord(v: Option<Value>): (r: Checked<seq<(string, string)>>)
    ensures r.Ok? <==> v.Some? && v.value.Obj? && forall k :: 0 <= k < |v.value.fields| ==> v.value.fields[k].1.Str?
    ensures r.Ok? ==> r.value == StringEntries(v.value.fields)
  {
    if !(v.Some? && v.value.Obj?) then Fail(InvalidType("record", v))
    else
      var issues := RecordIssues(v.value.fields);
      if issues != [] then Err(issues) else Ok(StringEntries(v.value.fields))
  }

  /** A non-string value in a record is reported at its key. */
  lemma {:induction false} RecordIssuesAt(fields: seq<(string, Value)>, j: nat)
    requires j < |fields| && !fields[j].1.Str?
    ensures Issue([Key(fields[j].0)], InvalidType("string", Some(fields[j].1))) in RecordIssues(fields)
  {
    if j > 0 {
      RecordIssuesAt(fields[1..], j - 1);
      assert fields[1..][j - 1] == fields[j];
    }
  }

  /** A string-to-string record as a JavaScript object. */
  function RecordValue(entries: seq<(string, string)>): (r: seq<(string, Value)>)
    ensures |r| == |entries|
    ensures forall k :: 0 <= k < |entries| ==> r[k] == (entries[k].0, Str(entries[k].1))
  {
    if entries == [] then [] else [(entries[0].0, Str(entries[0].1))] + RecordValue(entries[1..])
  }

  /** A record written out as an object reads back as the same record. */
  lemma RecordRoundTrip(entries: seq<(string, string)>)
    ensures CheckStringRecord(Some(Obj(RecordValue(entries)))) == Ok(entries)
  {
    var fields := RecordValue(entries);
    assert forall k :: 0 <= k < |fields| ==> fields[k].1.Str?;
    var back := StringEntries(fields);
    assert forall k :: 0 <= k < |entries| ==> back[k] == entries[k];
    assert back == entries;
  }

  // `flattenError`: messages of issues without a path go to `formErrors`, the others are
  // grouped under the first segment of their path in `fieldErrors`, each list in issue order
  // and the groups in the order their keys first appear.

  function FormErrors(issues: seq<Issue>): seq<string> {
    if issues == [] then []
    else (if issues[0].path == [] then [issues[0].message] else []) + FormErrors(issues[1..])
  }

  /** An object of message lists, as an association list in property order. */
  type Groups = seq<(string, seq<string>)>

  function Lookup(groups: Groups, key: string): (r: Option<seq<string>>)
    ensures r.None? <==> forall k :: 0 <= k < |groups| ==> groups[k].0 != key
  {
    if groups == [] then None
    else if groups[0].0 == key then Some(groups[0].1)
    else Lookup(groups[1..], key)
  }

  /** `fieldErrors[key] ??= []; fieldErrors[key].push(message)`. */
  function AddMessage(groups: Groups, key: string, message: string): (r: Groups)
    ensures Lookup(r, key) == Some((if Lookup(groups, key).Some? then Lookup(groups, key).value else []) + [message])
    ensures forall other :: other != key ==> Lookup(r, other) == Lookup(groups, other)
  {
    if groups == [] then
      var r := [(key, [message])];
      assert forall other :: other != key ==> Lookup(r, other) == Lookup(r[1..], other);
      assert [] + [message] == [message];
      r
    else if groups[0].0 == key then [(key, groups[0].1 + [message])] + groups[1..]
    else [groups[0]] + AddMessage(groups[1..], key, message)
  }

  function FieldErrorsInto(acc: Groups, issues: seq<Issue>): Groups
    decreases |issues|
  {
    if issues == [] then acc
    else
      var next := if issues[0].path == [] then acc
                  else AddMessage(acc, SegmentText(issues[0].path[0]), issues[0].message);
      FieldErrorsInto(next, issues[1..])
  }

  function FieldErrors(issues: seq<Issue>): Groups {
    FieldErrorsInto([], issues)
  }

  datatype Flattened = Flattened(formErrors: seq<string>, fieldErrors: Groups)

  function Flatten(issues: seq<Issue>): Flattened {
    Flattened(FormErrors(issues), FieldErrors(issues))
  }

  /** A message already grouped under a key stays there as more issues are added. */
  lemma {:induction false} FieldErrorsKeep(acc: Groups, issues: seq<Issue>, key: string, m: string)
    requires Lookup(acc, key).Some? && m in Lookup(acc, key).value
    ensures Lookup(FieldErrorsInto(acc, issues), key).Some? && m in Lookup(FieldErrorsInto(acc, issues), key).value
    decreases |issues|
  {
    if issues != [] {
      var next := if issues[0].path == [] then acc
                  else AddMessage(acc, SegmentText(issues[0].path[0]), issues[0].message);
      FieldErrorsKeep(next, issues[1..], key, m);
    }
  }

  lemma {:induction false} FieldErrorsHas(acc: Groups, issues: seq<Issue>, j: nat)
    requires j < |issues| && issues[j].path != []
    ensures var key := SegmentText(issues[j].path[0]);
      Lookup(FieldErrorsInto(acc, issues), key).Some? && issues[j].message in Lookup(FieldErrorsInto(acc, issues), key).value
    decreases |issues|
  {
    var next := if issues[0].path == [] then acc
                else AddMessage(acc, SegmentText(issues[0].path[0]), issues[0].message);
    if j == 0 {
      FieldErrorsKeep(next, issues[1..], SegmentText(issues[0].path[0]), issues[0].message);
    } else {
      FieldErrorsHas(next, issues[1..], j - 1);
      assert issues[1..][j - 1] == issues[j];
    }
  }

  lemma {:induction false} FormErrorsHas(issues: seq<Issue>, j: nat)
    requires j < |issues| && issues[j].path == []
    ensures issues[j].message in FormErrors(issues)
  {
    if j > 0 {
      FormErrorsHas(issues[1..], j - 1);
      assert issues[1..][j - 1] == issues[j];
    }
  }

  /** Every issue's message is kept by `flattenError`: one with an empty path among the form
      errors, any other among the field errors of its first path segment. */
  lemma FlattenKeepsEveryMessage(issues: seq<Issue>, j: nat)
    requires j < |issues|
    ensures issues[j].path == [] ==> issues[j].message in Flatten(issues).formErrors
    ensures issues[j].path != [] ==>
      var group := Lookup(Flatten(issues).fieldErrors, SegmentText(issues[j].path[0]));
      group.Some? && issues[j].message in group.value
  {
    if issues[j].path == [] {
      FormErrorsHas(issues, j);
    } else {
      FieldErrorsHas([], issues, j);
    }
  }

  /** `fieldErrors` has a group exactly for the first segments of the issues that have a path. */
  lemma {:induction false} FieldErrorKeys(acc: Groups, issues: seq<Issue>, key: string)
    ensures Lookup(FieldErrorsInto(acc, issues), key).Some? <==>
      Lookup(acc, key).Some? ||
      exists j :: 0 <= j < |issues| && issues[j].path != [] && SegmentText(issues[j].path[0]) == key
    decreases |issues|
  {
    if issues != [] {
      var next := if issues[0].path == [] then acc
                  else AddMessage(acc, SegmentText(issues[0].path[0]), issues[0].message);
      FieldErrorKeys(next, issues[1..], key);
      if exists j :: 0 <= j < |issues[1..]| && issues[1..][j].path != [] && SegmentText(issues[1..][j].path[0]) == key {
        var j :| 0 <= j < |issues[1..]| && issues[1..][j].path != [] && SegmentText(issues[1..][j].path[0]) == key;
        assert issues[j + 1] == issues[1..][j];
      }
      if exists j :: 0 <= j < |issues| && issues[j].path != [] && SegmentText(issues[j].path[0]) == key {
        var j :| 0 <= j < |issues| && issues[j].path != [] && SegmentText(issues[j].path[0]) == key;
        if j > 0 {
          assert issues[1..][j - 1] == issues[j];
        }
      }
    }
  }
}
