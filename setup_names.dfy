/** The naming helpers of the first-time setup script: `sanitizeResourceName`, the resource
    names derived from a project name, and `generateSecureRandomString`, whose random bytes
    are an input. */
module SetupNames {
  import opened Strings

  /** `toLowerCase` on the letters A to Z. */
  function LowerChar(c: char): (r: char)
    ensures 'A' <= c <= 'Z' ==> r == (c as int + 32) as char
    ensures !('A' <= c <= 'Z') ==> r == c
  {
    if 'A' <= c <= 'Z' then (c as int + 32) as char else c
  }

  function ToLower(s: string): (r: string)
    ensures |r| == |s| && forall k :: 0 <= k < |s| ==> r[k] == LowerChar(s[k])
  {
    if s == [] then [] else [LowerChar(s[0])] + ToLower(s[1..])
  }

  /** `replace(/\s+/g, "-")` read left to right: the first white-space character of each
      maximal run becomes `-` and the rest of the run is dropped. `inRun` says whether the
      character before `s` was white space. */
  function Collapse(s: string, inRun: bool): string {
    if s == [] then [] else Emitted(s[0], inRun) + Collapse(s[1..], IsJsSpace(s[0]))
  }

  /** What one character turns into. */
  function Emitted(c: char, inRun: bool): string {
    if !IsJsSpace(c) then [c] else if inRun then [] else "-"
  }

  function CollapseSpaces(s: string): string {
    Collapse(s, false)
  }

  /** The characters a resource name may keep. */
  predicate Allowed(c: char) {
    ('a' <= c <= 'z') || ('0' <= c <= '9') || c == '-'
  }

  predicate AllAllowed(s: string) {
    forall k :: 0 <= k < |s| ==> Allowed(s[k])
  }

  /** `replace(/[^a-z0-9-]/g, "")`: the allowed characters, in order. */
  function KeepAllowed(s: string): (r: string)
    ensures AllAllowed(r) && |r| <= |s|
    ensures forall k :: 0 <= k < |r| ==> r[k] in s
  {
    if s == [] then []
    else (if Allowed(s[0]) then [s[0]] else []) + KeepAllowed(s[1..])
  }

  function SanitizeResourceName(name: string): string {
    KeepAllowed(CollapseSpaces(ToLower(name)))
  }

  // Facts about the three steps.

  lemma {:induction false} KeepAllowedKeeps(s: string)
    requires AllAllowed(s)
    ensures KeepAllowed(s) == s
  {
    if s != [] {
      KeepAllowedKeeps(s[1..]);
    }
  }

  lemma {:induction false} KeepAllowedConcat(a: string, b: string)
    ensures KeepAllowed(a + b) == KeepAllowed(a) + KeepAllowed(b)
  {
    if a != [] {
      assert (a + b)[0] == a[0];
      assert (a + b)[1..] == a[1..] + b;
      KeepAllowedConcat(a[1..], b);
    } else {
      assert a + b == b;
    }
  }

  lemma {:induction false} CollapseKeeps(s: string)
    requires forall k :: 0 <= k < |s| ==> !IsJsSpace(s[k])
    ensures CollapseSpaces(s) == s
  {
    if s != [] {
      CollapseKeeps(s[1..]);
    }
  }

  lemma {:induction false} ToLowerKeeps(s: string)
    requires AllAllowed(s)
    ensures ToLower(s) == s
  {
  }

  lemma ToLowerConcat(a: string, b: string)
    ensures ToLower(a + b) == ToLower(a) + ToLower(b)
  {
    var l, r := ToLower(a + b), ToLower(a) + ToLower(b);
    assert |l| == |r|;
    forall k | 0 <= k < |l| ensures l[k] == r[k] {
      if k < |a| {
        assert (a + b)[k] == a[k];
      } else {
        assert (a + b)[k] == b[k - |a|];
      }
    }
  }

  /** The state `Collapse` is in after reading `a`. */
  function RunAfter(a: string, inRun: bool): bool {
    if a == [] then inRun else RunAfter(a[1..], IsJsSpace(a[0]))
  }

  /** After a non-empty string, the state is whether its last character is white space. */
  lemma {:induction false} RunAfterLast(a: string, inRun: bool)
    requires a != []
    ensures RunAfter(a, inRun) == IsJsSpace(a[|a| - 1])
  {
    if |a| > 1 {
      RunAfterLast(a[1..], IsJsSpace(a[0]));
      assert a[1..][|a[1..]| - 1] == a[|a| - 1];
    }
  }

  /** Collapsing a concatenation collapses the second part in the state the first left. */
  lemma {:induction false} CollapseConcat(a: string, b: string, inRun: bool)
    ensures Collapse(a + b, inRun) == Collapse(a, inRun) + Collapse(b, RunAfter(a, inRun))
  {
    if a == [] {
      assert a + b == b;
    } else {
      assert (a + b)[0] == a[0];
      assert (a + b)[1..] == a[1..] + b;
      CollapseConcat(a[1..], b, IsJsSpace(a[0]));
    }
  }

  /** Inside a run, more white space adds nothing. */
  lemma {:induction false} CollapseInRun(w: string)
    requires AllSpace(w)
    ensures Collapse(w, true) == []
  {
    if w != [] {
      assert AllSpace(w[1..]) by {
        assert forall k :: 0 <= k < |w[1..]| ==> w[1..][k] == w[k + 1];
      }
      CollapseInRun(w[1..]);
    }
  }

  /** A non-empty run of white space alone collapses to one dash. */
  lemma CollapseRun(w: string)
    requires w != [] && AllSpace(w)
    ensures CollapseSpaces(w) == "-"
  {
    assert AllSpace(w[1..]) by {
      assert forall k :: 0 <= k < |w[1..]| ==> w[1..][k] == w[k + 1];
    }
    CollapseInRun(w[1..]);
  }

  /** No white space is left after collapsing. */
  lemma {:induction false} CollapseLeavesNoSpace(s: string, inRun: bool)
    ensures forall k :: 0 <= k < |Collapse(s, inRun)| ==> !IsJsSpace(Collapse(s, inRun)[k])
  {
    if s != [] {
      CollapseLeavesNoSpace(s[1..], IsJsSpace(s[0]));
    }
  }

  /** A run of white space between two parts that do not touch it collapses to one dash. */
  lemma CollapseBetween(a: string, w: string, b: string)
    requires w != [] && AllSpace(w)
    requires a == [] || !IsJsSpace(a[|a| - 1])
    requires b == [] || !IsJsSpace(b[0])
    ensures CollapseSpaces(a + w + b) == CollapseSpaces(a) + "-" + CollapseSpaces(b)
  {
    CollapseConcat(a + w, b, false);
    CollapseConcat(a, w, false);
    RunAfterLast(a + w, false);
    assert (a + w)[|a + w| - 1] == w[|w| - 1];
    if a != [] {
      RunAfterLast(a, false);
    }
    CollapseRun(w);
    if b != [] {
      assert Collapse(b, true) == Collapse(b, false);
    }
  }

  /** `toLowerCase` keeps white space where it is. */
  lemma LowerEnds(s: string)
    ensures s != [] ==> (IsJsSpace(ToLower(s)[0]) <==> IsJsSpace(s[0]))
    ensures s != [] ==> (IsJsSpace(ToLower(s)[|s| - 1]) <==> IsJsSpace(s[|s| - 1]))
    ensures AllSpace(s) ==> AllSpace(ToLower(s))
  {
  }

  // What the setup script relies on.

  /** A sanitized name holds only `a`-`z`, `0`-`9` and `-`. */
  lemma SanitizedChars(name: string)
    ensures AllAllowed(SanitizeResourceName(name))
  {
  }

  /** Sanitizing a sanitized name changes nothing, so sanitizing the prompted name again
      before use is harmless. */
  lemma SanitizeIdempotent(name: string)
    ensures SanitizeResourceName(SanitizeResourceName(name)) == SanitizeResourceName(name)
  {
    SanitizeKeeps(SanitizeResourceName(name));
  }

  /** A maximal run of white space between two parts of a name becomes a single dash. */
  lemma SanitizeRun(a: string, w: string, b: string)
    requires w != [] && AllSpace(w)
    requires a == [] || !IsJsSpace(a[|a| - 1])
    requires b == [] || !IsJsSpace(b[0])
    ensures SanitizeResourceName(a + w + b) == SanitizeResourceName(a) + "-" + SanitizeResourceName(b)
  {
    ToLowerConcat(a + w, b);
    ToLowerConcat(a, w);
    var la, lw, lb := ToLower(a), ToLower(w), ToLower(b);
    assert ToLower(a + w + b) == la + lw + lb;
    LowerEnds(a);
    LowerEnds(w);
    LowerEnds(b);
    CollapseBetween(la, lw, lb);
    var ca, cb := CollapseSpaces(la), CollapseSpaces(lb);
    KeepAllowedConcat(ca + "-", cb);
    KeepAllowedConcat(ca, "-");
    assert KeepAllowed("-") == "-";
  }

  /** A string made of allowed characters is its own sanitized form. */
  lemma SanitizeKeeps(s: string)
    requires AllAllowed(s)
    ensures SanitizeResourceName(s) == s
  {
    ToLowerKeeps(s);
    CollapseKeeps(s);
    KeepAllowedKeeps(s);
  }

  // Resource names.

  datatype ResourceNames = ResourceNames(db: string, bucket: string, kv: string, workflow: string)

  /** `${projectName}-db`, `-bucket`, `-kv` and `-example-workflow`. */
  function NamesFor(projectName: string): (r: ResourceNames)
    ensures StartsWith(r.db, projectName + "-") && StartsWith(r.bucket, projectName + "-")
    ensures StartsWith(r.kv, projectName + "-") && StartsWith(r.workflow, projectName + "-")
  {
    ResourceNames(projectName + "-db", projectName + "-bucket", projectName + "-kv",
                  projectName + "-example-workflow")
  }

  /** The four names differ from each other. */
  lemma NamesDistinct(projectName: string)
    ensures var r := NamesFor(projectName);
      r.db != r.bucket && r.db != r.kv && r.db != r.workflow
      && r.bucket != r.kv && r.bucket != r.workflow && r.kv != r.workflow
  {
    var r := NamesFor(projectName);
    var n := |projectName| + 1;
    assert r.db[n] == 'd' && r.bucket[n] == 'b' && r.kv[n] == 'k' && r.workflow[n] == 'e';
  }

  lemma AllowedConcat(a: string, b: string)
    requires AllAllowed(a) && AllAllowed(b)
    ensures AllAllowed(a + b)
  {
  }

  /** The names derived from a sanitized project name are themselves sanitized. */
  lemma NamesSanitized(name: string)
    ensures var r := NamesFor(SanitizeResourceName(name));
      SanitizeResourceName(r.db) == r.db && SanitizeResourceName(r.bucket) == r.bucket
      && SanitizeResourceName(r.kv) == r.kv && SanitizeResourceName(r.workflow) == r.workflow
  {
    var p := SanitizeResourceName(name);
    AllowedConcat(p, "-db");
    AllowedConcat(p, "-bucket");
    AllowedConcat(p, "-kv");
    AllowedConcat(p, "-example-workflow");
    SanitizeKeeps(p + "-db");
    SanitizeKeeps(p + "-bucket");
    SanitizeKeeps(p + "-kv");
    SanitizeKeeps(p + "-example-workflow");
  }

  // Random strings.

  newtype byte = x: int | 0 <= x < 256

  const HexDigits: string := "0123456789abcdef"

  predicate IsLowerHex(c: char) {
    ('0' <= c <= '9') || ('a' <= c <= 'f')
  }

  /** `Buffer.toString("hex")`: two lower-case digits per byte, high nibble first. */
  function Hex(bytes: seq<byte>): (r: string)
    ensures |r| == 2 * |bytes|
    ensures forall k :: 0 <= k < |r| ==> IsLowerHex(r[k])
  {
    if bytes == [] then []
    else [HexDigits[bytes[0] / 16], HexDigits[bytes[0] % 16]] + Hex(bytes[1..])
  }

  function HexValue(c: char): (r: nat)
    requires IsLowerHex(c)
    ensures r < 16 && HexDigits[r] == c
  {
    if c <= '9' then c as int - '0' as int else c as int - 'a' as int + 10
  }

  /** Reads hex text back into bytes. */
  function ParseHex(s: string): seq<byte>
    requires |s| % 2 == 0 && forall k :: 0 <= k < |s| ==> IsLowerHex(s[k])
  {
    if s == [] then [] else [(HexValue(s[0]) * 16 + HexValue(s[1])) as byte] + ParseHex(s[2..])
  }

  lemma HexValueOf(d: nat)
    requires d < 16
    ensures HexValue(HexDigits[d]) == d
  {
  }

  lemma {:induction false} HexRoundTrip(bytes: seq<byte>)
    ensures ParseHex(Hex(bytes)) == bytes
  {
    if bytes != [] {
      var h := Hex(bytes);
      HexValueOf(bytes[0] as int / 16);
      HexValueOf(bytes[0] as int % 16);
      assert h[2..] == Hex(bytes[1..]);
      HexRoundTrip(bytes[1..]);
    }
  }

  /** `generateSecureRandomString(length)`: the hex text of `ceil(length / 2)` random bytes,
      cut to `length` characters. */
  function SecureRandomString(bytes: seq<byte>, length: nat): (r: string)
    requires |bytes| == (length + 1) / 2
    ensures |r| == length && forall k :: 0 <= k < |r| ==> IsLowerHex(r[k])
  {
    Hex(bytes)[..length]
  }

  /** For an even length nothing of the random bytes is lost: the string reads back as them. */
  lemma RandomStringKeepsBytes(bytes: seq<byte>, length: nat)
    requires |bytes| == (length + 1) / 2 && length % 2 == 0
    ensures ParseHex(SecureRandomString(bytes, length)) == bytes
  {
    assert Hex(bytes)[..length] == Hex(bytes);
    HexRoundTrip(bytes);
  }

  /** The authentication secret has 32 hex characters, so it meets the environment schema's
      minimum length of 32. */
  lemma SecretMeetsMinimum(bytes: seq<byte>)
    requires |bytes| == 16
    ensures |SecureRandomString(bytes, 32)| >= 32
    ensures ParseHex(SecureRandomString(bytes, 32)) == bytes
  {
    RandomStringKeepsBytes(bytes, 32);
  }
}
