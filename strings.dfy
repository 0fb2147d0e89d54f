/** The JavaScript string operations the core relies on: `trim`, `startsWith`, `endsWith`,
    `includes`, `indexOf`, `split`, `join`, and `replace` with a global literal pattern. */
module Strings {
  import opened Wrappers

  /** The code points JavaScript counts as WhiteSpace or LineTerminator: what the regular
      expression class `\s` matches and what `String.prototype.trim` removes. */
  predicate IsJsSpace(c: char) {
    c == '\t' || c == '\n' || c == '\U{0B}' || c == '\U{0C}' || c == '\r' || c == ' ' ||
    c == '\U{A0}' || c == '\U{1680}' || ('\U{2000}' <= c <= '\U{200A}') ||
    c == '\U{2028}' || c == '\U{2029}' || c == '\U{202F}' || c == '\U{205F}' ||
    c == '\U{3000}' || c == '\U{FEFF}'
  }

  predicate AllSpace(s: string) {
    forall k :: 0 <= k < |s| ==> IsJsSpace(s[k])
  }

  /** `trimStart`. Its properties are stated by `TrimStartShape`, so that a caller that only
      compares trimmed strings does not pay for them. */
  function TrimStart(s: string): string {
    if s != [] && IsJsSpace(s[0]) then TrimStart(s[1..]) else s
  }

  /** `trimEnd`; see `TrimEndShape`. */
  function TrimEnd(s: string): string {
    if s != [] && IsJsSpace(s[|s| - 1]) then TrimEnd(s[..|s| - 1]) else s
  }

  /** `trim`; see `TrimShape`. */
  function Trim(s: string): string {
    TrimEnd(TrimStart(s))
  }

  /** `trimStart` drops the leading white space and nothing else. */
  lemma {:induction false} TrimStartShape(s: string)
    ensures |TrimStart(s)| <= |s| && TrimStart(s) == s[|s| - |TrimStart(s)|..]
    ensures forall k :: 0 <= k < |s| - |TrimStart(s)| ==> IsJsSpace(s[k])
    ensures TrimStart(s) == [] || !IsJsSpace(TrimStart(s)[0])
  {
    if s != [] && IsJsSpace(s[0]) {
      var t := s[1..];
      TrimStartShape(t);
      var r := TrimStart(t);
      assert TrimStart(s) == r;
      assert t[|t| - |r|..] == s[|s| - |r|..];
      forall k | 1 <= k < |s| - |r| ensures IsJsSpace(s[k]) {
        assert s[k] == t[k - 1];
      }
    }
  }

  /** `trimEnd` drops the trailing white space and nothing else. */
  lemma {:induction false} TrimEndShape(s: string)
    ensures |TrimEnd(s)| <= |s| && TrimEnd(s) == s[..|TrimEnd(s)|]
    ensures forall k :: |TrimEnd(s)| <= k < |s| ==> IsJsSpace(s[k])
    ensures TrimEnd(s) == [] || !IsJsSpace(TrimEnd(s)[|TrimEnd(s)| - 1])
  {
    if s != [] && IsJsSpace(s[|s| - 1]) {
      var t := s[..|s| - 1];
      TrimEndShape(t);
      var r := TrimEnd(t);
      assert TrimEnd(s) == r;
      assert t[..|r|] == s[..|r|];
      forall k | |r| <= k < |s| - 1 ensures IsJsSpace(s[k]) {
        assert s[k] == t[k];
      }
    }
  }

  /** `trim` leaves a piece of `s` that neither starts nor ends with white space. */
  lemma TrimShape(s: string)
    ensures exists i, j :: 0 <= i <= j <= |s| && Trim(s) == s[i..j]
    ensures Trim(s) == [] || (!IsJsSpace(Trim(s)[0]) && !IsJsSpace(Trim(s)[|Trim(s)| - 1]))
  {
    var t := TrimStart(s);
    TrimStartShape(s);
    TrimEndShape(t);
    var i := |s| - |t|;
    var j := i + |TrimEnd(t)|;
    assert Trim(s) == s[i..j];
    if Trim(s) != [] {
      assert Trim(s)[0] == t[0];
    }
  }

  /** Trimming twice is trimming once. */
  lemma TrimIdempotent(s: string)
    ensures Trim(Trim(s)) == Trim(s)
  {
    TrimShape(s);
  }

  lemma {:induction false} TrimStartAllSpace(s: string)
    requires AllSpace(s)
    ensures TrimStart(s) == []
  {
    if s != [] {
      assert IsJsSpace(s[0]);
      TrimStartAllSpace(s[1..]);
    }
  }

  lemma AllSpaceConcat(a: string, b: string)
    ensures AllSpace(a + b) <==> AllSpace(a) && AllSpace(b)
  {
    if AllSpace(a) && AllSpace(b) {
      forall k | 0 <= k < |a + b| ensures IsJsSpace((a + b)[k]) {
        if k < |a| { assert (a + b)[k] == a[k]; } else { assert (a + b)[k] == b[k - |a|]; }
      }
    }
    if AllSpace(a + b) {
      forall k | 0 <= k < |a| ensures IsJsSpace(a[k]) { assert (a + b)[k] == a[k]; }
      forall k | 0 <= k < |b| ensures IsJsSpace(b[k]) { assert (a + b)[|a| + k] == b[k]; }
    }
  }

  /** Only strings made entirely of white space trim to the empty string. */
  lemma TrimEmptyIffAllSpace(s: string)
    ensures Trim(s) == [] <==> AllSpace(s)
  {
    var t := TrimStart(s);
    TrimStartShape(s);
    TrimEndShape(t);
    if AllSpace(s) {
      TrimStartAllSpace(s);
    }
    if Trim(s) == [] {
      assert t[0..] == t;
      AllSpaceConcat(s[..|s| - |t|], t);
      assert s == s[..|s| - |t|] + t;
    }
  }

  predicate StartsWith(s: string, p: string) {
    |p| <= |s| && s[..|p|] == p
  }

  predicate EndsWith(s: string, p: string) {
    |p| <= |s| && s[|s| - |p|..] == p
  }

  predicate OccursAt(s: string, p: string, k: nat) {
    k + |p| <= |s| && s[k..k + |p|] == p
  }

  /** The first position at or after `i` where `p` occurs in `s`. */
  function IndexFrom(s: string, p: string, i: nat): (r: Option<nat>)
    requires i <= |s|
    ensures r.Some? ==> i <= r.value && OccursAt(s, p, r.value)
    decreases |s| - i
  {
    if i + |p| > |s| then None
    else if s[i..i + |p|] == p then Some(i)
    else IndexFrom(s, p, i + 1)
  }

  /** `IndexFrom` finds the first occurrence: none lies between `i` and the answer, and when
      there is no answer there is no occurrence at all. */
  lemma {:induction false} IndexFromFirst(s: string, p: string, i: nat, k: nat)
    requires i <= k <= |s|
    requires IndexFrom(s, p, i).Some? ==> k < IndexFrom(s, p, i).value
    ensures !OccursAt(s, p, k)
    decreases |s| - i
  {
    if i + |p| > |s| {
    } else if s[i..i + |p|] == p {
    } else if i < k {
      IndexFromFirst(s, p, i + 1, k);
    }
  }

  /** `indexOf`: the leftmost occurrence of `p` in `s`. */
  function IndexOf(s: string, p: string): (r: Option<nat>)
    ensures r.Some? ==> OccursAt(s, p, r.value)
  {
    IndexFrom(s, p, 0)
  }

  /** `includes`. */
  predicate Contains(s: string, p: string) {
    IndexOf(s, p).Some?
  }

  lemma OccursContains(s: string, p: string, k: nat)
    requires OccursAt(s, p, k)
    ensures Contains(s, p)
  {
    if IndexOf(s, p).None? {
      IndexFromFirst(s, p, 0, k);
    }
  }

  /** `split` with a non-empty literal separator. */
  function Split(s: string, sep: string): (r: seq<string>)
    requires |sep| > 0
    ensures |r| >= 1
    decreases |s|
  {
    if IndexOf(s, sep).None? then [s]
    else
      var i := IndexOf(s, sep).value;
      [s[..i]] + Split(s[i + |sep|..], sep)
  }

  /** `join`. */
  function Join(parts: seq<string>, sep: string): string {
    if |parts| == 0 then ""
    else if |parts| == 1 then parts[0]
    else parts[0] + sep + Join(parts[1..], sep)
  }

  lemma SplitUnfold(s: string, sep: string, i: nat)
    requires |sep| > 0 && IndexOf(s, sep) == Some(i)
    ensures Split(s, sep) == [s[..i]] + Split(s[i + |sep|..], sep)
  {
  }

  lemma JoinCons(a: string, rest: seq<string>, sep: string)
    requires |rest| >= 1
    ensures Join([a] + rest, sep) == a + sep + Join(rest, sep)
  {
    assert ([a] + rest)[1..] == rest;
  }

  /** Splitting and joining with the same separator gives the string back. */
  lemma {:induction false} JoinSplit(s: string, sep: string)
    requires |sep| > 0
    ensures Join(Split(s, sep), sep) == s
    decreases |s|
  {
    if IndexOf(s, sep).Some? {
      var i := IndexOf(s, sep).value;
      var rest := s[i + |sep|..];
      JoinSplit(rest, sep);
      SplitUnfold(s, sep, i);
      JoinCons(s[..i], Split(rest, sep), sep);
      assert s == s[..i] + sep + rest;
    }
  }

  /** No piece produced by `split` contains the separator. */
  lemma {:induction false} SplitPiecesFree(s: string, sep: string)
    requires |sep| > 0
    ensures forall k :: 0 <= k < |Split(s, sep)| ==> !Contains(Split(s, sep)[k], sep)
    decreases |s|
  {
    if IndexOf(s, sep).Some? {
      var i := IndexOf(s, sep).value;
      var rest := s[i + |sep|..];
      SplitPiecesFree(rest, sep);
      var head := s[..i];
      if Contains(head, sep) {
        var j := IndexOf(head, sep).value;
        assert j + |sep| <= i;
        assert forall m :: j <= m < j + |sep| ==> head[m] == s[m];
        assert head[j..j + |sep|] == s[j..j + |sep|];
        assert OccursAt(s, sep, j);
        IndexFromFirst(s, sep, 0, j);
        assert false;
      }
      SplitUnfold(s, sep, i);
    }
  }

  /** `replace` with a global, literal pattern and a replacement free of `$` patterns: every
      leftmost, non-overlapping occurrence of `p` becomes `v`, which is to split at `p` and
      join with `v`. */
  function ReplaceAll(s: string, p: string, v: string): string
    requires |p| > 0
  {
    Join(Split(s, p), v)
  }

  /** The number of occurrences `ReplaceAll` replaces. */
  function CountOccurrences(s: string, p: string): nat
    requires |p| > 0
  {
    |Split(s, p)| - 1
  }

  function TotalLength(parts: seq<string>): nat {
    if parts == [] then 0 else |parts[0]| + TotalLength(parts[1..])
  }

  lemma {:induction false} JoinLength(parts: seq<string>, sep: string)
    requires |parts| >= 1
    ensures |Join(parts, sep)| == TotalLength(parts) + (|parts| - 1) * |sep|
  {
    if |parts| > 1 {
      JoinLength(parts[1..], sep);
      MulSucc(|parts| - 2, |sep|);
    }
  }

  /** Replacing a pattern with itself changes nothing. */
  lemma ReplaceAllSelf(s: string, p: string)
    requires |p| > 0
    ensures ReplaceAll(s, p, p) == s
  {
    JoinSplit(s, p);
  }

  /** Each replacement changes the length by the difference of the two lengths. */
  lemma ReplaceAllLength(s: string, p: string, v: string)
    requires |p| > 0
    ensures |ReplaceAll(s, p, v)| - |s| == CountOccurrences(s, p) * (|v| - |p|)
  {
    var parts := Split(s, p);
    JoinSplit(s, p);
    JoinLength(parts, p);
    JoinLength(parts, v);
    MulDiff(|parts| - 1, |v|, |p|);
  }

  lemma MulSucc(c: int, d: int)
    ensures (1 + c) * d == d + c * d
  {
  }

  lemma MulDiff(c: int, a: int, b: int)
    ensures c * a - c * b == c * (a - b)
  {
  }

  lemma MulNonZero(c: int, d: int)
    requires c >= 1 && d != 0
    ensures c * d != 0
  {
    if d > 0 {
      assert c * d >= d;
    } else {
      assert c * (-d) >= -d;
    }
  }

  /** A replacement of the pattern's own length that differs from it changes every string the
      pattern occurs in: at the first occurrence the two differ in some character. */
  lemma ReplaceAllSameLength(s: string, p: string, v: string)
    requires |p| > 0 && |v| == |p| && v != p && Contains(s, p)
    ensures ReplaceAll(s, p, v) != s
  {
    var i := IndexOf(s, p).value;
    var rest := s[i + |p|..];
    SplitUnfold(s, p, i);
    JoinCons(s[..i], Split(rest, p), v);
    var r := ReplaceAll(s, p, v);
    assert r == s[..i] + v + Join(Split(rest, p), v);
    var j :| 0 <= j < |p| && v[j] != p[j];
    assert r[i + j] == v[j];
    assert s[i + j] == s[i..i + |p|][j];
  }

  /** A replacement that differs from the pattern changes every string the pattern occurs in,
      and a string without the pattern is left as it is. */
  lemma ReplaceAllChanges(s: string, p: string, v: string)
    requires |p| > 0
    ensures ReplaceAll(s, p, v) != s <==> Contains(s, p) && v != p
  {
    if v == p {
      ReplaceAllSelf(s, p);
    } else if Contains(s, p) {
      if |v| != |p| {
        ReplaceAllLength(s, p, v);
        var i := IndexOf(s, p).value;
        SplitUnfold(s, p, i);
        MulNonZero(CountOccurrences(s, p), |v| - |p|);
      } else {
        ReplaceAllSameLength(s, p, v);
      }
    }
  }

  /** A string without `c` has no occurrence of `[c]`. */
  lemma NoCharNoIndex(s: string, c: char)
    requires c !in s
    ensures IndexOf(s, [c]).None?
  {
    forall i: nat | i < |s| ensures !OccursAt(s, [c], i) {
      assert s[i..i + 1] == [s[i]];
    }
  }

  /** A character that occurs is found by `includes`. */
  lemma CharContains(s: string, c: char)
    requires c in s
    ensures Contains(s, [c])
  {
    var i :| 0 <= i < |s| && s[i] == c;
    assert s[i..i + 1] == [c];
    OccursContains(s, [c], i);
  }

  /** The first `c` in `a + [c] + rest` is the one after `a` when `a` has none. */
  lemma FirstCharIndex(a: string, c: char, rest: string)
    requires c !in a
    ensures IndexOf(a + [c] + rest, [c]) == Some(|a|)
  {
    var s := a + [c] + rest;
    assert s[|a|..|a| + 1] == [c];
    forall i: nat | i < |a| ensures !OccursAt(s, [c], i) {
      assert s[i..i + 1] == [a[i]];
    }
    if IndexOf(s, [c]).None? {
      IndexFromFirst(s, [c], 0, |a|);
    }
    var i := IndexOf(s, [c]).value;
    if i > |a| {
      IndexFromFirst(s, [c], 0, |a|);
    }
  }

  /** Joining pieces free of a one-character separator and splitting again gives the
      pieces back. */
  lemma {:induction false} SplitJoinChar(parts: seq<string>, c: char)
    requires |parts| >= 1 && forall k :: 0 <= k < |parts| ==> c !in parts[k]
    ensures Split(Join(parts, [c]), [c]) == parts
    decreases |parts|
  {
    if |parts| == 1 {
      NoCharNoIndex(parts[0], c);
    } else {
      var rest := Join(parts[1..], [c]);
      FirstCharIndex(parts[0], c, rest);
      var s := parts[0] + [c] + rest;
      assert s[..|parts[0]|] == parts[0];
      assert s[|parts[0]| + 1..] == rest;
      SplitJoinChar(parts[1..], c);
      assert parts == [parts[0]] + parts[1..];
    }
  }

  /** The pieces of a split at one character do not hold that character. */
  lemma SplitCharPieces(s: string, c: char)
    ensures forall k :: 0 <= k < |Split(s, [c])| ==> c !in Split(s, [c])[k]
  {
    SplitPiecesFree(s, [c]);
    forall k | 0 <= k < |Split(s, [c])| ensures c !in Split(s, [c])[k] {
      if c in Split(s, [c])[k] {
        CharContains(Split(s, [c])[k], c);
      }
    }
  }
}
