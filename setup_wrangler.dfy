/** What the setup script reads out of `wrangler` output: the accounts in the box table of
    `wrangler whoami`, the bucket names of `wrangler r2 bucket list`, and the database id in the
    output of `wrangler d1 create` (or, when that fails, of `wrangler d1 info`). A command's
    output is `None` when `executeCommand` did not return a string. */
module SetupWrangler {
  import opened Wrappers
  import opened Strings

  // The account table.

  /** A table row: its trimmed text starts with `│ ` and ends with ` │`. */
  predicate Framed(line: string) {
    StartsWith(Trim(line), "\U{2502} ") && EndsWith(Trim(line), " \U{2502}")
  }

  /** The characters `\b` counts as word characters. */
  predicate IsWordChar(c: char) {
    'a' <= c <= 'z' || 'A' <= c <= 'Z' || '0' <= c <= '9' || c == '_'
  }

  predicate IsLowerHexDigit(c: char) {
    '0' <= c <= '9' || 'a' <= c <= 'f'
  }

  predicate WordAt(s: string, k: int) {
    0 <= k < |s| && IsWordChar(s[k])
  }

  /** `\b` at position `k`: a word character on exactly one side. */
  predicate Boundary(s: string, k: int) {
    WordAt(s, k - 1) != WordAt(s, k)
  }

  const TokenLength: nat := 32

  /** `\b[a-f0-9]{32}\b` matches at `k`. */
  predicate HexTokenAt(s: string, k: nat) {
    k + TokenLength <= |s| && Boundary(s, k) && Boundary(s, k + TokenLength)
    && forall j :: k <= j < k + TokenLength ==> IsLowerHexDigit(s[j])
  }

  /** The match positions of the global regular expression, scanning from `i`: after a match
      the scan resumes at its end. */
  function TokensFrom(s: string, i: nat): seq<nat>
    requires i <= |s|
    decreases |s| - i
  {
    if i == |s| then []
    else if HexTokenAt(s, i) then [i] + TokensFrom(s, i + TokenLength)
    else TokensFrom(s, i + 1)
  }

  /** Two tokens never overlap: the characters inside one are word characters, so no
      boundary falls inside it. */
  lemma NoTokenInside(s: string, k: nat, m: nat)
    requires HexTokenAt(s, k) && k < m < k + TokenLength
    ensures !HexTokenAt(s, m)
  {
    assert IsLowerHexDigit(s[m - 1]) && IsLowerHexDigit(s[m]);
  }

  /** Resuming after each match loses nothing: the scan finds every token position. */
  lemma {:induction false} TokensFromExact(s: string, i: nat)
    requires i <= |s|
    ensures forall k: nat :: k in TokensFrom(s, i) <==> i <= k && HexTokenAt(s, k)
    decreases |s| - i
  {
    if i < |s| {
      if HexTokenAt(s, i) {
        TokensFromExact(s, i + TokenLength);
        forall k: nat | i < k < i + TokenLength ensures !HexTokenAt(s, k) {
          NoTokenInside(s, i, k);
        }
      } else {
        TokensFromExact(s, i + 1);
      }
    }
  }

  /** The token positions are listed from left to right. */
  lemma {:induction false} TokensFromIncreasing(s: string, i: nat)
    requires i <= |s|
    ensures forall a, b :: 0 <= a < b < |TokensFrom(s, i)| ==> TokensFrom(s, i)[a] < TokensFrom(s, i)[b]
    decreases |s| - i
  {
    if i < |s| {
      if HexTokenAt(s, i) {
        TokensFromIncreasing(s, i + TokenLength);
        TokensFromExact(s, i + TokenLength);
        var rest := TokensFrom(s, i + TokenLength);
        assert forall b :: 0 <= b < |rest| ==> rest[b] in rest;
      } else {
        TokensFromIncreasing(s, i + 1);
      }
    }
  }

  /** An entry of the account list. */
  datatype Account = Account(name: string, id: string)

  /** The entry a line contributes, when it is a table row with exactly one token and a
      non-empty name cell. The name is the trimmed text after the first `│ `; the id is the
      token (the two `replace` calls find nothing to remove in it). */
  function AccountOf(line: string): Option<Account> {
    if !Framed(line) then None
    else
      var tokens := TokensFrom(line, 0);
      if |tokens| != 1 then None
      else
        TokensFromExact(line, 0);
        assert tokens[0] in tokens;
        var parts := Split(line, "\U{2502} ");
        var name := if |parts| >= 2 then Trim(parts[1]) else "";
        var id := line[tokens[0]..tokens[0] + TokenLength];
        if name != "" && id != "" then Some(Account(name, id)) else None
  }

  /** The accounts of the lines, in line order. */
  function AccountsOf(lines: seq<string>): (r: seq<Account>)
    ensures |r| <= |lines|
  {
    if lines == [] then [] else AccountItem(lines[0]) + AccountsOf(lines[1..])
  }

  /** What one line adds to the list. */
  function AccountItem(line: string): (r: seq<Account>)
    ensures |r| <= 1
  {
    if AccountOf(line).Some? then [AccountOf(line).value] else []
  }

  /** `extractAccountDetails`: the loop pushing one entry per qualifying line. */
  method ExtractAccountDetails(output: string) returns (accounts: seq<Account>)
    ensures accounts == AccountsOf(Split(output, "\n"))
  {
    var lines := Split(output, "\n");
    accounts := [];
    var i := 0;
    while i < |lines|
      invariant 0 <= i <= |lines|
      invariant accounts == AccountsOf(lines[..i])
    {
      var account := AccountOf(lines[i]);
      assert lines[..i + 1] == lines[..i] + [lines[i]];
      AccountsSnoc(lines[..i], lines[i]);
      if account.Some? {
        accounts := accounts + [account.value];
      }
      i := i + 1;
    }
    assert lines[..i] == lines;
  }

  /** A table row with a non-blank name cell and exactly one token. */
  ghost predicate AccountRow(line: string, a: Account) {
    Framed(line) && |Split(line, "\U{2502} ")| >= 2 && a.name == Trim(Split(line, "\U{2502} ")[1]) && a.name != ""
    && exists k: nat :: HexTokenAt(line, k) && a.id == line[k..k + TokenLength]
         && forall m: nat :: HexTokenAt(line, m) ==> m == k
  }

  /** A line yields an account exactly when it is a table row holding exactly one token
      whose name cell is not blank; the id is that token. */
  lemma AccountOfExact(line: string, a: Account)
    ensures AccountOf(line) == Some(a) <==> AccountRow(line, a)
  {
    if AccountOf(line) == Some(a) {
      AccountOfSound(line);
    }
    if AccountRow(line, a) {
      AccountOfComplete(line, a);
    }
  }

  lemma AccountOfSound(line: string)
    requires AccountOf(line).Some?
    ensures AccountRow(line, AccountOf(line).value)
  {
    TokensFromExact(line, 0);
    var tokens := TokensFrom(line, 0);
    var k := tokens[0];
    assert k in tokens;
    forall m: nat | HexTokenAt(line, m) ensures m == k {
      assert m in tokens;
    }
  }

  lemma AccountOfComplete(line: string, a: Account)
    requires AccountRow(line, a)
    ensures AccountOf(line) == Some(a)
  {
    TokensFromExact(line, 0);
    var tokens := TokensFrom(line, 0);
    var k: nat :| HexTokenAt(line, k) && a.id == line[k..k + TokenLength] && forall m: nat :: HexTokenAt(line, m) ==> m == k;
    assert k in tokens;
    assert forall m :: m in tokens ==> m == k;
    if |tokens| != 1 {
      assert tokens[0] in tokens && tokens[1] in tokens;
      TokensFromIncreasing(line, 0);
    }
    assert tokens == [k];
  }

  /** Account ids are 32 lowercase hexadecimal digits. */
  lemma AccountIdIsHex(line: string)
    requires AccountOf(line).Some?
    ensures |AccountOf(line).value.id| == TokenLength
    ensures forall j :: 0 <= j < TokenLength ==> IsLowerHexDigit(AccountOf(line).value.id[j])
  {
    TokensFromExact(line, 0);
    var k := TokensFrom(line, 0)[0];
    assert k in TokensFrom(line, 0);
  }

  /** Each line is handled on its own, in order. */
  lemma {:induction false} AccountsConcat(a: seq<string>, b: seq<string>)
    ensures AccountsOf(a + b) == AccountsOf(a) + AccountsOf(b)
  {
    if a == [] {
      assert a + b == b;
    } else {
      assert (a + b)[0] == a[0];
      assert (a + b)[1..] == a[1..] + b;
      AccountsConcat(a[1..], b);
    }
  }

  lemma {:induction false} AccountsSnoc(lines: seq<string>, line: string)
    ensures AccountsOf(lines + [line]) == AccountsOf(lines) + AccountItem(line)
  {
    if lines == [] {
      assert lines + [line] == [line];
      assert AccountsOf([line]) == AccountItem(line) + AccountsOf([]);
    } else {
      assert (lines + [line])[1..] == lines[1..] + [line];
      AccountsSnoc(lines[1..], line);
    }
  }

  /** Every account comes from a line that yields it. */
  lemma {:induction false} AccountsFromLines(lines: seq<string>)
    ensures forall x :: x in AccountsOf(lines) ==> exists j :: 0 <= j < |lines| && AccountOf(lines[j]) == Some(x)
  {
    if lines != [] {
      AccountsFromLines(lines[1..]);
      forall x | x in AccountsOf(lines) ensures exists j :: 0 <= j < |lines| && AccountOf(lines[j]) == Some(x) {
        if x !in AccountsOf(lines[1..]) {
          assert AccountOf(lines[0]) == Some(x);
        } else {
          var j :| 0 <= j < |lines[1..]| && AccountOf(lines[1..][j]) == Some(x);
          assert AccountOf(lines[j + 1]) == Some(x);
        }
      }
    }
  }

  // The bucket list.

  /** A line taken for a bucket name: its trimmed text, when it is not empty and holds no
      table border and no `Bucket` heading. */
  function BucketOf(line: string): Option<string> {
    var t := Trim(line);
    if t != "" && !Contains(t, "\U{2502}") && !Contains(t, "\U{2500}") && !Contains(t, "Bucket") then Some(t) else None
  }

  function BucketsOf(lines: seq<string>): (r: seq<string>)
    ensures |r| <= |lines|
  {
    if lines == [] then [] else BucketItem(lines[0]) + BucketsOf(lines[1..])
  }

  function BucketItem(line: string): (r: seq<string>)
    ensures |r| <= 1
  {
    if BucketOf(line).Some? then [BucketOf(line).value] else []
  }

  /** `listR2Buckets`: no output (or an empty one) lists no bucket; otherwise the loop pushes
      every line that passes the filter. */
  method ListR2Buckets(output: Option<string>) returns (buckets: seq<string>)
    ensures output.None? || output == Some("") ==> buckets == []
    ensures output.Some? && output.value != "" ==> buckets == BucketsOf(Split(output.value, "\n"))
  {
    buckets := [];
    if output.None? || output.value == "" {
      return;
    }
    var lines := Split(output.value, "\n");
    var i := 0;
    while i < |lines|
      invariant 0 <= i <= |lines|
      invariant buckets == BucketsOf(lines[..i])
    {
      var bucket := BucketOf(lines[i]);
      assert lines[..i + 1] == lines[..i] + [lines[i]];
      BucketsSnoc(lines[..i], lines[i]);
      if bucket.Some? {
        buckets := buckets + [bucket.value];
      }
      i := i + 1;
    }
    assert lines[..i] == lines;
  }

  /** Every listed name is a trimmed, non-empty line free of borders and of `Bucket`. */
  lemma {:induction false} BucketsWellFormed(lines: seq<string>)
    ensures forall b :: b in BucketsOf(lines) ==>
      b != "" && Trim(b) == b && !Contains(b, "\U{2502}") && !Contains(b, "\U{2500}") && !Contains(b, "Bucket")
      && exists j :: 0 <= j < |lines| && Trim(lines[j]) == b
  {
    if lines != [] {
      BucketsWellFormed(lines[1..]);
      TrimIdempotent(lines[0]);
      forall b | b in BucketsOf(lines)
        ensures b != "" && Trim(b) == b && !Contains(b, "\U{2502}") && !Contains(b, "\U{2500}") && !Contains(b, "Bucket")
          && exists j :: 0 <= j < |lines| && Trim(lines[j]) == b
      {
        if b !in BucketsOf(lines[1..]) {
          assert Trim(lines[0]) == b;
        } else {
          var j :| 0 <= j < |lines[1..]| && Trim(lines[1..][j]) == b;
          assert Trim(lines[j + 1]) == b;
        }
      }
    }
  }

  lemma {:induction false} BucketsSnoc(lines: seq<string>, line: string)
    ensures BucketsOf(lines + [line]) == BucketsOf(lines) + BucketItem(line)
  {
    if lines == [] {
      assert lines + [line] == [line];
      assert BucketsOf([line]) == BucketItem(line) + BucketsOf([]);
    } else {
      assert (lines + [line])[1..] == lines[1..] + [line];
      BucketsSnoc(lines[1..], line);
    }
  }

  /** Each line is handled on its own, in order. */
  lemma {:induction false} BucketsConcat(a: seq<string>, b: seq<string>)
    ensures BucketsOf(a + b) == BucketsOf(a) + BucketsOf(b)
  {
    if a == [] {
      assert a + b == b;
    } else {
      assert (a + b)[0] == a[0];
      assert (a + b)[1..] == a[1..] + b;
      BucketsConcat(a[1..], b);
    }
  }

  // The database id.

  /** The three regular expressions the id is looked for with. */
  datatype Pattern =
    | JsonDatabaseId   // /"database_id":\s*"([^"]+)"/
    | TomlDatabaseId   // /database_id\s*=\s*"([^"]+)"/
    | Uuid             // /[0-9a-f]{8}-[0-9a-f]{4}-[0-9a-f]{4}-[0-9a-f]{4}-[0-9a-f]{12}/i

  /** The end of the white space run starting at `i`: the greedy `\s*`. */
  function SkipSpaces(s: string, i: nat): (r: nat)
    requires i <= |s|
    ensures i <= r <= |s|
    decreases |s| - i
  {
    if i < |s| && IsJsSpace(s[i]) then SkipSpaces(s, i + 1) else i
  }

  /** `"([^"]+)"` at `k`: the captured text between a quote and the next one, when it is not
      empty. Backtracking cannot help either greedy part, since each stops only at a quote. */
  function QuotedAt(s: string, k: nat): (r: Option<string>)
    requires k <= |s|
    ensures r.Some? ==> r.value != "" && '"' !in r.value
  {
    if k < |s| && s[k] == '"' then
      match IndexFrom(s, "\"", k + 1)
      case Some(j) =>
        if j > k + 1 then
          assert forall m :: k + 1 <= m < j ==> s[m] != '"' by {
            forall m | k + 1 <= m < j ensures s[m] != '"' {
              IndexFromFirst(s, "\"", k + 1, m);
              assert s[m..m + 1] == [s[m]];
            }
          }
          Some(s[k + 1..j])
        else None
      case None => None
    else None
  }

  predicate IsHexDigitAnyCase(c: char) {
    '0' <= c <= '9' || 'a' <= c <= 'f' || 'A' <= c <= 'F'
  }

  predicate IsUuidDash(j: int) {
    j == 8 || j == 13 || j == 18 || j == 23
  }

  const UuidLength: nat := 36

  /** The UUID pattern matches the 36 characters at `k`. */
  predicate UuidAt(s: string, k: nat) {
    k + UuidLength <= |s|
    && forall j :: 0 <= j < UuidLength ==> if IsUuidDash(j) then s[k + j] == '-' else IsHexDigitAnyCase(s[k + j])
  }

  /** What the pattern captures when matched at position `k` (the whole match for the UUID). */
  function MatchAt(p: Pattern, s: string, k: nat): Option<string>
    requires k <= |s|
  {
    match p
    case JsonDatabaseId =>
      if OccursAt(s, "\"database_id\":", k) then QuotedAt(s, SkipSpaces(s, k + 14)) else None
    case TomlDatabaseId =>
      if OccursAt(s, "database_id", k) then
        var m := SkipSpaces(s, k + 11);
        if m < |s| && s[m] == '=' then QuotedAt(s, SkipSpaces(s, m + 1)) else None
      else None
    case Uuid =>
      if UuidAt(s, k) then Some(s[k..k + UuidLength]) else None
  }

  /** The leftmost match at or after `i`, with its position. */
  function FirstMatch(p: Pattern, s: string, i: nat): (r: Option<(nat, string)>)
    requires i <= |s|
    ensures r.Some? ==> i <= r.value.0 <= |s| && MatchAt(p, s, r.value.0) == Some(r.value.1)
    ensures r.Some? ==> forall k :: i <= k < r.value.0 ==> MatchAt(p, s, k).None?
    ensures r.None? ==> forall k :: i <= k <= |s| ==> MatchAt(p, s, k).None?
    decreases |s| - i
  {
    if MatchAt(p, s, i).Some? then Some((i, MatchAt(p, s, i).value))
    else if i == |s| then None
    else FirstMatch(p, s, i + 1)
  }

  /** `s.match(pattern)` without the global flag: the capture of the leftmost match. */
  function Match(p: Pattern, s: string): Option<string> {
    var m := FirstMatch(p, s, 0);
    if m.Some? then Some(m.value.1) else None
  }

  /** The database id `createDatabase` settles on, or `None` where it gives up and exits:
      from the creation output when there is one (the JSON form first, then the TOML form),
      otherwise the first UUID in a non-empty `d1 info` output. */
  function CreatedDatabaseId(creation: Option<string>, info: Option<string>): Option<string> {
    if creation.None? then
      if info.Some? && info.value != "" then Match(Uuid, info.value) else None
    else
      var json := Match(JsonDatabaseId, creation.value);
      var toml := Match(TomlDatabaseId, creation.value);
      if json.Some? && json.value != "" then json
      else if toml.Some? && toml.value != "" then toml
      else None
  }

  /** The JSON form wins whenever it is present, and the TOML form is used only without it:
      a capture is never empty, so `||` never falls through a JSON match. */
  lemma JsonFormWins(c: string, info: Option<string>)
    ensures Match(JsonDatabaseId, c).Some? ==> CreatedDatabaseId(Some(c), info) == Match(JsonDatabaseId, c)
    ensures Match(JsonDatabaseId, c).None? ==> CreatedDatabaseId(Some(c), info) == Match(TomlDatabaseId, c)
  {
    var json := FirstMatch(JsonDatabaseId, c, 0);
    var toml := FirstMatch(TomlDatabaseId, c, 0);
    if json.Some? {
      assert MatchAt(JsonDatabaseId, c, json.value.0) == Some(json.value.1);
    }
    if toml.Some? {
      assert MatchAt(TomlDatabaseId, c, toml.value.0) == Some(toml.value.1);
    }
  }

  /** The `d1 info` output is consulted only when the creation produced no output. */
  lemma CreationIgnoresInfo(c: string, info1: Option<string>, info2: Option<string>)
    ensures CreatedDatabaseId(Some(c), info1) == CreatedDatabaseId(Some(c), info2)
  {
  }

  /** An id found in the creation output is the quoted text of the leftmost match of its
      form: non-empty and without quotes. A fallback id is a UUID taken from the info output
      at the leftmost place one occurs. */
  lemma CreatedDatabaseIdShape(creation: Option<string>, info: Option<string>)
    ensures CreatedDatabaseId(creation, info).Some? ==> CreatedDatabaseId(creation, info).value != ""
    ensures creation.Some? && CreatedDatabaseId(creation, info).Some? ==> '"' !in CreatedDatabaseId(creation, info).value
    ensures creation.None? && CreatedDatabaseId(creation, info).Some? ==>
      var id := CreatedDatabaseId(creation, info).value;
      exists k: nat :: UuidAt(info.value, k) && id == info.value[k..k + UuidLength]
        && forall m: nat :: m < k ==> !UuidAt(info.value, m)
  {
    if creation.Some? {
      JsonFormWins(creation.value, info);
    } else if CreatedDatabaseId(creation, info).Some? {
      var s := info.value;
      var m := FirstMatch(Uuid, s, 0).value;
      assert MatchAt(Uuid, s, m.0) == Some(m.1);
      forall j: nat | j < m.0 ensures !UuidAt(s, j) {
        assert MatchAt(Uuid, s, j).None?;
      }
    }
  }

  /** Every character of a fallback id is a hexadecimal digit, except the four dashes. */
  lemma UuidShape(s: string, k: nat)
    requires UuidAt(s, k)
    ensures var id := s[k..k + UuidLength];
      |id| == UuidLength && id[8] == '-' && id[13] == '-' && id[18] == '-' && id[23] == '-'
      && forall j :: 0 <= j < UuidLength && !IsUuidDash(j) ==> IsHexDigitAnyCase(id[j])
  {
    assert IsUuidDash(8) && IsUuidDash(13) && IsUuidDash(18) && IsUuidDash(23);
  }
}
