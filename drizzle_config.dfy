/** The drizzle-kit configuration of the database package: in production it points at the D1
    HTTP API with credentials from the environment; otherwise at the most recently modified
    local `.sqlite` file under wrangler's D1 state directory. The recursive directory listing
    with each file's modification time (milliseconds) is an input; `None` stands for a listing
    or a `stat` that threw. */
module DrizzleConfig {
  import opened Wrappers
  import Strings

  /** A listed file: its path relative to the base directory and its `mtime.getTime()`. */
  datatype Entry = Entry(path: string, mtime: int)

  /** The `filter` step: only names ending in `.sqlite`, in listing order. */
  function Candidates(entries: seq<Entry>): (r: seq<Entry>)
    ensures forall k :: 0 <= k < |r| ==> Strings.EndsWith(r[k].path, ".sqlite") && r[k] in entries
    ensures forall e :: e in entries && Strings.EndsWith(e.path, ".sqlite") ==> e in r
    ensures |r| <= |entries|
  {
    if entries == [] then []
    else (if Strings.EndsWith(entries[0].path, ".sqlite") then [entries[0]] else []) + Candidates(entries[1..])
  }

  /** The filter keeps the listing's order: one more listed entry adds itself at the end
      when its name ends in `.sqlite`, and nothing otherwise. */
  lemma {:induction false} CandidatesSnoc(entries: seq<Entry>, x: Entry)
    ensures Candidates(entries + [x])
            == Candidates(entries) + (if Strings.EndsWith(x.path, ".sqlite") then [x] else [])
  {
    if entries == [] {
      assert [x][1..] == [];
    } else {
      assert (entries + [x])[1..] == entries[1..] + [x];
      CandidatesSnoc(entries[1..], x);
    }
  }

  /** Puts `x` before the first element whose mtime is not greater than its own. */
  function Insert(x: Entry, sorted: seq<Entry>): (r: seq<Entry>)
    ensures multiset(r) == multiset(sorted) + multiset{x}
    ensures |r| == |sorted| + 1
  {
    if sorted == [] || sorted[0].mtime <= x.mtime then [x] + sorted
    else
      assert sorted == [sorted[0]] + sorted[1..];
      [sorted[0]] + Insert(x, sorted[1..])
  }

  /** `sort((a, b) => b.mtime - a.mtime)`: a stable sort, newest first. Array.prototype.sort
      is stable, so equal mtimes keep their listing order; inserting each element in front of
      the equal ones of the entries after it gives the same order. */
  function SortNewestFirst(s: seq<Entry>): (r: seq<Entry>)
    ensures multiset(r) == multiset(s)
    ensures |r| == |s|
  {
    if s == [] then []
    else
      assert s == [s[0]] + s[1..];
      Insert(s[0], SortNewestFirst(s[1..]))
  }

  predicate NewestFirst(s: seq<Entry>) {
    forall i, j :: 0 <= i < j < |s| ==> s[i].mtime >= s[j].mtime
  }

  predicate NoNewerThan(s: seq<Entry>, bound: int) {
    forall k :: 0 <= k < |s| ==> s[k].mtime <= bound
  }

  /** Inserting an entry no newer than a bound keeps every entry within it. */
  lemma {:induction false} InsertBounded(x: Entry, sorted: seq<Entry>, bound: int)
    requires NoNewerThan(sorted, bound) && x.mtime <= bound
    ensures NoNewerThan(Insert(x, sorted), bound)
    decreases |sorted|
  {
    if sorted != [] && sorted[0].mtime > x.mtime {
      InsertBounded(x, sorted[1..], bound);
    }
  }

  lemma {:induction false} InsertKeepsOrder(x: Entry, sorted: seq<Entry>)
    requires NewestFirst(sorted)
    ensures NewestFirst(Insert(x, sorted))
    decreases |sorted|
  {
    if sorted != [] && sorted[0].mtime > x.mtime {
      InsertKeepsOrder(x, sorted[1..]);
      assert NoNewerThan(sorted[1..], sorted[0].mtime);
      InsertBounded(x, sorted[1..], sorted[0].mtime);
    }
  }

  /** The sort leaves the candidates newest first. */
  lemma {:induction false} SortIsOrdered(s: seq<Entry>)
    ensures NewestFirst(SortNewestFirst(s))
  {
    if s != [] {
      SortIsOrdered(s[1..]);
      InsertKeepsOrder(s[0], SortNewestFirst(s[1..]));
    }
  }

  /** The reference choice: the first entry whose mtime no other entry exceeds. */
  function FirstNewest(s: seq<Entry>): (r: Entry)
    requires s != []
    ensures r in s
    ensures forall k :: 0 <= k < |s| ==> s[k].mtime <= r.mtime
    ensures exists i :: 0 <= i < |s| && s[i] == r && forall k :: 0 <= k < i ==> s[k].mtime < r.mtime
  {
    if |s| == 1 then s[0]
    else
      var rest := FirstNewest(s[1..]);
      if s[0].mtime >= rest.mtime then s[0]
      else
        var i :| 0 <= i < |s[1..]| && s[1..][i] == rest && forall k :: 0 <= k < i ==> s[1..][k].mtime < rest.mtime;
        assert s[i + 1] == rest;
        assert forall k :: 1 <= k <= i ==> s[k] == s[1..][k - 1];
        rest
  }

  lemma InsertHead(x: Entry, sorted: seq<Entry>)
    ensures sorted == [] ==> Insert(x, sorted)[0] == x
    ensures sorted != [] ==> Insert(x, sorted)[0] == (if sorted[0].mtime <= x.mtime then x else sorted[0])
  {
  }

  /** The head of the sorted list is the first of the newest entries: ties go to the entry
      listed earliest. */
  lemma {:induction false} SortHeadIsFirstNewest(s: seq<Entry>)
    requires s != []
    ensures SortNewestFirst(s)[0] == FirstNewest(s)
  {
    InsertHead(s[0], SortNewestFirst(s[1..]));
    if |s| > 1 {
      SortHeadIsFirstNewest(s[1..]);
    }
  }

  /** `path.resolve(basePath, f)` for a relative `f` and an absolute `basePath`. */
  function FullPath(basePath: string, path: string): (r: string)
    ensures Strings.StartsWith(r, basePath + "/") && r[|basePath| + 1..] == path
  {
    basePath + "/" + path
  }

  /** `getLocalD1DB`: the full path of the newest candidate; a failed listing and an empty
      candidate list are both caught, logged and turned into `undefined`. */
  function LocalDatabase(basePath: string, listing: Option<seq<Entry>>): Option<string> {
    if listing.None? then None
    else
      var files := SortNewestFirst(Candidates(listing.value));
      if |files| == 0 then None else Some(FullPath(basePath, files[0].path))
  }

  /** The local database is found exactly when some listed name ends in `.sqlite`, and it is
      then the first of the newest such files, resolved against the base directory. */
  lemma LocalDatabaseChoice(basePath: string, listing: Option<seq<Entry>>)
    ensures LocalDatabase(basePath, listing).Some? <==>
      listing.Some? && exists e :: e in listing.value && Strings.EndsWith(e.path, ".sqlite")
    ensures LocalDatabase(basePath, listing).Some? ==>
      var c := Candidates(listing.value);
      c != [] && LocalDatabase(basePath, listing).value == FullPath(basePath, FirstNewest(c).path)
  {
    if listing.Some? {
      var c := Candidates(listing.value);
      if c != [] {
        SortHeadIsFirstNewest(c);
        assert c[0] in listing.value;
      }
    }
  }

  /** The chosen file is a candidate at least as new as every other candidate. */
  lemma ChosenIsNewest(basePath: string, listing: Option<seq<Entry>>)
    requires listing.Some? && Candidates(listing.value) != []
    ensures var chosen := SortNewestFirst(Candidates(listing.value))[0];
      Strings.EndsWith(chosen.path, ".sqlite") && chosen in listing.value
      && (forall e :: e in listing.value && Strings.EndsWith(e.path, ".sqlite") ==> e.mtime <= chosen.mtime)
      && LocalDatabase(basePath, listing) == Some(FullPath(basePath, chosen.path))
  {
    var c := Candidates(listing.value);
    SortHeadIsFirstNewest(c);
  }

  /** `process.env`. */
  type Environment = map<string, string>

  function EnvVar(env: Environment, name: string): Option<string> {
    if name in env then Some(env[name]) else None
  }

  datatype Credentials =
    | D1Http(accountId: Option<string>, databaseId: Option<string>, token: Option<string>)
    | LocalFile(url: Option<string>)

  datatype Config = Config(out: string, schema: string, dialect: string, credentials: Credentials)

  /** The exported configuration. The local file is looked up only outside production. */
  function DrizzleConfig(env: Environment, basePath: string, listing: Option<seq<Entry>>): (r: Config)
    ensures r.out == "./drizzle" && r.schema == "./schema/index.ts" && r.dialect == "sqlite"
    ensures r.credentials.D1Http? <==> EnvVar(env, "NODE_ENV") == Some("production")
    ensures r.credentials.D1Http? ==> r.credentials == D1Http(EnvVar(env, "CLOUDFLARE_D1_ACCOUNT_ID"),
      EnvVar(env, "DATABASE"), EnvVar(env, "CLOUDFLARE_D1_API_TOKEN"))
    ensures r.credentials.LocalFile? ==> r.credentials.url == LocalDatabase(basePath, listing)
  {
    var credentials :=
      if EnvVar(env, "NODE_ENV") == Some("production") then
        D1Http(EnvVar(env, "CLOUDFLARE_D1_ACCOUNT_ID"), EnvVar(env, "DATABASE"), EnvVar(env, "CLOUDFLARE_D1_API_TOKEN"))
      else LocalFile(LocalDatabase(basePath, listing));
    Config("./drizzle", "./schema/index.ts", "sqlite", credentials)
  }

  /** In production the listing plays no part. */
  lemma ProductionIgnoresListing(env: Environment, basePath: string, a: Option<seq<Entry>>, b: Option<seq<Entry>>)
    requires EnvVar(env, "NODE_ENV") == Some("production")
    ensures DrizzleConfig(env, basePath, a) == DrizzleConfig(env, basePath, b)
  {
  }
}
