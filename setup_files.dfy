/** The file-content edits of the first-time setup script: placeholder substitution
    (`replaceHandlebarsInFile`), the `@repo/` scope rewrite (`replaceRepoReferences`) and the
    `.gitignore` edit (`removeWranglerFromGitignore`). A file is its content, or `None` when
    it does not exist or cannot be read; what would be written is returned. */
module SetupFiles {
  import opened Wrappers
  import opened Strings

  // Placeholder substitution.

  /** The text `{{key}}` that `new RegExp(`{{${key}}}`, "g")` matches for a key made of word
      characters: braces not forming a quantifier stand for themselves. */
  function Placeholder(key: string): (r: string)
    ensures |r| == |key| + 4 && StartsWith(r, "{{")
  {
    "{{" + key + "}}"
  }

  /** The replacements applied one after the other, in the order the record lists them. */
  function ApplyReplacements(content: string, replacements: seq<(string, string)>): string
    decreases |replacements|
  {
    if replacements == [] then content
    else
      var (key, value) := replacements[0];
      ApplyReplacements(ReplaceAll(content, Placeholder(key), value), replacements[1..])
  }

  /** The loop of `replaceHandlebarsInFile`, reassigning `content` once per entry. */
  method ReplaceHandlebars(content: string, replacements: seq<(string, string)>) returns (result: string)
    ensures result == ApplyReplacements(content, replacements)
  {
    result := content;
    var i := 0;
    while i < |replacements|
      invariant 0 <= i <= |replacements|
      invariant ApplyReplacements(result, replacements[i..]) == ApplyReplacements(content, replacements)
    {
      var (key, value) := replacements[i];
      assert replacements[i..][1..] == replacements[i + 1..];
      result := ReplaceAll(result, Placeholder(key), value);
      i := i + 1;
    }
    assert replacements[i..] == [];
  }

  /** `replaceHandlebarsInFile`: a missing file is left alone (`None`); otherwise the whole
      substituted content is written back. */
  method ReplaceHandlebarsInFile(file: Option<string>, replacements: seq<(string, string)>)
    returns (written: Option<string>)
    ensures file.None? ==> written.None?
    ensures file.Some? ==> written == Some(ApplyReplacements(file.value, replacements))
  {
    if file.None? {
      return None;
    }
    var content := ReplaceHandlebars(file.value, replacements);
    written := Some(content);
  }

  /** The last replacement is applied to the result of all the ones before it. */
  lemma {:induction false} ApplyInOrder(content: string, replacements: seq<(string, string)>, key: string, value: string)
    ensures ApplyReplacements(content, replacements + [(key, value)])
      == ReplaceAll(ApplyReplacements(content, replacements), Placeholder(key), value)
    decreases |replacements|
  {
    if replacements == [] {
      assert [] + [(key, value)] == [(key, value)];
    } else {
      var (k, v) := replacements[0];
      assert (replacements + [(key, value)])[1..] == replacements[1..] + [(key, value)];
      ApplyInOrder(ReplaceAll(content, Placeholder(k), v), replacements[1..], key, value);
    }
  }

  lemma PlaceholderOpens(s: string, key: string)
    requires Contains(s, Placeholder(key))
    ensures Contains(s, "{{")
  {
    var i := IndexOf(s, Placeholder(key)).value;
    assert s[i..i + 2] == Placeholder(key)[..2];
    OccursContains(s, "{{", i);
  }

  /** Content without any placeholder is left exactly as it is, whatever the replacements. */
  lemma {:induction false} NoPlaceholderUnchanged(content: string, replacements: seq<(string, string)>)
    requires !Contains(content, "{{")
    ensures ApplyReplacements(content, replacements) == content
    decreases |replacements|
  {
    if replacements != [] {
      var (key, value) := replacements[0];
      if Contains(content, Placeholder(key)) {
        PlaceholderOpens(content, key);
      }
      ReplaceAllChanges(content, Placeholder(key), value);
      NoPlaceholderUnchanged(content, replacements[1..]);
    }
  }

  // The `@repo/` scope rewrite.

  const AllowedExtensions: set<string> := {".ts", ".tsx", ".js", ".jsx", ".json", ".mjs", ".cjs", ".css"}

  /** The last index of `c` in `s`; see `LastIndexOfShape`. */
  function LastIndexOf(s: string, c: char): Option<nat> {
    if s == [] then None
    else if s[|s| - 1] == c then Some(|s| - 1)
    else LastIndexOf(s[..|s| - 1], c)
  }

  lemma {:induction false} LastIndexOfShape(s: string, c: char)
    ensures LastIndexOf(s, c).Some? ==> var i := LastIndexOf(s, c).value;
      i < |s| && s[i] == c && forall k :: i < k < |s| ==> s[k] != c
    ensures LastIndexOf(s, c).None? ==> c !in s
  {
    if s != [] && s[|s| - 1] != c {
      LastIndexOfShape(s[..|s| - 1], c);
      assert forall k :: 0 <= k < |s| - 1 ==> s[..|s| - 1][k] == s[k];
      assert s == s[..|s| - 1] + [s[|s| - 1]];
    }
  }

  /** `path.extname` of a file name: from its last dot to the end, or empty when there is no
      dot, when the only dot is the first character, or for `..`. */
  function ExtName(name: string): string {
    match LastIndexOf(name, '.')
    case None => ""
    case Some(i) => if i == 0 || i >= |name| || name == ".." then "" else name[i..]
  }

  /** A non-empty extension is the tail of the name from its last dot, after a first
      character that is not that dot. */
  lemma ExtNameShape(name: string)
    ensures var e := ExtName(name);
      e != [] ==> EndsWith(name, e) && e[0] == '.' && '.' !in e[1..] && |e| < |name|
  {
    LastIndexOfShape(name, '.');
    var e := ExtName(name);
    if e != [] {
      var i := LastIndexOf(name, '.').value;
      assert e == name[i..];
      forall k | 1 <= k < |e| ensures e[k] != '.' {
        assert e[k] == name[i + k];
      }
    }
  }

  /** A file the walk reached: its path, its entry name, and its content (`None` when it
      cannot be read). */
  datatype SourceFile = SourceFile(path: string, name: string, content: Option<string>)

  /** A directory entry as `readdirSync(..., { withFileTypes: true })` lists it: a directory
      with its own entries, a regular file with its content, or anything else (a link, a
      socket), which the walk passes over. */
  datatype DirEntry =
    | Directory(name: string, entries: seq<DirEntry>)
    | RegularFile(name: string, content: Option<string>)
    | OtherEntry(name: string)

  /** `path.join` of a directory and an entry name. */
  function JoinPath(dir: string, name: string): string {
    dir + "/" + name
  }

  /** The directories the walk does not enter: `node_modules`, `.git` and hidden ones. */
  predicate SkippedDirectory(name: string) {
    name == "node_modules" || name == ".git" || StartsWith(name, ".")
  }

  /** `processDirectory`: the regular files below a directory, depth first, in listing order. */
  function Walk(dir: string, entries: seq<DirEntry>): seq<SourceFile>
    decreases entries
  {
    if entries == [] then []
    else WalkEntry(dir, entries[0]) + Walk(dir, entries[1..])
  }

  function WalkEntry(dir: string, entry: DirEntry): seq<SourceFile>
    decreases entry
  {
    match entry
    case Directory(name, children) =>
      if SkippedDirectory(name) then [] else Walk(JoinPath(dir, name), children)
    case RegularFile(name, content) => [SourceFile(JoinPath(dir, name), name, content)]
    case OtherEntry(_) => []
  }

  /** A search directory walked only when it exists. */
  function WalkIfPresent(dir: string, listing: Option<seq<DirEntry>>): seq<SourceFile> {
    if listing.Some? then Walk(dir, listing.value) else []
  }

  /** The files visited under `packages`, `tooling` and `apps` of the repository, in that
      order; `None` is a search directory that does not exist. */
  function SearchedFiles(repoRoot: string, packages: Option<seq<DirEntry>>, tooling: Option<seq<DirEntry>>,
                         apps: Option<seq<DirEntry>>): seq<SourceFile>
  {
    WalkIfPresent(JoinPath(repoRoot, "packages"), packages)
    + WalkIfPresent(JoinPath(repoRoot, "tooling"), tooling)
    + WalkIfPresent(JoinPath(repoRoot, "apps"), apps)
  }

  /** The walk lists entries one after the other. */
  lemma {:induction false} WalkConcat(dir: string, a: seq<DirEntry>, b: seq<DirEntry>)
    ensures Walk(dir, a + b) == Walk(dir, a) + Walk(dir, b)
    decreases a
  {
    if a == [] {
      assert a + b == b;
    } else {
      assert (a + b)[0] == a[0];
      assert (a + b)[1..] == a[1..] + b;
      WalkConcat(dir, a[1..], b);
    }
  }

  /** Nothing below a skipped directory is visited: the walk is the same without it. */
  lemma {:induction false} WalkStaysOutOfSkipped(dir: string, entries: seq<DirEntry>)
    ensures forall k :: 0 <= k < |entries| && entries[k].Directory? && SkippedDirectory(entries[k].name) ==>
      Walk(dir, entries) == Walk(dir, entries[..k]) + Walk(dir, entries[k + 1..])
  {
    forall k | 0 <= k < |entries| && entries[k].Directory? && SkippedDirectory(entries[k].name)
      ensures Walk(dir, entries) == Walk(dir, entries[..k]) + Walk(dir, entries[k + 1..])
    {
      assert entries == entries[..k] + ([entries[k]] + entries[k + 1..]);
      WalkConcat(dir, entries[..k], [entries[k]] + entries[k + 1..]);
      assert ([entries[k]] + entries[k + 1..])[1..] == entries[k + 1..];
    }
  }

  /** Every visited file is at a path below the directory walked. */
  lemma {:induction false} WalkUnder(dir: string, entries: seq<DirEntry>)
    ensures forall f :: f in Walk(dir, entries) ==> StartsWith(f.path, dir + "/")
    decreases entries
  {
    if entries != [] {
      WalkEntryUnder(dir, entries[0]);
      WalkUnder(dir, entries[1..]);
    }
  }

  lemma {:induction false} WalkEntryUnder(dir: string, entry: DirEntry)
    ensures forall f :: f in WalkEntry(dir, entry) ==> StartsWith(f.path, dir + "/")
    decreases entry
  {
    if entry.Directory? && !SkippedDirectory(entry.name) {
      var sub := JoinPath(dir, entry.name);
      WalkUnder(sub, entry.entries);
      forall f | f in WalkEntry(dir, entry) ensures StartsWith(f.path, dir + "/") {
        assert StartsWith(f.path, sub + "/");
        assert f.path[..|dir| + 1] == (sub + "/")[..|dir| + 1];
      }
    }
  }

  function RepoScope(projectName: string): string {
    "@" + projectName
  }

  /** `content.replace(/@repo\//g, `${repoScope}/`)`. */
  function ScopedContent(content: string, projectName: string): string {
    ReplaceAll(content, "@repo/", RepoScope(projectName) + "/")
  }

  /** A readable file whose extension is one of the source and style extensions. */
  predicate Eligible(file: SourceFile) {
    ExtName(file.name) in AllowedExtensions && file.content.Some?
  }

  /** The new content of a file, when it is one to rewrite and the rewrite changes it. */
  function RewriteOf(file: SourceFile, projectName: string): Option<string> {
    if Eligible(file)
       && ScopedContent(file.content.value, projectName) != file.content.value
    then Some(ScopedContent(file.content.value, projectName))
    else None
  }

  /** The writes the walk performs, in the order it visits the files. */
  function Rewrites(files: seq<SourceFile>, projectName: string): seq<(string, string)> {
    if files == [] then [] else WriteOf(files[0], projectName) + Rewrites(files[1..], projectName)
  }

  /** The write one file gets: none, or its path with the new content. */
  function WriteOf(file: SourceFile, projectName: string): seq<(string, string)> {
    if RewriteOf(file, projectName).Some? then [(file.path, RewriteOf(file, projectName).value)] else []
  }

  /** `replaceRepoReferences`: every visited file that changes is written, and counted in
      `filesUpdated`. The walk does not depend on the writes (they change contents, not the
      directory structure), so the files are listed first and then processed in walk order. */
  method ReplaceRepoReferences(repoRoot: string, packages: Option<seq<DirEntry>>, tooling: Option<seq<DirEntry>>,
                               apps: Option<seq<DirEntry>>, projectName: string)
    returns (writes: seq<(string, string)>, filesUpdated: nat)
    ensures writes == Rewrites(SearchedFiles(repoRoot, packages, tooling, apps), projectName)
    ensures filesUpdated == |writes|
  {
    writes, filesUpdated := ProcessFiles(SearchedFiles(repoRoot, packages, tooling, apps), projectName);
  }

  /** The per-file step of `processDirectory` over the visited files, in order. */
  method ProcessFiles(files: seq<SourceFile>, projectName: string)
    returns (writes: seq<(string, string)>, filesUpdated: nat)
    ensures writes == Rewrites(files, projectName)
    ensures filesUpdated == |writes|
  {
    writes := [];
    filesUpdated := 0;
    var i := 0;
    while i < |files|
      invariant 0 <= i <= |files|
      invariant writes == Rewrites(files[..i], projectName)
      invariant filesUpdated == |writes|
    {
      var write := ProcessFile(files[i], projectName);
      RewritesSnoc(files[..i], files[i], projectName);
      assert files[..i + 1] == files[..i] + [files[i]];
      if write != [] {
        writes := writes + write;
        filesUpdated := filesUpdated + 1;
      }
      i := i + 1;
    }
    assert files[..i] == files;
  }

  lemma {:induction false} RewritesSnoc(files: seq<SourceFile>, file: SourceFile, projectName: string)
    ensures Rewrites(files + [file], projectName) == Rewrites(files, projectName) + WriteOf(file, projectName)
  {
    if files == [] {
      assert [] + [file] == [file];
    } else {
      assert (files + [file])[1..] == files[1..] + [file];
      RewritesSnoc(files[1..], file, projectName);
    }
  }

  /** One file of the walk: read it if its extension is allowed, rewrite the scope, and
      write it back only when that changed it. */
  method ProcessFile(file: SourceFile, projectName: string) returns (write: seq<(string, string)>)
    ensures write == WriteOf(file, projectName)
    ensures |write| <= 1
  {
    write := [];
    if Eligible(file) {
      var content := file.content.value;
      var updated := ScopedContent(content, projectName);
      if updated != content {
        write := [(file.path, updated)];
      }
    }
  }

  /** A file is rewritten exactly when it has an allowed extension, can be read and mentions
      `@repo/`, and the project is not itself called `repo`. */
  lemma RewriteWhen(file: SourceFile, projectName: string)
    ensures RewriteOf(file, projectName).Some? <==>
      ExtName(file.name) in AllowedExtensions && file.content.Some?
      && Contains(file.content.value, "@repo/") && projectName != "repo"
  {
    if file.content.Some? {
      ReplaceAllChanges(file.content.value, "@repo/", RepoScope(projectName) + "/");
      if projectName == "repo" {
        assert RepoScope(projectName) + "/" == "@repo/";
      } else {
        assert RepoScope(projectName) + "/" != "@repo/" by {
          if |projectName| == 4 {
            var k :| 0 <= k < 4 && projectName[k] != "repo"[k];
            assert (RepoScope(projectName) + "/")[k + 1] == projectName[k];
          }
        }
      }
    }
  }

  /** Every write goes to a visited file, and at most one per file. */
  lemma {:induction false} RewritesFromFiles(files: seq<SourceFile>, projectName: string)
    ensures |Rewrites(files, projectName)| <= |files|
    ensures forall w :: w in Rewrites(files, projectName) ==>
      exists f :: f in files && f.path == w.0 && RewriteOf(f, projectName) == Some(w.1)
  {
    if files != [] {
      RewritesFromFiles(files[1..], projectName);
      forall w | w in Rewrites(files, projectName)
        ensures exists f :: f in files && f.path == w.0 && RewriteOf(f, projectName) == Some(w.1)
      {
        if w !in Rewrites(files[1..], projectName) {
          assert files[0] in files;
        } else {
          var f :| f in files[1..] && f.path == w.0 && RewriteOf(f, projectName) == Some(w.1);
          assert f in files;
        }
      }
    }
  }

  // The `.gitignore` edit.

  const WranglerConfig := "wrangler.jsonc"

  /** A line naming the wrangler configuration, with any surrounding white space. */
  predicate IsWranglerLine(line: string) {
    Trim(line) == WranglerConfig
  }

  /** The `filter` of the lines: those whose trimmed text is not `wrangler.jsonc`. */
  function KeptLines(lines: seq<string>): (r: seq<string>)
    ensures |r| <= |lines|
  {
    if lines == [] then []
    else (if !IsWranglerLine(lines[0]) then [lines[0]] else []) + KeptLines(lines[1..])
  }

  /** `removeWranglerFromGitignore`: the content to write back, or `None` when the file is
      missing or no line was removed (the file is then not written). */
  function GitignoreEdit(file: Option<string>): Option<string> {
    if file.None? then None
    else
      var lines := Split(file.value, "\n");
      var kept := KeptLines(lines);
      if |kept| != |lines| then Some(Join(kept, "\n")) else None
  }

  /** Every kept line is one of the lines, and none of them names the configuration. */
  lemma {:induction false} KeptLinesFrom(lines: seq<string>)
    ensures forall k :: 0 <= k < |KeptLines(lines)| ==>
      KeptLines(lines)[k] in lines && !IsWranglerLine(KeptLines(lines)[k])
  {
    if lines != [] {
      KeptLinesFrom(lines[1..]);
      var head := if !IsWranglerLine(lines[0]) then [lines[0]] else [];
      forall k | 0 <= k < |KeptLines(lines)|
        ensures KeptLines(lines)[k] in lines && !IsWranglerLine(KeptLines(lines)[k])
      {
        if k >= |head| {
          assert KeptLines(lines)[k] == KeptLines(lines[1..])[k - |head|];
        }
      }
    }
  }

  /** The filter works line by line, in order. */
  lemma {:induction false} KeptLinesConcat(a: seq<string>, b: seq<string>)
    ensures KeptLines(a + b) == KeptLines(a) + KeptLines(b)
  {
    if a == [] {
      assert a + b == b;
    } else {
      assert (a + b)[0] == a[0];
      assert (a + b)[1..] == a[1..] + b;
      KeptLinesConcat(a[1..], b);
    }
  }

  /** Only `wrangler.jsonc` lines are dropped: keeping every line means there was none. */
  lemma {:induction false} KeptAllIffNone(lines: seq<string>)
    ensures |KeptLines(lines)| == |lines| <==> forall k :: 0 <= k < |lines| ==> !IsWranglerLine(lines[k])
  {
    if lines != [] {
      KeptAllIffNone(lines[1..]);
      assert forall k :: 1 <= k < |lines| ==> lines[k] == lines[1..][k - 1];
    }
  }

  /** The file is written exactly when it exists and has a `wrangler.jsonc` line; the lines of
      what is written are the kept lines, in their order. When every line is dropped the file
      is emptied, and it then reads back as one empty line rather than as no line. */
  lemma GitignoreEditLines(file: Option<string>)
    ensures GitignoreEdit(file).Some? <==> (file.Some? &&
      exists k :: 0 <= k < |Split(file.value, "\n")| && IsWranglerLine(Split(file.value, "\n")[k]))
    ensures GitignoreEdit(file).Some? && KeptLines(Split(file.value, "\n")) != [] ==>
      Split(GitignoreEdit(file).value, "\n") == KeptLines(Split(file.value, "\n"))
    ensures GitignoreEdit(file).Some? && KeptLines(Split(file.value, "\n")) == [] ==>
      GitignoreEdit(file).value == ""
  {
    if file.Some? {
      var lines := Split(file.value, "\n");
      KeptAllIffNone(lines);
      var kept := KeptLines(lines);
      if |kept| != |lines| {
        SplitCharPieces(file.value, '\n');
        if kept != [] {
          KeptLinesFrom(lines);
          assert forall k :: 0 <= k < |kept| ==> '\n' !in kept[k];
          SplitJoinChar(kept, '\n');
        }
      }
    }
  }
}
