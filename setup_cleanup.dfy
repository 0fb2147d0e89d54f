/** The cleanup mode of the setup script (`cleanupResources`): find the project's D1 database,
    R2 bucket and KV namespace among the listed ones, report them, and after two confirmations
    delete the ones found plus the workflow, counting the deletions that succeeded. The
    listings, the prompt answers and whether each `wrangler ... delete` succeeds are inputs. */
module SetupCleanup {
  import opened Wrappers
  import opened Strings
  import SetupNames

  /** An entry of `wrangler d1 list --json`. */
  datatype Database = Database(name: string, uuid: string)

  /** An entry of `wrangler kv namespace list`. */
  datatype Namespace = Namespace(id: string, title: string)

  /** A deletion the cleanup attempts. */
  datatype Resource =
    | D1(name: string)
    | R2(name: string)
    | Kv(id: string, title: string)
    | WorkflowRes(name: string)

  /** `databases.find((db) => db.name === name)`: the first database with that name. */
  function FindDatabase(databases: seq<Database>, name: string): (r: Option<Database>)
    ensures r.Some? ==> r.value in databases && r.value.name == name
    ensures r.None? ==> forall d :: d in databases ==> d.name != name
    ensures r.Some? ==> exists i :: (0 <= i < |databases| && databases[i] == r.value
      && forall j :: 0 <= j < i ==> databases[j].name != name)
  {
    if databases == [] then None
    else if databases[0].name == name then Some(databases[0])
    else
      var r := FindDatabase(databases[1..], name);
      if r.Some? then
        var i :| 0 <= i < |databases[1..]| && databases[1..][i] == r.value
          && forall j :: 0 <= j < i ==> databases[1..][j].name != name;
        assert databases[i + 1] == r.value;
        assert forall j :: 1 <= j <= i ==> databases[j] == databases[1..][j - 1];
        r
      else r
  }

  /** `kvNamespaces.find((kv) => kv.title === title)`: the first namespace with that title. */
  function FindNamespace(namespaces: seq<Namespace>, title: string): (r: Option<Namespace>)
    ensures r.Some? ==> r.value in namespaces && r.value.title == title
    ensures r.None? ==> forall n :: n in namespaces ==> n.title != title
    ensures r.Some? ==> exists i :: (0 <= i < |namespaces| && namespaces[i] == r.value
      && forall j :: 0 <= j < i ==> namespaces[j].title != title)
  {
    if namespaces == [] then None
    else if namespaces[0].title == title then Some(namespaces[0])
    else
      var r := FindNamespace(namespaces[1..], title);
      if r.Some? then
        var i :| 0 <= i < |namespaces[1..]| && namespaces[1..][i] == r.value
          && forall j :: 0 <= j < i ==> namespaces[1..][j].title != title;
        assert namespaces[i + 1] == r.value;
        assert forall j :: 1 <= j <= i ==> namespaces[j] == namespaces[1..][j - 1];
        r
      else r
  }

  /** What the scan found for a project: the expected names and the matches. */
  datatype Plan = Plan(names: SetupNames.ResourceNames, db: Option<Database>, bucket: bool, kv: Option<Namespace>)

  function PlanFor(projectName: string, databases: seq<Database>, buckets: seq<string>,
                   namespaces: seq<Namespace>): Plan
  {
    var names := SetupNames.NamesFor(projectName);
    Plan(names, FindDatabase(databases, names.db), names.bucket in buckets, FindNamespace(namespaces, names.kv))
  }

  /** The matched resources, in the order they are deleted. */
  function Targets(plan: Plan): (r: seq<Resource>)
    ensures |r| <= 3
  {
    (if plan.db.Some? then [D1(plan.names.db)] else [])
    + (if plan.bucket then [R2(plan.names.bucket)] else [])
    + (if plan.kv.Some? then [Kv(plan.kv.value.id, plan.names.kv)] else [])
  }

  /** How many of the resources are deleted successfully. */
  function Succeeded(resources: seq<Resource>, deletes: Resource -> bool): (n: nat)
    ensures n <= |resources|
  {
    if resources == [] then 0
    else (if deletes(resources[0]) then 1 else 0) + Succeeded(resources[1..], deletes)
  }

  /** How the cleanup ends. */
  datatype Outcome =
    | NotAuthenticated          // `wrangler whoami` failed or said so: exit(1)
    | NothingFound              // exit(0) before any prompt to delete
    | Cancelled                 // one of the two confirmations was answered no: exit(0)
    | Cleaned(deletedCount: nat)

  /** The login check: no output, or output saying `not authenticated`. */
  predicate LoggedIn(whoami: Option<string>) {
    whoami.Some? && whoami.value != "" && !Contains(whoami.value, "not authenticated")
  }

  /** What a clack `confirm` prompt returns: `true`, `false`, or the cancel symbol it
      resolves to when the prompt is left with Esc or Ctrl-C. */
  datatype Answer = Yes | No | Aborted

  /** The script's test of an answer, `if (!answer)` or `if (answer)`: the cancel symbol is
      truthy, so it counts as yes. */
  predicate Truthy(a: Answer) {
    a != No
  }

  /** The intended test, which also rules out the cancel symbol (`isCancel`). */
  predicate Consents(a: Answer) {
    a == Yes
  }

  /** The reference outcome of the cleanup, with the answers tested as the script tests them. */
  function ExpectedOutcome(whoami: Option<string>, plan: Plan, confirmed: Answer, reconfirmed: Answer,
                           deletes: Resource -> bool): Outcome
  {
    if !LoggedIn(whoami) then NotAuthenticated
    else if Targets(plan) == [] then NothingFound
    else if !Truthy(confirmed) || !Truthy(reconfirmed) then Cancelled
    else Cleaned(Succeeded(Targets(plan), deletes))
  }

  /** The outcome the two confirmations are meant to give: a cancelled prompt cancels. */
  function IntendedOutcome(whoami: Option<string>, plan: Plan, confirmed: Answer, reconfirmed: Answer,
                           deletes: Resource -> bool): Outcome
  {
    if !LoggedIn(whoami) then NotAuthenticated
    else if Targets(plan) == [] then NothingFound
    else if !Consents(confirmed) || !Consents(reconfirmed) then Cancelled
    else Cleaned(Succeeded(Targets(plan), deletes))
  }

  /** The local configuration files, relative to the repository root. */
  datatype LocalFile = ServerWrangler | DocsWrangler | ServerEnv | RootEnv

  function PathOf(f: LocalFile): string {
    match f
    case ServerWrangler => "apps/server/wrangler.jsonc"
    case DocsWrangler => "apps/docs/wrangler.json"
    case ServerEnv => "apps/server/.env"
    case RootEnv => ".env"
  }

  const LocalFiles: seq<LocalFile> := [ServerWrangler, DocsWrangler, ServerEnv, RootEnv]

  /** The files among `paths` that exist, in order. */
  function Existing(paths: seq<LocalFile>, exists_: LocalFile -> bool): seq<LocalFile> {
    if paths == [] then []
    else (if exists_(paths[0]) then [paths[0]] else []) + Existing(paths[1..], exists_)
  }

  const Esc: char := '\U{1B}'

  /** The heading of the resource listing, with the project name in it. */
  function FoundHeading(projectName: string): (r: string)
    ensures OccursAt(r, "'" + projectName + "'", 34)
  {
    var prefix := "\n" + [Esc] + "[33mResources found for project ";
    assert |prefix| == 34;
    var r := prefix + "'" + projectName + "'" + ":" + [Esc] + "[0m";
    assert r[34..34 + |projectName| + 2] == "'" + projectName + "'";
    r
  }

  /** The heading as line 803 writes it: a double-quoted string, so `${projectName}` is
      printed as those fourteen characters rather than replaced by the name. */
  function FoundHeadingAsWritten(projectName: string): (r: string)
    ensures OccursAt(r, "'${projectName}'", 34)
  {
    var prefix := "\n" + [Esc] + "[33mResources found for project ";
    assert |prefix| == 34;
    var r := prefix + "'${projectName}'" + ":" + [Esc] + "[0m";
    assert r[34..34 + 16] == "'${projectName}'";
    r
  }

  /** As written, the heading is the same for every project, so it names none of them. */
  lemma HeadingDiscrepancy()
    ensures FoundHeadingAsWritten("shop") == FoundHeadingAsWritten("blog")
    ensures FoundHeading("shop") != FoundHeading("blog")
  {
    var a := FoundHeading("shop");
    var b := FoundHeading("blog");
    assert a[35] == 's' && b[35] == 'b';
  }

  /** The lines of the resource listing: the heading as line 803 prints it, then one bullet per
      resource, with the database's uuid or the namespace's id when found. */
  function Listing(projectName: string, plan: Plan): (r: seq<string>)
    ensures |r| == 5 && r[0] == FoundHeadingAsWritten(projectName)
  {
    var notFound := " " + [Esc] + "[90m(not found)" + [Esc] + "[0m";
    [ FoundHeadingAsWritten(projectName),
      "  • D1 Database: " + plan.names.db + (if plan.db.Some? then " (" + plan.db.value.uuid + ")" else notFound),
      "  • R2 Bucket: " + plan.names.bucket + (if plan.bucket then "" else notFound),
      "  • KV Namespace: " + plan.names.kv + (if plan.kv.Some? then " (" + plan.kv.value.id + ")" else notFound),
      "  • Workflow: " + plan.names.workflow + " " + [Esc] + "[90m(will attempt deletion)" + [Esc] + "[0m" ]
  }

  /** `cleanupResources`, following its statements: `foundResources` is raised for each match,
      and `deletedCount` is bumped for each matched resource whose deletion succeeds. The
      workflow deletion is attempted, but its result is not counted. The three prompts are
      tested for truthiness only, so a cancelled prompt counts as yes. */
  method Cleanup(whoami: Option<string>, projectInput: string, databases: seq<Database>, buckets: seq<string>,
                 namespaces: seq<Namespace>, confirmed: Answer, reconfirmed: Answer, deleteLocal: Answer,
                 deletes: Resource -> bool, fileExists: LocalFile -> bool)
    returns (outcome: Outcome, listing: seq<string>, attempted: seq<Resource>, removedFiles: seq<LocalFile>)
    ensures var projectName := SetupNames.SanitizeResourceName(projectInput);
      var plan := PlanFor(projectName, databases, buckets, namespaces);
      outcome == ExpectedOutcome(whoami, plan, confirmed, reconfirmed, deletes)
      && listing == (if LoggedIn(whoami) then Listing(projectName, plan) else [])
      && (outcome.Cleaned? ==> attempted == Targets(plan) + [WorkflowRes(plan.names.workflow)])
      && (!outcome.Cleaned? ==> attempted == [])
      && removedFiles == (if outcome.Cleaned? && Truthy(deleteLocal) then Existing(LocalFiles, fileExists) else [])
  {
    listing, attempted, removedFiles := [], [], [];
    if !LoggedIn(whoami) {
      return NotAuthenticated, listing, attempted, removedFiles;
    }
    var projectName := SetupNames.SanitizeResourceName(projectInput);
    var names := SetupNames.NamesFor(projectName);
    var matchingDb := FindDatabase(databases, names.db);
    var matchingBucket := names.bucket in buckets;
    var matchingKv := FindNamespace(namespaces, names.kv);
    var plan := Plan(names, matchingDb, matchingBucket, matchingKv);
    assert plan == PlanFor(projectName, databases, buckets, namespaces);
    listing := Listing(projectName, plan);
    ghost var expected := ExpectedOutcome(whoami, plan, confirmed, reconfirmed, deletes);

    var foundResources := FoundAny(plan);
    if !foundResources {
      assert expected == NothingFound;
      return NothingFound, listing, attempted, removedFiles;
    }
    if !Truthy(confirmed) || !Truthy(reconfirmed) {
      assert expected == Cancelled;
      return Cancelled, listing, attempted, removedFiles;
    }

    var deletedCount;
    attempted, deletedCount := DeleteResources(plan, deletes);
    if Truthy(deleteLocal) {
      removedFiles := RemoveLocalFiles(fileExists);
    }
    outcome := Cleaned(deletedCount);
    assert expected == outcome;
  }

  /** The `foundResources` flag: raised for each match. */
  method FoundAny(plan: Plan) returns (foundResources: bool)
    ensures foundResources <==> Targets(plan) != []
  {
    foundResources := false;
    if plan.db.Some? {
      foundResources := true;
    }
    if plan.bucket {
      foundResources := true;
    }
    if plan.kv.Some? {
      foundResources := true;
    }
  }

  /** The deletion step: each matched resource is deleted in turn and counted when that
      succeeds; then the workflow deletion is attempted and its result dropped. */
  method DeleteResources(plan: Plan, deletes: Resource -> bool) returns (attempted: seq<Resource>, deletedCount: nat)
    ensures attempted == Targets(plan) + [WorkflowRes(plan.names.workflow)]
    ensures deletedCount == Succeeded(Targets(plan), deletes)
  {
    attempted := [];
    deletedCount := 0;
    if plan.db.Some? {
      attempted := attempted + [D1(plan.names.db)];
      if deletes(D1(plan.names.db)) {
        deletedCount := deletedCount + 1;
      }
    }
    assert deletedCount == Succeeded(attempted, deletes);
    if plan.bucket {
      SucceededSnoc(attempted, R2(plan.names.bucket), deletes);
      attempted := attempted + [R2(plan.names.bucket)];
      if deletes(R2(plan.names.bucket)) {
        deletedCount := deletedCount + 1;
      }
    }
    if plan.kv.Some? {
      SucceededSnoc(attempted, Kv(plan.kv.value.id, plan.names.kv), deletes);
      attempted := attempted + [Kv(plan.kv.value.id, plan.names.kv)];
      if deletes(Kv(plan.kv.value.id, plan.names.kv)) {
        deletedCount := deletedCount + 1;
      }
    }
    assert attempted == Targets(plan);
    attempted := attempted + [WorkflowRes(plan.names.workflow)];
  }

  /** The local-file step: each of the four files is unlinked when it exists. */
  method RemoveLocalFiles(fileExists: LocalFile -> bool) returns (removed: seq<LocalFile>)
    ensures removed == Existing(LocalFiles, fileExists)
  {
    removed := [];
    if fileExists(ServerWrangler) {
      removed := removed + [ServerWrangler];
    }
    if fileExists(DocsWrangler) {
      removed := removed + [DocsWrangler];
    }
    if fileExists(ServerEnv) {
      removed := removed + [ServerEnv];
    }
    if fileExists(RootEnv) {
      removed := removed + [RootEnv];
    }
    ExistingOfFour(fileExists);
  }

  lemma ExistingOfFour(fileExists: LocalFile -> bool)
    ensures Existing(LocalFiles, fileExists) ==
      (if fileExists(ServerWrangler) then [ServerWrangler] else [])
      + (if fileExists(DocsWrangler) then [DocsWrangler] else [])
      + (if fileExists(ServerEnv) then [ServerEnv] else [])
      + (if fileExists(RootEnv) then [RootEnv] else [])
  {
    var t := LocalFiles;
    assert t[1..] == [DocsWrangler, ServerEnv, RootEnv];
    assert t[1..][1..] == [ServerEnv, RootEnv];
    assert t[1..][1..][1..] == [RootEnv];
    assert t[1..][1..][1..][1..] == [];
  }

  /** The local step removes exactly the configuration files that exist. */
  lemma LocalFilesRemoved(fileExists: LocalFile -> bool)
    ensures forall f :: f in Existing(LocalFiles, fileExists) <==> fileExists(f)
  {
    ExistingOfFour(fileExists);
    forall f ensures f in Existing(LocalFiles, fileExists) <==> fileExists(f) {
      match f
      case ServerWrangler =>
      case DocsWrangler =>
      case ServerEnv =>
      case RootEnv =>
    }
  }

  lemma {:induction false} SucceededSnoc(resources: seq<Resource>, x: Resource, deletes: Resource -> bool)
    ensures Succeeded(resources + [x], deletes) == Succeeded(resources, deletes) + (if deletes(x) then 1 else 0)
  {
    if resources == [] {
      assert [] + [x] == [x];
    } else {
      assert (resources + [x])[1..] == resources[1..] + [x];
      SucceededSnoc(resources[1..], x, deletes);
    }
  }

  /** Resources count as found exactly when the database, the bucket or the namespace
      matched; the workflow is never among them. */
  lemma FoundIffMatched(projectName: string, databases: seq<Database>, buckets: seq<string>, namespaces: seq<Namespace>)
    ensures var plan := PlanFor(projectName, databases, buckets, namespaces);
      (Targets(plan) != [] <==>
        (exists d :: d in databases && d.name == projectName + "-db")
        || projectName + "-bucket" in buckets
        || (exists n :: n in namespaces && n.title == projectName + "-kv"))
      && forall r :: r in Targets(plan) ==> !r.WorkflowRes?
  {
  }

  /** `deletedCount` counts successful deletions of matched resources only: at most three,
      all three when every deletion succeeds, and unaffected by how the workflow deletion
      goes. */
  lemma DeletedCountBounds(whoami: Option<string>, plan: Plan, confirmed: Answer, reconfirmed: Answer,
                           deletes: Resource -> bool, other: Resource -> bool)
    requires forall r: Resource :: !r.WorkflowRes? ==> deletes(r) == other(r)
    ensures ExpectedOutcome(whoami, plan, confirmed, reconfirmed, deletes)
         == ExpectedOutcome(whoami, plan, confirmed, reconfirmed, other)
    ensures ExpectedOutcome(whoami, plan, confirmed, reconfirmed, deletes).Cleaned? ==>
      var n := ExpectedOutcome(whoami, plan, confirmed, reconfirmed, deletes).deletedCount;
      n <= |Targets(plan)| <= 3
      && ((forall r :: r in Targets(plan) ==> deletes(r)) ==> n == |Targets(plan)|)
  {
    var t := Targets(plan);
    SucceededAgree(t, deletes, other);
    if forall r :: r in t ==> deletes(r) {
      SucceededAll(t, deletes);
    }
  }

  lemma {:induction false} SucceededAgree(resources: seq<Resource>, deletes: Resource -> bool, other: Resource -> bool)
    requires forall r :: r in resources ==> deletes(r) == other(r)
    ensures Succeeded(resources, deletes) == Succeeded(resources, other)
  {
    if resources != [] {
      assert resources[0] in resources;
      assert forall r :: r in resources[1..] ==> r in resources;
      SucceededAgree(resources[1..], deletes, other);
    }
  }

  lemma {:induction false} SucceededAll(resources: seq<Resource>, deletes: Resource -> bool)
    requires forall r :: r in resources ==> deletes(r)
    ensures Succeeded(resources, deletes) == |resources|
  {
    if resources != [] {
      assert resources[0] in resources;
      assert forall r :: r in resources[1..] ==> r in resources;
      SucceededAll(resources[1..], deletes);
    }
  }

  /** Nothing is deleted when either confirmation is answered no. */
  lemma NoDeletionWithoutConsent(whoami: Option<string>, plan: Plan, confirmed: Answer, reconfirmed: Answer,
                                 deletes: Resource -> bool)
    requires confirmed == No || reconfirmed == No
    ensures !ExpectedOutcome(whoami, plan, confirmed, reconfirmed, deletes).Cleaned?
  {
  }

  /** As written, deletion goes ahead exactly when something was found and neither answer is
      no; in particular two cancelled prompts delete every matched resource. */
  lemma CancelledPromptsDelete(whoami: Option<string>, plan: Plan, confirmed: Answer, reconfirmed: Answer,
                               deletes: Resource -> bool)
    ensures ExpectedOutcome(whoami, plan, confirmed, reconfirmed, deletes).Cleaned?
            <==> LoggedIn(whoami) && Targets(plan) != [] && confirmed != No && reconfirmed != No
    ensures LoggedIn(whoami) && Targets(plan) != [] ==>
            ExpectedOutcome(whoami, plan, Aborted, Aborted, deletes) == Cleaned(Succeeded(Targets(plan), deletes))
  {
  }

  /** As intended, deletion needs two explicit yes answers; otherwise the intended outcome
      agrees with the written one. */
  lemma IntendedNeedsConsent(whoami: Option<string>, plan: Plan, confirmed: Answer, reconfirmed: Answer,
                             deletes: Resource -> bool)
    ensures IntendedOutcome(whoami, plan, confirmed, reconfirmed, deletes).Cleaned?
            <==> LoggedIn(whoami) && Targets(plan) != [] && confirmed == Yes && reconfirmed == Yes
    ensures confirmed != Aborted && reconfirmed != Aborted ==>
            IntendedOutcome(whoami, plan, confirmed, reconfirmed, deletes)
            == ExpectedOutcome(whoami, plan, confirmed, reconfirmed, deletes)
    ensures LoggedIn(whoami) && Targets(plan) != [] && (confirmed == Aborted || reconfirmed == Aborted) ==>
            IntendedOutcome(whoami, plan, confirmed, reconfirmed, deletes) == Cancelled
  {
  }
}
