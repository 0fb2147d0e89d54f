/** The admin router's procedures, after its admin gate has let the caller through: the
    input schemas, what each procedure asks of the user repository (with the caller's own id
    where the source passes it), and the guard of the three bulk operations. The repository
    and the workflow binding are parameters; the calls made are returned as a trace. */
module AdminRouter {
  import opened Wrappers
  import opened Values
  import opened Validation
  import opened Http
  import WorkflowSchemas

  const Roles: seq<string> := ["user", "admin"]
  const Statuses: seq<string> := ["verified", "unverified", "banned"]

  /** The `getUsers` input once defaults are applied. */
  datatype UsersQuery = UsersQuery(
    page: int, limit: int, search: Option<string>, role: Option<string>, status: Option<string>)

  /** A field that is absent, or an integer between `lo` and `hi` within the safe range. */
  predicate IntFieldOk(v: Option<Value>, lo: int, hi: int) {
    v.None? || (v.value.Num? && IsInteger(v.value.n) && lo as real <= v.value.n <= hi as real
                && -MaxSafeInteger as real <= v.value.n <= MaxSafeInteger as real)
  }

  /** A field that is absent or one of `options`. */
  predicate EnumFieldOk(v: Option<Value>, options: seq<string>) {
    v.None? || (v.value.Str? && v.value.s in options)
  }

  predicate StringFieldOk(v: Option<Value>) {
    v.None? || v.value.Str?
  }

  predicate DateFieldOk(v: Option<Value>) {
    v.None? || v.value.Date?
  }

  predicate BoolFieldOk(v: Option<Value>) {
    v.None? || v.value.Bool?
  }

  /** A field that is absent, or a string the address check accepts. */
  predicate EmailFieldOk(v: Option<Value>, isEmail: string -> bool) {
    v.None? || (v.value.Str? && isEmail(v.value.s))
  }

  /** What a present field of the right type carries; `None` for an absent one. */
  function StrOf(v: Option<Value>): Option<string> {
    if v.Some? && v.value.Str? then Some(v.value.s) else None
  }

  function BoolOf(v: Option<Value>): Option<bool> {
    if v.Some? && v.value.Bool? then Some(v.value.b) else None
  }

  function DateOf(v: Option<Value>): Option<int> {
    if v.Some? && v.value.Date? then Some(v.value.time) else None
  }

  function CheckRole(v: Option<Value>): Checked<string> { CheckEnum(v, Roles) }
  function CheckStatus(v: Option<Value>): Checked<string> { CheckEnum(v, Statuses) }

  /** The `getUsers` input schema: `page` an integer >= 0 defaulting to 0, `limit` an integer
      in [1, 100] defaulting to 10, and the optional `search`, `role` and `status` filters. */
  function ParseUsersQuery(v: Value): (r: Checked<UsersQuery>)
    ensures r.Ok? <==> (v.Obj?
      && IntFieldOk(Get(v.fields, "page"), 0, MaxSafeInteger) && IntFieldOk(Get(v.fields, "limit"), 1, 100)
      && StringFieldOk(Get(v.fields, "search"))
      && EnumFieldOk(Get(v.fields, "role"), Roles) && EnumFieldOk(Get(v.fields, "status"), Statuses))
    ensures r.Ok? && Get(v.fields, "page").None? ==> r.value.page == 0
    ensures r.Ok? && Get(v.fields, "limit").None? ==> r.value.limit == 10
    ensures r.Ok? ==> 0 <= r.value.page && 1 <= r.value.limit <= 100
    ensures r.Ok? && Get(v.fields, "page").Some? ==> r.value.page as real == Get(v.fields, "page").value.n
    ensures r.Ok? && Get(v.fields, "limit").Some? ==> r.value.limit as real == Get(v.fields, "limit").value.n
    ensures r.Ok? ==> (r.value.role.Some? ==> r.value.role.value in Roles)
                      && (r.value.status.Some? ==> r.value.status.value in Statuses)
    ensures r.Ok? ==> r.value.search == StrOf(Get(v.fields, "search"))
                      && r.value.role == StrOf(Get(v.fields, "role"))
                      && r.value.status == StrOf(Get(v.fields, "status"))
  {
    if !v.Obj? then Fail(InvalidType("object", Some(v)))
    else
      var page := CheckIntInRange(Get(v.fields, "page"), 0, MaxSafeInteger, 0);
      var limit := CheckIntInRange(Get(v.fields, "limit"), 1, 100, 10);
      var search := OptString(Get(v.fields, "search"));
      var role := OptRole(Get(v.fields, "role"));
      var status := OptStatus(Get(v.fields, "status"));
      if page.Ok? && limit.Ok? && search.Ok? && role.Ok? && status.Ok? then
        Ok(UsersQuery(page.value, limit.value, search.value, role.value, status.value))
      else
        Err(Under(Key("page"), Problems(page)) + Under(Key("limit"), Problems(limit))
            + Under(Key("search"), Problems(search)) + Under(Key("role"), Problems(role))
            + Under(Key("status"), Problems(status)))
  }

  /** `z.object({userId: z.string()})`, the input of `getUser`, `unbanUser` and `deleteUser`. */
  function ParseUserId(v: Value): (r: Checked<string>)
    ensures r.Ok? <==> v.Obj? && exists id :: Get(v.fields, "userId") == Some(Str(id))
    ensures r.Ok? ==> Get(v.fields, "userId") == Some(Str(r.value))
  {
    if !v.Obj? then Fail(InvalidType("object", Some(v)))
    else
      var id := CheckString(Get(v.fields, "userId"));
      if id.Ok? then Ok(id.value) else Err(Under(Key("userId"), id.error))
  }

  /** The `data` of `updateUser`: every field optional. */
  datatype UserPatch = UserPatch(
    name: Option<string>, email: Option<string>, role: Option<string>, banned: Option<bool>,
    banReason: Option<string>, banExpires: Option<int>, verified: Option<bool>)

  /** Every field of an `updateUser` patch is absent or of its type. */
  predicate PatchOk(f: seq<(string, Value)>, isEmail: string -> bool) {
    StringFieldOk(Get(f, "name")) && EmailFieldOk(Get(f, "email"), isEmail) && EnumFieldOk(Get(f, "role"), Roles)
    && BoolFieldOk(Get(f, "banned")) && StringFieldOk(Get(f, "banReason")) && DateFieldOk(Get(f, "banExpires"))
    && BoolFieldOk(Get(f, "verified"))
  }

  /** The patch a well-typed `data` object stands for, field by field. */
  function PatchOf(f: seq<(string, Value)>): UserPatch {
    UserPatch(StrOf(Get(f, "name")), StrOf(Get(f, "email")), StrOf(Get(f, "role")), BoolOf(Get(f, "banned")),
              StrOf(Get(f, "banReason")), DateOf(Get(f, "banExpires")), BoolOf(Get(f, "verified")))
  }

  /** `z.string().optional()`. */
  function OptString(v: Option<Value>): (r: Checked<Option<string>>)
    ensures r.Ok? <==> StringFieldOk(v)
    ensures r.Ok? ==> r.value == StrOf(v)
  {
    Optional(v, CheckString)
  }

  /** `z.boolean().optional()`. */
  function OptBool(v: Option<Value>): (r: Checked<Option<bool>>)
    ensures r.Ok? <==> BoolFieldOk(v)
    ensures r.Ok? ==> r.value == BoolOf(v)
  {
    Optional(v, CheckBoolean)
  }

  /** `z.date().optional()`. */
  function OptDate(v: Option<Value>): (r: Checked<Option<int>>)
    ensures r.Ok? <==> DateFieldOk(v)
    ensures r.Ok? ==> r.value == DateOf(v)
  {
    Optional(v, CheckDate)
  }

  /** `z.enum(["user", "admin"]).optional()`. */
  function OptRole(v: Option<Value>): (r: Checked<Option<string>>)
    ensures r.Ok? <==> EnumFieldOk(v, Roles)
    ensures r.Ok? ==> r.value == StrOf(v)
  {
    Optional(v, CheckRole)
  }

  /** `z.enum(["verified", "unverified", "banned"]).optional()`. */
  function OptStatus(v: Option<Value>): (r: Checked<Option<string>>)
    ensures r.Ok? <==> EnumFieldOk(v, Statuses)
    ensures r.Ok? ==> r.value == StrOf(v)
  {
    Optional(v, CheckStatus)
  }

  /** `z.string().email().optional()`. */
  function OptionalEmail(v: Option<Value>, isEmail: string -> bool): (r: Checked<Option<string>>)
    ensures r.Ok? <==> EmailFieldOk(v, isEmail)
    ensures r.Ok? ==> r.value == StrOf(v)
  {
    Optional(v, (x: Option<Value>) => CheckEmail(x, isEmail, InvalidEmailAddress))
  }

  /** The issues of each patch field, under its key, in schema order. */
  function PatchIssues(f: seq<(string, Value)>, isEmail: string -> bool): seq<Issue> {
    Under(Key("name"), Problems(OptString(Get(f, "name"))))
    + Under(Key("email"), Problems(OptionalEmail(Get(f, "email"), isEmail)))
    + Under(Key("role"), Problems(OptRole(Get(f, "role"))))
    + Under(Key("banned"), Problems(OptBool(Get(f, "banned"))))
    + Under(Key("banReason"), Problems(OptString(Get(f, "banReason"))))
    + Under(Key("banExpires"), Problems(OptDate(Get(f, "banExpires"))))
    + Under(Key("verified"), Problems(OptBool(Get(f, "verified"))))
  }

  /** The `data` schema of `updateUser`: an object whose seven fields are each optional. */
  function ParseUserPatch(v: Option<Value>, isEmail: string -> bool): (r: Checked<UserPatch>)
    ensures r.Ok? <==> v.Some? && v.value.Obj? && PatchOk(v.value.fields, isEmail)
    ensures r.Ok? ==> r.value == PatchOf(v.value.fields)
  {
    if !(v.Some? && v.value.Obj?) then Fail(InvalidType("object", v))
    else
      var f := v.value.fields;
      var name := OptString(Get(f, "name"));
      var email := OptionalEmail(Get(f, "email"), isEmail);
      var role := OptRole(Get(f, "role"));
      var banned := OptBool(Get(f, "banned"));
      var banReason := OptString(Get(f, "banReason"));
      var banExpires := OptDate(Get(f, "banExpires"));
      var verified := OptBool(Get(f, "verified"));
      if name.Ok? && email.Ok? && role.Ok? && banned.Ok? && banReason.Ok? && banExpires.Ok? && verified.Ok? then
        Ok(UserPatch(name.value, email.value, role.value, banned.value, banReason.value, banExpires.value, verified.value))
      else Err(PatchIssues(f, isEmail))
  }

  /** A validated patch has a field exactly where `data` has one, with an accepted address
      and a listed role. */
  lemma PatchKeepsPresence(v: Option<Value>, isEmail: string -> bool)
    requires ParseUserPatch(v, isEmail).Ok?
    ensures var p, f := ParseUserPatch(v, isEmail).value, v.value.fields;
      (p.name.None? <==> Get(f, "name").None?) && (p.email.None? <==> Get(f, "email").None?)
      && (p.role.None? <==> Get(f, "role").None?) && (p.banned.None? <==> Get(f, "banned").None?)
      && (p.banReason.None? <==> Get(f, "banReason").None?) && (p.banExpires.None? <==> Get(f, "banExpires").None?)
      && (p.verified.None? <==> Get(f, "verified").None?)
      && (p.email.Some? ==> isEmail(p.email.value)) && (p.role.Some? ==> p.role.value in Roles)
  {
  }

  datatype BulkAction =
    | BanUsers(reason: Option<string>, expiresAt: Option<int>)
    | DeleteUsers
    | SetRole(role: string)

  /** What a procedure asks of the repository or of the workflow binding. */
  datatype Call =
    | GetUsers(query: UsersQuery)
    | GetUser(userId: string)
    | UpdateUser(userId: string, currentUserId: string, data: UserPatch)
    | BanUser(userId: string, currentUserId: string, reason: Option<string>, expiresAt: Option<int>)
    | UnbanUser(userId: string)
    | DeleteUser(userId: string, currentUserId: string)
    | FilterProtected(userIds: seq<string>, currentUserId: string)
    | Mutate(action: BulkAction, userIds: seq<string>)
    | CreateWorkflow(params: WorkflowSchemas.TriggerRequest)

  /** The outcome of a procedure: its input refused (a `BAD_REQUEST` caused by the zod error),
      a `TRPCError` it throws, its result, or the call it delegates its result to. */
  datatype Answer<+T> =
    | InvalidInput(issues: seq<Issue>)
    | Refused(code: string, message: string)
    | Propagated(thrown: Thrown)
    | Done(value: T)
    | Delegated(call: Call)

  type Input = Value

  function GetUsersProcedure(input: Input): (r: Answer<()>)
    ensures r.Delegated? <==> ParseUsersQuery(input).Ok?
    ensures r.Delegated? ==> r.call == GetUsers(ParseUsersQuery(input).value)
  {
    var q := ParseUsersQuery(input);
    if q.Err? then InvalidInput(q.error) else Delegated(GetUsers(q.value))
  }

  function GetUserProcedure(input: Input): Answer<()> {
    var id := ParseUserId(input);
    if id.Err? then InvalidInput(id.error) else Delegated(GetUser(id.value))
  }

  function UnbanUserProcedure(input: Input): Answer<()> {
    var id := ParseUserId(input);
    if id.Err? then InvalidInput(id.error) else Delegated(UnbanUser(id.value))
  }

  /** `updateUser`: `userId` and `data`, with the caller's id as `currentUserId`. */
  function UpdateUserProcedure(input: Input, caller: string, isEmail: string -> bool): Answer<()> {
    if !input.Obj? then InvalidInput([Issue([], InvalidType("object", Some(input)))])
    else
      var id := CheckString(Get(input.fields, "userId"));
      var data := ParseUserPatch(Get(input.fields, "data"), isEmail);
      if id.Ok? && data.Ok? then Delegated(UpdateUser(id.value, caller, data.value))
      else InvalidInput(Under(Key("userId"), Problems(id)) + Under(Key("data"), Problems(data)))
  }

  /** `banUser`: `userId`, optional `reason` and `expiresAt`, with the caller's id. */
  function BanUserProcedure(input: Input, caller: string): Answer<()> {
    if !input.Obj? then InvalidInput([Issue([], InvalidType("object", Some(input)))])
    else
      var id := CheckString(Get(input.fields, "userId"));
      var reason := OptString(Get(input.fields, "reason"));
      var expiresAt := OptDate(Get(input.fields, "expiresAt"));
      if id.Ok? && reason.Ok? && expiresAt.Ok? then Delegated(BanUser(id.value, caller, reason.value, expiresAt.value))
      else InvalidInput(Under(Key("userId"), Problems(id)) + Under(Key("reason"), Problems(reason))
                        + Under(Key("expiresAt"), Problems(expiresAt)))
  }

  /** `deleteUser`: `userId`, with the caller's id. */
  function DeleteUserProcedure(input: Input, caller: string): Answer<()> {
    var id := ParseUserId(input);
    if id.Err? then InvalidInput(id.error) else Delegated(DeleteUser(id.value, caller))
  }

  /** The procedures that act on one user pass the caller's own id as `currentUserId`. */
  lemma CallerIdPassed(input: Input, caller: string, isEmail: string -> bool)
    ensures UpdateUserProcedure(input, caller, isEmail).Delegated? ==>
      UpdateUserProcedure(input, caller, isEmail).call.currentUserId == caller
    ensures BanUserProcedure(input, caller).Delegated? ==> BanUserProcedure(input, caller).call.currentUserId == caller
    ensures DeleteUserProcedure(input, caller).Delegated? ==>
      DeleteUserProcedure(input, caller).call == DeleteUser(ParseUserId(input).value, caller)
  {
  }

  /** `getUser`, `unbanUser` and `deleteUser` delegate exactly for an object with a string
      `userId`, and pass that id on. */
  lemma UserIdProcedures(input: Input, caller: string)
    ensures var ok := input.Obj? && Get(input.fields, "userId").Some? && Get(input.fields, "userId").value.Str?;
      (GetUserProcedure(input).Delegated? <==> ok) && (UnbanUserProcedure(input).Delegated? <==> ok)
      && (DeleteUserProcedure(input, caller).Delegated? <==> ok)
      && (ok ==> var id := Get(input.fields, "userId").value.s;
            GetUserProcedure(input).call == GetUser(id) && UnbanUserProcedure(input).call == UnbanUser(id)
            && DeleteUserProcedure(input, caller).call == DeleteUser(id, caller))
  {
  }

  /** `updateUser` delegates exactly for a string `userId` and a well-typed `data` object, and
      passes on that id, the caller's id and the patch `data` stands for. */
  lemma UpdateUserAccepts(input: Input, caller: string, isEmail: string -> bool)
    ensures UpdateUserProcedure(input, caller, isEmail).Delegated? <==>
      input.Obj? && Get(input.fields, "userId").Some? && Get(input.fields, "userId").value.Str?
      && Get(input.fields, "data").Some? && Get(input.fields, "data").value.Obj?
      && PatchOk(Get(input.fields, "data").value.fields, isEmail)
    ensures UpdateUserProcedure(input, caller, isEmail).Delegated? ==>
      UpdateUserProcedure(input, caller, isEmail).call ==
        UpdateUser(Get(input.fields, "userId").value.s, caller, PatchOf(Get(input.fields, "data").value.fields))
  {
  }

  /** `banUser` delegates exactly for a string `userId` with an absent-or-string `reason` and
      an absent-or-`Date` `expiresAt`, and passes them on with the caller's id. */
  lemma BanUserAccepts(input: Input, caller: string)
    ensures BanUserProcedure(input, caller).Delegated? <==>
      input.Obj? && Get(input.fields, "userId").Some? && Get(input.fields, "userId").value.Str?
      && StringFieldOk(Get(input.fields, "reason")) && DateFieldOk(Get(input.fields, "expiresAt"))
    ensures BanUserProcedure(input, caller).Delegated? ==>
      BanUserProcedure(input, caller).call == BanUser(Get(input.fields, "userId").value.s, caller,
        StrOf(Get(input.fields, "reason")), DateOf(Get(input.fields, "expiresAt")))
  {
  }

  // The bulk operations.

  /** `filterProtectedUsers`'s result. */
  datatype Filtered = Filtered(validUserIds: seq<string>, skippedCount: int)

  datatype BulkResult = BulkResult(success: bool, affectedCount: int, skippedCount: int)

  /** The repository calls the bulk operations make: the protected-user filter and the bulk
      mutation, each resolving to a value or throwing. */
  datatype Repository = Repository(
    filterProtected: (seq<string>, string) -> Outcome<Filtered>,
    mutate: (BulkAction, seq<string>) -> Outcome<int>)

  function NoValidUsers(action: BulkAction): string {
    match action
    case BanUsers(_, _) => "No valid users to ban (all selected users are protected)"
    case DeleteUsers => "No valid users to delete (all selected users are protected)"
    case SetRole(_) => "No valid users to update (all selected users are protected)"
  }

  /** The shared body of the three bulk mutations, once the input is valid. */
  function Bulk(action: BulkAction, userIds: seq<string>, caller: string, repo: Repository):
    (Answer<BulkResult>, seq<Call>)
  {
    var filterCall := FilterProtected(userIds, caller);
    match repo.filterProtected(userIds, caller)
    case Threw(t) => (Propagated(t), [filterCall])
    case Returned(filtered) =>
      if |filtered.validUserIds| == 0 then (Refused("BAD_REQUEST", NoValidUsers(action)), [filterCall])
      else
        var mutation := Mutate(action, filtered.validUserIds);
        match repo.mutate(action, filtered.validUserIds)
        case Threw(t) => (Propagated(t), [filterCall, mutation])
        case Returned(affected) =>
          (Done(BulkResult(true, affected, filtered.skippedCount)), [filterCall, mutation])
  }

  /** `z.array(z.string()).min(1)` under `userIds`. */
  function CheckUserIds(fields: seq<(string, Value)>): Checked<seq<string>> {
    CheckStringArray(Get(fields, "userIds"), 1)
  }

  /** `userIds` is an array of at least one string. */
  predicate UserIdsOk(f: seq<(string, Value)>) {
    var u := Get(f, "userIds");
    u.Some? && u.value.Arr? && |u.value.items| >= 1 && forall k :: 0 <= k < |u.value.items| ==> u.value.items[k].Str?
  }

  /** `ids` are the strings of `userIds`, in order. */
  predicate IdsFrom(f: seq<(string, Value)>, ids: seq<string>) {
    var u := Get(f, "userIds");
    u.Some? && u.value.Arr? && |u.value.items| == |ids| && forall k :: 0 <= k < |ids| ==> u.value.items[k] == Str(ids[k])
  }

  /** The `bulkBanUsers` input: the ids and the ban with its optional reason and expiry. */
  function ParseBulkBan(v: Value): (r: Checked<(seq<string>, BulkAction)>)
    ensures r.Ok? <==> v.Obj? && UserIdsOk(v.fields) && StringFieldOk(Get(v.fields, "reason"))
                       && DateFieldOk(Get(v.fields, "expiresAt"))
    ensures r.Ok? ==> |r.value.0| >= 1 && IdsFrom(v.fields, r.value.0)
                      && r.value.1 == BanUsers(StrOf(Get(v.fields, "reason")), DateOf(Get(v.fields, "expiresAt")))
  {
    if !v.Obj? then Fail(InvalidType("object", Some(v)))
    else
      var ids := CheckUserIds(v.fields);
      var reason := OptString(Get(v.fields, "reason"));
      var expiresAt := OptDate(Get(v.fields, "expiresAt"));
      if ids.Ok? && reason.Ok? && expiresAt.Ok? then Ok((ids.value, BanUsers(reason.value, expiresAt.value)))
      else Err(Under(Key("userIds"), Problems(ids)) + Under(Key("reason"), Problems(reason))
               + Under(Key("expiresAt"), Problems(expiresAt)))
  }

  /** The `bulkDeleteUsers` input: the ids alone. */
  function ParseBulkDelete(v: Value): (r: Checked<(seq<string>, BulkAction)>)
    ensures r.Ok? <==> v.Obj? && UserIdsOk(v.fields)
    ensures r.Ok? ==> |r.value.0| >= 1 && IdsFrom(v.fields, r.value.0) && r.value.1 == DeleteUsers
  {
    if !v.Obj? then Fail(InvalidType("object", Some(v)))
    else
      var ids := CheckUserIds(v.fields);
      if ids.Ok? then Ok((ids.value, DeleteUsers)) else Err(Under(Key("userIds"), ids.error))
  }

  /** The `bulkUpdateUserRoles` input: the ids and a required role from the list. */
  function ParseBulkRoles(v: Value): (r: Checked<(seq<string>, BulkAction)>)
    ensures r.Ok? <==> v.Obj? && UserIdsOk(v.fields) && Get(v.fields, "role").Some?
                       && EnumFieldOk(Get(v.fields, "role"), Roles)
    ensures r.Ok? ==> |r.value.0| >= 1 && IdsFrom(v.fields, r.value.0)
                      && r.value.1 == SetRole(Get(v.fields, "role").value.s) && r.value.1.role in Roles
  {
    if !v.Obj? then Fail(InvalidType("object", Some(v)))
    else
      var ids := CheckUserIds(v.fields);
      var role := CheckRole(Get(v.fields, "role"));
      if ids.Ok? && role.Ok? then Ok((ids.value, SetRole(role.value)))
      else Err(Under(Key("userIds"), Problems(ids)) + Under(Key("role"), Problems(role)))
  }

  /** Which of the three bulk procedures. */
  datatype BulkKind = BulkBanUsers | BulkDeleteUsers | BulkUpdateUserRoles

  function ParseBulk(kind: BulkKind, v: Value): Checked<(seq<string>, BulkAction)> {
    match kind
    case BulkBanUsers => ParseBulkBan(v)
    case BulkDeleteUsers => ParseBulkDelete(v)
    case BulkUpdateUserRoles => ParseBulkRoles(v)
  }

  function BulkProcedure(kind: BulkKind, input: Input, caller: string, repo: Repository):
    (Answer<BulkResult>, seq<Call>)
  {
    var parsed := ParseBulk(kind, input);
    if parsed.Err? then (InvalidInput(parsed.error), [])
    else Bulk(parsed.value.1, parsed.value.0, caller, repo)
  }

  /** A bulk procedure refuses its input, calling nothing, exactly when its schema does;
      otherwise its first call is the filter, given the input's own `userIds` and the caller. */
  lemma BulkInputForwarded(kind: BulkKind, input: Input, caller: string, repo: Repository)
    ensures BulkProcedure(kind, input, caller, repo).0.InvalidInput? <==> ParseBulk(kind, input).Err?
    ensures ParseBulk(kind, input).Err? ==> BulkProcedure(kind, input, caller, repo).1 == []
    ensures ParseBulk(kind, input).Ok? ==>
      var ids := ParseBulk(kind, input).value.0;
      IdsFrom(input.fields, ids) && BulkProcedure(kind, input, caller, repo).1[0] == FilterProtected(ids, caller)
  {
    var parsed := ParseBulk(kind, input);
    if parsed.Ok? {
      MutationGetsFilteredIds(parsed.value.1, parsed.value.0, caller, repo);
    }
  }

  /** The issue an empty `userIds` raises, before any other field is looked at. */
  lemma EmptyUserIdsIssue(fields: seq<(string, Value)>)
    requires Get(fields, "userIds") == Some(Arr([]))
    ensures CheckUserIds(fields) == Err([Issue([], TooSmallArray(1))])
    ensures Under(Key("userIds"), Problems(CheckUserIds(fields))) == [Issue([Key("userIds")], TooSmallArray(1))]
  {
    assert StringItemIssues([], 0) == [];
    assert [Key("userIds")] + [] == [Key("userIds")];
  }

  /** Every bulk operation refuses an empty `userIds`, with zod's array-size message at
      `userIds`, before calling the repository. */
  lemma EmptyUserIdsRefused(kind: BulkKind, fields: seq<(string, Value)>, caller: string, repo: Repository)
    requires Get(fields, "userIds") == Some(Arr([]))
    ensures BulkProcedure(kind, Obj(fields), caller, repo).1 == []
    ensures BulkProcedure(kind, Obj(fields), caller, repo).0.InvalidInput?
    ensures Issue([Key("userIds")], TooSmallArray(1)) in BulkProcedure(kind, Obj(fields), caller, repo).0.issues
  {
    EmptyUserIdsIssue(fields);
    var i := Issue([Key("userIds")], TooSmallArray(1));
    var ids := Under(Key("userIds"), Problems(CheckUserIds(fields)));
    assert ids[0] == i;
    match kind
    case BulkBanUsers =>
      var reason := OptString(Get(fields, "reason"));
      var expiresAt := OptDate(Get(fields, "expiresAt"));
      var e := ids + Under(Key("reason"), Problems(reason)) + Under(Key("expiresAt"), Problems(expiresAt));
      assert e[0] == i;
      assert ParseBulkBan(Obj(fields)) == Err(e);
    case BulkDeleteUsers =>
      assert ParseBulkDelete(Obj(fields)) == Err(ids);
    case BulkUpdateUserRoles =>
      var e := ids + Under(Key("role"), Problems(CheckRole(Get(fields, "role"))));
      assert e[0] == i;
      assert ParseBulkRoles(Obj(fields)) == Err(e);
  }

  /** When the filter leaves no id, the operation fails with `BAD_REQUEST` and its own message,
      and the bulk mutation is never called. */
  lemma AllProtectedRefused(action: BulkAction, userIds: seq<string>, caller: string, repo: Repository, skipped: int)
    requires repo.filterProtected(userIds, caller) == Returned(Filtered([], skipped))
    ensures Bulk(action, userIds, caller, repo) ==
      (Refused("BAD_REQUEST", NoValidUsers(action)), [FilterProtected(userIds, caller)])
  {
  }

  /** A mutation, when there is one, receives exactly the ids the filter let through, never
      the raw input ids; and it happens only after the filter with the caller's id. */
  lemma MutationGetsFilteredIds(action: BulkAction, userIds: seq<string>, caller: string, repo: Repository)
    ensures var calls := Bulk(action, userIds, caller, repo).1;
      1 <= |calls| <= 2 && calls[0] == FilterProtected(userIds, caller)
      && (|calls| == 2 ==>
            repo.filterProtected(userIds, caller).Returned?
            && var valid := repo.filterProtected(userIds, caller).value.validUserIds;
            valid != [] && calls[1] == Mutate(action, valid))
  {
  }

  /** A completed bulk operation reports success with the mutation's count and the filter's
      skipped count unchanged. */
  lemma BulkResultCounts(action: BulkAction, userIds: seq<string>, caller: string, repo: Repository)
    requires Bulk(action, userIds, caller, repo).0.Done?
    ensures var filtered := repo.filterProtected(userIds, caller);
      filtered.Returned? && filtered.value.validUserIds != []
      && var affected := repo.mutate(action, filtered.value.validUserIds);
      affected.Returned?
      && Bulk(action, userIds, caller, repo).0.value == BulkResult(true, affected.value, filtered.value.skippedCount)
  {
  }

  // `createWorkflow`.

  /** `z.object({email: z.string().email(), metadata: z.record(z.string(), z.string())})`:
      unlike the shared trigger schema, `metadata` is required and has no default. */
  function ParseCreateWorkflow(v: Value, isEmail: string -> bool): (r: Checked<WorkflowSchemas.TriggerRequest>)
    ensures r.Ok? <==> v.Obj? && CheckEmail(Get(v.fields, "email"), isEmail, InvalidEmailAddress).Ok?
                       && CheckStringRecord(Get(v.fields, "metadata")).Ok?
    ensures r.Ok? ==> Get(v.fields, "email") == Some(Str(r.value.email))
                      && r.value.metadata == StringEntries(Get(v.fields, "metadata").value.fields)
  {
    if !v.Obj? then Fail(InvalidType("object", Some(v)))
    else
      var email := CheckEmail(Get(v.fields, "email"), isEmail, InvalidEmailAddress);
      var metadata := CheckStringRecord(Get(v.fields, "metadata"));
      if email.Ok? && metadata.Ok? then Ok(WorkflowSchemas.TriggerRequest(email.value, metadata.value))
      else Err(Under(Key("email"), Problems(email)) + Under(Key("metadata"), Problems(metadata)))
  }

  function CreateWorkflowProcedure(input: Input, isEmail: string -> bool): Answer<()> {
    var params := ParseCreateWorkflow(input, isEmail);
    if params.Err? then InvalidInput(params.error) else Delegated(CreateWorkflow(params.value))
  }

  /** An input without `metadata` is refused here, although the worker's own schema would
      default it to `{}`. */
  lemma CreateWorkflowNeedsMetadata(fields: seq<(string, Value)>, isEmail: string -> bool)
    requires Get(fields, "metadata").None?
    ensures CreateWorkflowProcedure(Obj(fields), isEmail).InvalidInput?
    ensures Issue([Key("metadata")], InvalidType("record", None)) in CreateWorkflowProcedure(Obj(fields), isEmail).issues
    ensures WorkflowSchemas.ParseTriggerRequest(Obj(fields), isEmail).Ok? ==>
            WorkflowSchemas.ParseTriggerRequest(Obj(fields), isEmail).value.metadata == []
  {
    var email := CheckEmail(Get(fields, "email"), isEmail, InvalidEmailAddress);
    var meta := Under(Key("metadata"), [Issue([], InvalidType("record", None))]);
    assert [Key("metadata")] + [] == [Key("metadata")];
    assert meta == [Issue([Key("metadata")], InvalidType("record", None))];
    InConcat(Under(Key("email"), Problems(email)), meta, Issue([Key("metadata")], InvalidType("record", None)));
  }

  /** The params passed to `create` are exactly the validated `{email, metadata}`, and they
      read back through the worker's schema unchanged. */
  lemma CreateWorkflowParams(input: Input, isEmail: string -> bool)
    requires CreateWorkflowProcedure(input, isEmail).Delegated?
    ensures var p := CreateWorkflowProcedure(input, isEmail).call.params;
      Get(input.fields, "email") == Some(Str(p.email))
      && p.metadata == StringEntries(Get(input.fields, "metadata").value.fields)
      && WorkflowSchemas.ParseTriggerRequest(WorkflowSchemas.TriggerValue(p), isEmail) == Ok(p)
  {
    var p := CreateWorkflowProcedure(input, isEmail).call.params;
    WorkflowSchemas.TriggerRoundTrip(p, isEmail);
  }
}
