# A model of the decision logic of the Cloudflare SaaS monorepo template

The repository is a starter stack built on Cloudflare Workers. It has:

- a workflows worker that starts and reports workflow instances;
- an API server that proxies to that worker;
- a tRPC layer with an admin router;
- a drizzle configuration that finds the local D1 database;
- a first-time setup script that provisions Cloudflare resources and rewrites the template.

This project models what those pieces decide. It does not model what they do to the outside world. Calls that leave the process become parameters:

- workflow `create` and `get`;
- the service-binding `fetch`;
- repository queries;
- `JSON.parse`;
- file reads;
- `wrangler` output;
- random bytes.

Where the sequence of those calls matters, the calls are returned as a trace, so properties such as "the mutation is never called" can be stated.

Modules, following the source:

| module | file | what it holds |
|---|---|---|
| `Wrappers` | wrappers.dfy | `Option` and `Result` |
| `Strings` | strings.dfy | JavaScript's `trim`, `startsWith`/`endsWith`/`includes`, `split`/`join` and global `replace`, with their laws |
| `Values` | values.dfy | JavaScript/JSON values, property lookup and update |
| `Http` | http.dfy | awaited outcomes that may throw; responses |
| `Validation` | validation.dfy | the zod 4 checks the schemas use, issues with paths, `flattenError` |
| `WorkflowSchemas` | workflow_schemas.dfy | the shared workflow schemas and the encoders of the worker's replies |
| `WorkflowsWorker` | workflows_worker.dfy | the worker's `fetch` handler |
| `WorkflowsGateway` | workflows_gateway.dfy | the server's `/workflows/trigger` and `/workflows/status/{instanceId}` routes |
| `TrpcLib` | trpc_lib.dfy | `protectedProcedure`'s middleware and the error formatter |
| `AdminRouter` | admin_router.dfy | admin input schemas, per-user procedures, bulk guard, `createWorkflow` |
| `DrizzleConfig` | drizzle_config.dfy | `getLocalD1DB` and the exported config |
| `SetupNames` | setup_names.dfy | `sanitizeResourceName`, resource names, `generateSecureRandomString` |
| `SetupFiles` | setup_files.dfy | handlebars substitution, `@repo/` rewriting, `.gitignore` editing |
| `SetupWrangler` | setup_wrangler.dfy | parsing `wrangler whoami`, `r2 bucket list` and `d1 create`/`d1 info` output |
| `SetupCleanup` | setup_cleanup.dfy | the `--cleanup` mode: matching, confirmations, deletion count, local files |

The imperative parts of the setup script are methods with loop invariants proved against specification functions. These are:

- the replacement loop;
- the walk's per-file counter;
- the two output-parsing loops;
- the cleanup's flags and counter.

Everything else is functions and lemmas.

## Model

| member | source | states |
|---|---|---|
| `Strings.TrimStartShape` | scripts/first-time-setup.ts:314 | `trimStart` drops exactly the leading white space: the result is a suffix, everything dropped is white space, and what is left starts with a non-space |
| `Strings.TrimEndShape` | scripts/first-time-setup.ts:314 | `trimEnd` drops exactly the trailing white space, symmetrically |
| `Strings.TrimShape` | scripts/first-time-setup.ts:314 | `trim` returns a slice of its input whose two ends are not white space |
| `Strings.TrimIdempotent` | scripts/first-time-setup.ts:637 | trimming twice is trimming once |
| `Strings.TrimEmptyIffAllSpace` | apps/workflows/src/index.ts:47 | the trimmed text is empty exactly when every character is white space |
| `Strings.Trim` | apps/workflows/src/index.ts:47 | no contract of its own: `TrimShape`, `TrimIdempotent` and `TrimEmptyIffAllSpace` state what `trim` returns |
| `Strings.AllSpaceConcat` | apps/workflows/src/index.ts:47 | a concatenation is all white space exactly when both parts are (both directions) |
| `Strings.IndexFrom` | scripts/first-time-setup.ts:337 | the result is the first occurrence at or after the start, or `None` when there is none |
| `Strings.IndexFromFirst` | scripts/first-time-setup.ts:337 | no occurrence lies between the start and the index found |
| `Strings.OccursContains` | apps/workflows/src/index.ts:36 | an occurrence at any position makes `includes` true |
| `Strings.JoinSplit` | scripts/first-time-setup.ts:310-319 | `split(sep).join(sep)` gives back the original string |
| `Strings.SplitPiecesFree` | scripts/first-time-setup.ts:310 | no piece produced by `split` contains the separator |
| `Strings.SplitJoinChar` | scripts/first-time-setup.ts:310-319 | for a one-character separator, joining pieces that do not contain it and splitting again gives back the pieces |
| `Strings.SplitCharPieces` | scripts/first-time-setup.ts:310 | splitting on a one-character separator gives pieces that do not contain it, and at least one piece |
| `Strings.Split` | scripts/first-time-setup.ts:310 | `split` gives at least one piece; `SplitPiecesFree`, `JoinSplit` and `SplitJoinChar` state the rest |
| `Strings.Join` | scripts/first-time-setup.ts:319 | no contract of its own: `JoinSplit`, `SplitJoinChar` and `JoinLength` relate it to `split` and give its length |
| `Strings.JoinLength` | scripts/first-time-setup.ts:319 | the length of a join is the pieces' total plus one separator between neighbours |
| `Strings.ReplaceAllSelf` | scripts/first-time-setup.ts:170 | replacing a pattern by itself changes nothing |
| `Strings.ReplaceAll` | scripts/first-time-setup.ts:170 | no contract of its own: `ReplaceAllSelf`, `ReplaceAllLength`, `ReplaceAllSameLength` and `ReplaceAllChanges` state what a global literal `replace` does |
| `Strings.ReplaceAllLength` | scripts/first-time-setup.ts:170 | each replaced occurrence changes the length by the difference of the two lengths |
| `Strings.ReplaceAllSameLength` | scripts/first-time-setup.ts:170-173 | a replacement of the same length as the pattern but different from it changes every string that contains the pattern |
| `Strings.ReplaceAllChanges` | scripts/first-time-setup.ts:170-173 | replacing `@repo/` by a different text changes the content exactly when the content contains it |
| `Strings.NoCharNoIndex` | scripts/first-time-setup.ts:640-642 | a string without the character has no index of it |
| `Strings.CharContains` | scripts/first-time-setup.ts:640-642 | `includes` of a one-character string is membership of that character |
| `Strings.FirstCharIndex` | scripts/first-time-setup.ts:337 | the first index of a one-character string is the first position holding that character |
| `Values.Get` | packages/schemas/src/workflows.ts:4-7 | a property is absent exactly when no field has the key, and a found value belongs to a field with the key |
| `Values.GetAppendOther` | packages/schemas/src/workflows.ts:4-7 | a property added after the others does not change any other key's lookup |
| `Values.Put` | packages/trpc/lib.ts:16-25 | after `{...o, key: v}` the key reads `v`, and every other key reads as before |
| `Values.PutTwice` | packages/trpc/lib.ts:16-25 | setting a property twice to the same value is setting it once |
| `Validation.Under` | apps/workflows/src/index.ts:79-82 | a nested schema's issues keep their order and messages, and each path gains the key in front |
| `Validation.UnderKeeps` | apps/workflows/src/index.ts:79-82 | every nested issue reappears under its key |
| `Validation.NatText` | apps/workflows/src/index.ts:80 | an array index in a path is written as at least one decimal digit; `NatTextValue` states that the digits read back as the index |
| `Validation.NatTextValue` | apps/workflows/src/index.ts:80 | the decimal text of an index, read back left to right, is the index itself |
| `Validation.SegmentTexts` | apps/workflows/src/index.ts:80 | each path segment is written as its key or its index |
| `Validation.CheckString` | packages/schemas/src/workflows.ts:11 | `z.string()` accepts exactly a string value and returns it |
| `Validation.CheckMinLength` | packages/schemas/src/workflows.ts:17 | `z.string().min(n)` accepts exactly a string of at least `n` characters |
| `Validation.CheckEmail` | packages/schemas/src/workflows.ts:5 | `z.string().email(msg)` accepts exactly a string that is an address; a string that is not an address gives a single issue with `msg` |
| `Validation.CheckBoolean` | packages/schemas/src/workflows.ts:10 | `z.boolean()` accepts exactly a boolean and returns it |
| `Validation.CheckDate` | packages/trpc/routers/admin.ts:41 | `z.date()` accepts exactly a `Date` and returns its time value |
| `Validation.CheckEnum` | packages/trpc/routers/admin.ts:14-15 | `z.enum` accepts exactly one of its listed strings |
| `Validation.Optional` | packages/trpc/routers/admin.ts:13-15 | `.optional()` passes an absent value and defers to the inner check otherwise |
| `Validation.CheckIntInRange` | packages/trpc/routers/admin.ts:11-12 | an absent value becomes the default; a present one must be a safe integer within the bounds |
| `Validation.StringItemIssues` | packages/trpc/routers/admin.ts:95 | an array has no element issue exactly when every element is a string |
| `Validation.CheckStringArray` | packages/trpc/routers/admin.ts:95 | `z.array(z.string()).min(n)` accepts exactly an array of at least `n` strings, and returns its elements in order |
| `Validation.RecordIssues` | packages/schemas/src/workflows.ts:6 | a record has no issue exactly when every value is a string |
| `Validation.StringEntries` | packages/schemas/src/workflows.ts:6 | the record's entries keep their keys, their values and their order |
| `Validation.CheckStringRecord` | packages/schemas/src/workflows.ts:6 | `z.record(z.string(), z.string())` accepts exactly an object whose every value is a string |
| `Validation.RecordIssuesAt` | packages/schemas/src/workflows.ts:6 | a non-string value is reported at its key |
| `Validation.RecordValue` | packages/schemas/src/workflows.ts:6 | a record is written out with one string property per entry, in order |
| `Validation.RecordRoundTrip` | packages/schemas/src/workflows.ts:6 | a record written out reads back as the same record |
| `Validation.Lookup` | packages/trpc/lib.ts:22 | a group is absent exactly when no group has the key |
| `Validation.AddMessage` | packages/trpc/lib.ts:22 | adding a message appends it to its key's list and leaves the other keys alone |
| `Validation.FieldErrorsKeep` | packages/trpc/lib.ts:22 | a message grouped under a key stays there as more issues are added |
| `Validation.FieldErrorsHas` | packages/trpc/lib.ts:22 | every issue with a path has its message in its first segment's group |
| `Validation.FormErrorsHas` | packages/trpc/lib.ts:22 | every issue without a path has its message among the form errors |
| `Validation.FlattenKeepsEveryMessage` | packages/trpc/lib.ts:22 | `flattenError` keeps every issue's message, under the form errors or under its first path segment |
| `Validation.FieldErrorKeys` | packages/trpc/lib.ts:22 | there is a field group exactly for the first segments of the issues that have a path |
| `WorkflowSchemas.ParseTriggerRequestWith` | packages/schemas/src/workflows.ts:4-7 | the trigger schema accepts exactly an object with an address `email` and an absent or string-record `metadata`; absent metadata becomes `{}`; a non-object is one root issue |
| `WorkflowSchemas.ParseTriggerRequest` | packages/schemas/src/workflows.ts:4-7 | the shared trigger schema, with the custom address message; its contract is `ParseTriggerRequestWith`'s, and `TriggerRoundTrip`, `BadEmailReported`, `NonStringMetadataReported` and `UnknownKeyIgnored` are about it |
| `WorkflowSchemas.ParseTriggerRequestOpenApi` | apps/server/src/routers/workflows.ts:10-25 | the route's own copy of the schema, with zod's default address message; `TriggerSchemasAgree` ties it to the shared one |
| `WorkflowSchemas.TriggerSchemasAgree` | apps/server/src/routers/workflows.ts:10-25 | the route's OpenAPI copy of the schema accepts the same payloads with the same output |
| `WorkflowSchemas.TriggerRoundTrip` | packages/schemas/src/workflows.ts:4-7 | a validated request written out, which has only `email` and `metadata`, parses back to itself |
| `WorkflowSchemas.BadEmailReported` | packages/schemas/src/workflows.ts:5 | an address the check refuses gives an issue at `email` with "Invalid email format" |
| `WorkflowSchemas.NonStringMetadataReported` | packages/schemas/src/workflows.ts:6 | a non-string metadata value refuses the payload with an issue at `metadata.<key>` |
| `WorkflowSchemas.UnknownKeyIgnored` | packages/schemas/src/workflows.ts:4-7 | properties outside the schema do not change the outcome |
| `WorkflowSchemas.ParseStatusParams` | packages/schemas/src/workflows.ts:16-18 | `instanceId` must be a non-empty string; `""` fails with "instanceId is required" |
| `WorkflowSchemas.ParseTriggerResponse` | packages/schemas/src/workflows.ts:9-13 | accepted exactly with a boolean `success` and string `instanceId` and `message`, which it returns |
| `WorkflowSchemas.ParseStatusResponse` | packages/schemas/src/workflows.ts:20-24 | accepted exactly with a boolean `success`; `status` and `instance` are taken as they are, absent or not |
| `WorkflowSchemas.ParseDetail` | packages/schemas/src/workflows.ts:32-35 | a detail is accepted exactly with string `path` and `message` |
| `WorkflowSchemas.ParseDetailItems` | packages/schemas/src/workflows.ts:30-37 | a `details` array is accepted exactly when every element is, and gives one detail per element in order |
| `WorkflowSchemas.ParseErrorResponse` | packages/schemas/src/workflows.ts:27-38 | accepted exactly with a boolean `success`, a string `error` and, when present, an array of valid details; the result holds those `success` and `error` values, and its details are present exactly when the input has them and are then the parsed array, element by element |
| `WorkflowSchemas.DetailValues` | apps/workflows/src/index.ts:79-82 | the details are written out one object per detail, in order |
| `WorkflowSchemas.TriggerValue` | apps/server/src/routers/workflows.ts:162 | the JSON of a validated request, `email` then `metadata`; `TriggerRoundTrip` reads it back |
| `WorkflowSchemas.TriggerResponseValue` | apps/workflows/src/index.ts:94-98 | the JSON of a trigger response; `TriggerResponseRoundTrip` reads it back |
| `WorkflowSchemas.StatusResponseValue` | apps/workflows/src/index.ts:134-138 | the JSON of a status response, absent fields left out; `StatusResponseRoundTrip` reads it back |
| `WorkflowSchemas.DetailValue` | apps/workflows/src/index.ts:79-82 | the JSON of one detail; `DetailRoundTrip` reads it back |
| `WorkflowSchemas.ErrorResponseValue` | apps/workflows/src/index.ts:37-43 | the JSON of an error envelope; `ErrorResponseFields`, `ErrorResponseHasNoInstanceId` and `ErrorResponseRoundTrip` are about it |
| `WorkflowSchemas.TriggerResponseRoundTrip` | apps/workflows/src/index.ts:94-98 | a trigger response written out parses back to itself |
| `WorkflowSchemas.StatusResponseRoundTrip` | apps/workflows/src/index.ts:134-138 | a status response written out, absent fields left out, parses back to itself |
| `WorkflowSchemas.DetailRoundTrip` | apps/workflows/src/index.ts:79-82 | a detail written out parses back to itself |
| `WorkflowSchemas.DetailItemsRoundTrip` | apps/workflows/src/index.ts:79-82 | a list of details written out parses back to itself |
| `WorkflowSchemas.ErrorResponseHasNoInstanceId` | apps/workflows/src/index.ts:37-43 | an error envelope has no `instanceId` property |
| `WorkflowSchemas.ErrorResponseFields` | apps/workflows/src/index.ts:37-43 | an error envelope reads back its `success`, its `error` and its `details` exactly when it has them |
| `WorkflowSchemas.ErrorResponseRoundTrip` | apps/workflows/src/index.ts:101-107 | an error envelope written out parses back to itself |
| `WorkflowsWorker.Details` | apps/workflows/src/index.ts:79-82 | one detail per issue, in order, with the path joined by dots and the issue's message |
| `WorkflowsWorker.Handle` | apps/workflows/src/index.ts:29-152 | the `fetch` handler, POST and GET dispatched and anything else 404; `OtherMethodsNotFound`, `CreateOnlyWhenValid`, `StatusLookup`, `RepliesMatchSchemas` and `FailureStatuses` are about it |
| `WorkflowsWorker.Trigger` | apps/workflows/src/index.ts:33-109 | the POST branch; `ContentTypeChecked`, `BodyReadFailureIs500` and `CreateOnlyWhenValid` are about it |
| `WorkflowsWorker.TriggerWith` | apps/workflows/src/index.ts:46-108 | the POST branch once the body is read; `TriggerWithCreates`, `TriggerWithTrace`, `BlankBodyRefused`, `UnparsableBodyRefused`, `InvalidPayloadRefused` and `CreateOutcomeDecides` are about it |
| `WorkflowsWorker.Status` | apps/workflows/src/index.ts:112-148 | the GET branch; `StatusLookup`, `EmptyInstanceIdIssue` and `MissingInstanceIdIssue` are about it |
| `WorkflowsWorker.Render` | apps/workflows/src/index.ts:37-151 | how a reply is written out; `RepliesMatchSchemas` shows every JSON reply reads back through its schema |
| `WorkflowsWorker.RunResult` | apps/workflows/src/index.ts:22-25 | the result value of the example workflow's `run`; it has no contract of its own |
| `WorkflowsWorker.OtherMethodsNotFound` | apps/workflows/src/index.ts:151 | a method other than POST or GET is a 404 "Not found", and nothing is called |
| `WorkflowsWorker.ContentTypeChecked` | apps/workflows/src/index.ts:35-44 | a POST is refused with 400 "Content-Type must be application/json", without reading the body, exactly when the content type is absent or lacks that text |
| `WorkflowsWorker.BlankBodyRefused` | apps/workflows/src/index.ts:46-55 | an empty or all-white-space body is a 400 "Request body is required"; nothing is parsed or created |
| `WorkflowsWorker.UnparsableBodyRefused` | apps/workflows/src/index.ts:57-68 | a body that does not parse is a 400 "Invalid JSON in request body" |
| `WorkflowsWorker.InvalidPayloadRefused` | apps/workflows/src/index.ts:73-86 | a payload the schema refuses is a 400 "Validation error" with one detail per issue; nothing is created |
| `WorkflowsWorker.CreateOnlyWhenValid` | apps/workflows/src/index.ts:33-91 | `create` is called exactly when all four checks pass, with the validated and defaulted request, and it is the last call |
| `WorkflowsWorker.TriggerWithCreates` | apps/workflows/src/index.ts:46-91 | once the body is read, `create` is called exactly when the body is not blank, parses and validates |
| `WorkflowsWorker.TriggerWithTrace` | apps/workflows/src/index.ts:46-91 | the calls after the body is read: the read, then `create` only on a valid payload |
| `WorkflowsWorker.CreateOutcomeDecides` | apps/workflows/src/index.ts:91-108 | after `create`, its id gives the success reply and a throw gives a 500 with the error's message or "Unknown error" |
| `WorkflowsWorker.BodyReadFailureIs500` | apps/workflows/src/index.ts:46-108 | a failed body read is a 500 with its message |
| `WorkflowsWorker.StatusLookup` | apps/workflows/src/index.ts:112-148 | a missing or empty `instanceId` is a 400 with no call to `get`; any other id is looked up once, and the lookup's outcome decides the reply |
| `WorkflowsWorker.EmptyInstanceIdIssue` | apps/workflows/src/index.ts:117-129 | an empty `instanceId` is reported at `instanceId` with "instanceId is required" |
| `WorkflowsWorker.MissingInstanceIdIssue` | apps/workflows/src/index.ts:113-129 | a missing `instanceId` reaches the schema as `null` and is reported as a non-string |
| `WorkflowsWorker.RepliesMatchSchemas` | apps/workflows/src/index.ts:37-147 | every JSON reply reads back through the shared schema for its kind: error, trigger or status |
| `WorkflowsWorker.FailureStatuses` | apps/workflows/src/index.ts:29-151 | failures are 400 or 500, and every reply is 200, 400, 404 or 500 |
| `WorkflowsGateway.StatusUrl` | apps/server/src/routers/workflows.ts:226 | the worker URL is the origin plus `?instanceId=` followed by the id, not encoded |
| `WorkflowsGateway.Trigger` | apps/server/src/routers/workflows.ts:138-193 | the trigger route; `InvalidBodyNotForwarded`, `ValidBodyForwarded`, `TriggerReplyMapping`, `WorkerFailureBecomes500`, `WorkerSuccessPassesThrough` and `ThrownIs500` are about it |
| `WorkflowsGateway.Status` | apps/server/src/routers/workflows.ts:222-262 | the status route; `StatusForwarded`, `StatusReplyMapping`, `WorkerStatusFailureBecomes200` and `ThrownIs500` are about it |
| `WorkflowsGateway.InvalidBodyNotForwarded` | apps/server/src/routers/workflows.ts:142-156 | a body the shared schema refuses gets a 400 with the joined-path details, and the worker is not called |
| `WorkflowsGateway.RouteOutputPassesRevalidation` | apps/server/src/routers/workflows.ts:140-143 | what the route's own schema produced always passes the re-validation and is forwarded |
| `WorkflowsGateway.ValidBodyForwarded` | apps/server/src/routers/workflows.ts:158-164 | a valid body is forwarded once, as a JSON POST carrying exactly the validated and defaulted data |
| `WorkflowsGateway.TriggerReplyMapping` | apps/server/src/routers/workflows.ts:166-192 | the downstream status is ignored: a reply of trigger-response shape is returned as parsed with 200, any other reply is a 500 "Invalid response from workflow" |
| `WorkflowsGateway.WorkerFailureBecomes500` | apps/server/src/routers/workflows.ts:170-181 | every failure envelope of the worker, including its 400s, surfaces as a 500 |
| `WorkflowsGateway.WorkerSuccessPassesThrough` | apps/server/src/routers/workflows.ts:183 | a successful worker reply is passed through unchanged |
| `WorkflowsGateway.ForwardedTriggerCreates` | apps/server/src/routers/workflows.ts:158-164 | the forwarded request passes all of the worker's checks and creates the instance the gateway validated |
| `WorkflowsGateway.StatusForwarded` | apps/server/src/routers/workflows.ts:225-227 | the status route sends exactly one GET to `http://workflows-starter/?instanceId=` plus the raw id |
| `WorkflowsGateway.StatusReplyMapping` | apps/server/src/routers/workflows.ts:232-252 | only `success`, `status` and `instance` are copied into the 200; a reply without a boolean `success` is a 500 |
| `WorkflowsGateway.WorkerStatusFailureBecomes200` | apps/server/src/routers/workflows.ts:245-252 | a downstream `{success: false, error}` comes back as 200 `{success: false}` with the error dropped |
| `WorkflowsGateway.ThrownIs500` | apps/server/src/routers/workflows.ts:184-261 | an exception in either route is a 500 with its message or "Unknown error" |
| `TrpcLib.Protect` | packages/trpc/lib.ts:32-41 | a null `auth` or a missing user is UNAUTHORIZED; otherwise `next` gets the same `auth` |
| `TrpcLib.StrValues` | packages/trpc/lib.ts:22 | a message list is written out as strings, in order |
| `TrpcLib.GroupValues` | packages/trpc/lib.ts:22 | the field groups are written out one property per group, in order |
| `TrpcLib.FormatError` | packages/trpc/lib.ts:16-25 | every other shape property and every other `data` property is kept, and `data.zodError` is set |
| `TrpcLib.ZodErrorOnlyForZodCause` | packages/trpc/lib.ts:20-23 | `zodError` is null exactly when the cause is not a zod error, and is the flattened error otherwise |
| `TrpcLib.FormatErrorIdempotent` | packages/trpc/lib.ts:16-25 | formatting an already formatted shape with the same cause changes nothing |
| `AdminRouter.ParseUsersQuery` | packages/trpc/routers/admin.ts:10-16 | `page` defaults to 0 and must be an integer of at least 0; `limit` defaults to 10 and must be an integer in [1, 100]; `search`, `role` and `status` are optional, `role` and `status` are limited to their lists, and each filter in the result is exactly the input's value for that key (or absent when the key is) |
| `AdminRouter.ParseUserId` | packages/trpc/routers/admin.ts:24-26 | accepted exactly with a string `userId` |
| `AdminRouter.GetUserProcedure` | packages/trpc/routers/admin.ts:22-30 | `getUser`; `UserIdProcedures` states it |
| `AdminRouter.UnbanUserProcedure` | packages/trpc/routers/admin.ts:71-79 | `unbanUser`; `UserIdProcedures` states it |
| `AdminRouter.DeleteUserProcedure` | packages/trpc/routers/admin.ts:80-91 | `deleteUser`; `UserIdProcedures` and `CallerIdPassed` state it |
| `AdminRouter.UserIdProcedures` | packages/trpc/routers/admin.ts:22-91 | `getUser`, `unbanUser` and `deleteUser` delegate exactly for an object with a string `userId`, and pass that id on, `deleteUser` with the caller's id |
| `AdminRouter.OptString` | packages/trpc/routers/admin.ts:36 | `z.string().optional()` accepts exactly an absent value or a string, and gives what is present |
| `AdminRouter.OptBool` | packages/trpc/routers/admin.ts:39 | `z.boolean().optional()` accepts exactly an absent value or a boolean, and gives what is present |
| `AdminRouter.OptDate` | packages/trpc/routers/admin.ts:41 | `z.date().optional()` accepts exactly an absent value or a `Date`, and gives what is present |
| `AdminRouter.OptRole` | packages/trpc/routers/admin.ts:38 | `z.enum(["user", "admin"]).optional()` accepts exactly an absent value or a listed role, and gives what is present |
| `AdminRouter.OptStatus` | packages/trpc/routers/admin.ts:15 | `z.enum(["verified", "unverified", "banned"]).optional()` accepts exactly an absent value or a listed status, and gives what is present |
| `AdminRouter.OptionalEmail` | packages/trpc/routers/admin.ts:37 | `z.string().email().optional()` accepts exactly an absent value or an accepted address, and gives what is present |
| `AdminRouter.ParseUserPatch` | packages/trpc/routers/admin.ts:35-43 | `data` is accepted exactly when it is an object whose seven fields are each absent or of their type: an accepted address for `email`, a listed `role`, a boolean `banned` and `verified`, a `Date` `banExpires`, strings otherwise. The patch holds exactly the values of the fields present |
| `AdminRouter.PatchKeepsPresence` | packages/trpc/routers/admin.ts:35-43 | a validated patch has each of its seven fields exactly where `data` has it, with an accepted address and a listed role |
| `AdminRouter.UpdateUserProcedure` | packages/trpc/routers/admin.ts:31-52 | `updateUser`; `UpdateUserAccepts` and `CallerIdPassed` state it |
| `AdminRouter.UpdateUserAccepts` | packages/trpc/routers/admin.ts:31-52 | `updateUser` delegates exactly for a string `userId` and a well-typed `data` object, passing that id, the caller's id and the patch |
| `AdminRouter.BanUserProcedure` | packages/trpc/routers/admin.ts:54-69 | `banUser`; `BanUserAccepts` and `CallerIdPassed` state it |
| `AdminRouter.BanUserAccepts` | packages/trpc/routers/admin.ts:54-69 | `banUser` delegates exactly for a string `userId` with `reason` absent or a string and `expiresAt` absent or a `Date`, passing them on with the caller's id |
| `AdminRouter.GetUsersProcedure` | packages/trpc/routers/admin.ts:8-20 | `getUsers` delegates exactly when the input is valid, and passes on the defaulted query whose page, limit and three filters `ParseUsersQuery` ties to the input |
| `AdminRouter.CallerIdPassed` | packages/trpc/routers/admin.ts:46-90 | `updateUser`, `banUser` and `deleteUser` pass the caller's own id as `currentUserId` |
| `AdminRouter.ParseBulkBan` | packages/trpc/routers/admin.ts:94-98 | accepted exactly for an object whose `userIds` is an array of at least one string, with `reason` absent or a string and `expiresAt` absent or a `Date`; the ids are those strings in order, and the ban carries the reason and expiry given |
| `AdminRouter.ParseBulkDelete` | packages/trpc/routers/admin.ts:131-133 | accepted exactly for an object whose `userIds` is an array of at least one string; the ids are those strings in order |
| `AdminRouter.ParseBulkRoles` | packages/trpc/routers/admin.ts:164-167 | accepted exactly for an object whose `userIds` is an array of at least one string and whose `role` is present and listed; the ids are those strings in order, and the new role is the one given |
| `AdminRouter.Bulk` | packages/trpc/routers/admin.ts:100-126 | the shared body of the bulk mutations; `AllProtectedRefused`, `MutationGetsFilteredIds` and `BulkResultCounts` are about it |
| `AdminRouter.BulkProcedure` | packages/trpc/routers/admin.ts:92-199 | the three bulk procedures; `BulkInputForwarded` and `EmptyUserIdsRefused` are about them |
| `AdminRouter.BulkInputForwarded` | packages/trpc/routers/admin.ts:100-107 | a bulk procedure refuses its input, calling nothing, exactly when its schema does; otherwise the filter is called first, with the input's own `userIds` and the caller's id |
| `AdminRouter.EmptyUserIdsIssue` | packages/trpc/routers/admin.ts:95 | an empty `userIds` gives the array-size issue at `userIds` |
| `AdminRouter.EmptyUserIdsRefused` | packages/trpc/routers/admin.ts:95-165 | every bulk operation refuses an empty `userIds` before calling the repository |
| `AdminRouter.AllProtectedRefused` | packages/trpc/routers/admin.ts:109-184 | when the filter leaves no id, the operation fails with BAD_REQUEST and its message, and no mutation is called |
| `AdminRouter.MutationGetsFilteredIds` | packages/trpc/routers/admin.ts:116-192 | the mutation comes after the filter, which gets the caller's id, and receives exactly the filtered ids |
| `AdminRouter.BulkResultCounts` | packages/trpc/routers/admin.ts:122-198 | a completed bulk operation is a success with the mutation's count and the filter's skipped count unchanged |
| `AdminRouter.ParseCreateWorkflow` | packages/trpc/routers/admin.ts:203-206 | accepted exactly with an address `email` and a string-record `metadata`, which has no default |
| `AdminRouter.CreateWorkflowProcedure` | packages/trpc/routers/admin.ts:201-215 | `createWorkflow`; `CreateWorkflowNeedsMetadata` and `CreateWorkflowParams` state it |
| `AdminRouter.CreateWorkflowNeedsMetadata` | packages/trpc/routers/admin.ts:205 | an input without `metadata` is refused with an issue at `metadata`, where the worker's schema would default it |
| `AdminRouter.CreateWorkflowParams` | packages/trpc/routers/admin.ts:209-214 | `create` gets exactly the validated `{email, metadata}`, which the worker's schema reads back unchanged |
| `DrizzleConfig.Candidates` | packages/db/drizzle.config.ts:12 | the candidates are exactly the listed entries whose name ends in `.sqlite`; `CandidatesSnoc` states that they keep the listing's order |
| `DrizzleConfig.CandidatesSnoc` | packages/db/drizzle.config.ts:11-12 | one more listed entry is appended to the candidates when its name ends in `.sqlite` and leaves them unchanged otherwise, so the filter keeps `readdirSync` order |
| `DrizzleConfig.Insert` | packages/db/drizzle.config.ts:18 | insertion adds exactly one entry |
| `DrizzleConfig.SortNewestFirst` | packages/db/drizzle.config.ts:18 | the sort is a permutation of the candidates |
| `DrizzleConfig.InsertBounded` | packages/db/drizzle.config.ts:18 | inserting an entry within a bound keeps every entry within it |
| `DrizzleConfig.InsertKeepsOrder` | packages/db/drizzle.config.ts:18 | inserting into a newest-first list keeps it newest first |
| `DrizzleConfig.SortIsOrdered` | packages/db/drizzle.config.ts:18 | the sorted candidates are newest first |
| `DrizzleConfig.FirstNewest` | packages/db/drizzle.config.ts:18-24 | the reference choice is a listed entry at least as new as every other, and no earlier entry is as new |
| `DrizzleConfig.InsertHead` | packages/db/drizzle.config.ts:18 | the head after insertion is the new entry unless the old head is strictly newer |
| `DrizzleConfig.SortHeadIsFirstNewest` | packages/db/drizzle.config.ts:18-24 | because the sort is stable, its head is the first of the newest entries |
| `DrizzleConfig.FullPath` | packages/db/drizzle.config.ts:15 | the full path is the base directory, a slash and the listed name |
| `DrizzleConfig.LocalDatabase` | packages/db/drizzle.config.ts:5-35 | `getLocalD1DB`; `LocalDatabaseChoice` and `ChosenIsNewest` state what it returns |
| `DrizzleConfig.LocalDatabaseChoice` | packages/db/drizzle.config.ts:5-35 | a database is found exactly when some name ends in `.sqlite`, and it is the first newest one resolved against the base; a failed listing or no candidate gives `undefined` |
| `DrizzleConfig.ChosenIsNewest` | packages/db/drizzle.config.ts:18-31 | the chosen file is a candidate at least as new as every other candidate |
| `DrizzleConfig.DrizzleConfig` | packages/db/drizzle.config.ts:38-56 | fixed `out`, `schema` and `dialect`; d1-http credentials from the environment exactly in production, else the local file's URL |
| `DrizzleConfig.ProductionIgnoresListing` | packages/db/drizzle.config.ts:42-50 | in production the local listing plays no part |
| `SetupNames.LowerChar` | scripts/first-time-setup.ts:62 | upper-case ASCII letters map to lower case and everything else is kept |
| `SetupNames.ToLower` | scripts/first-time-setup.ts:62 | lower-casing keeps the length and maps every character |
| `SetupNames.KeepAllowed` | scripts/first-time-setup.ts:64 | the filter leaves only `a`-`z`, `0`-`9` and `-`, each taken from the input |
| `SetupNames.KeepAllowedKeeps` | scripts/first-time-setup.ts:64 | a string of allowed characters passes the filter unchanged |
| `SetupNames.KeepAllowedConcat` | scripts/first-time-setup.ts:64 | the filter works character by character |
| `SetupNames.CollapseKeeps` | scripts/first-time-setup.ts:63 | a string without white space is not changed by the run replacement |
| `SetupNames.ToLowerKeeps` | scripts/first-time-setup.ts:62 | allowed characters are already lower case |
| `SetupNames.ToLowerConcat` | scripts/first-time-setup.ts:62 | lower-casing works character by character |
| `SetupNames.RunAfterLast` | scripts/first-time-setup.ts:63 | after a non-empty text, the scanner is inside a run exactly when the text's last character is white space |
| `SetupNames.CollapseConcat` | scripts/first-time-setup.ts:63 | the run replacement of a concatenation is that of each part, the second resuming in the state the first left |
| `SetupNames.CollapseInRun` | scripts/first-time-setup.ts:63 | white space continuing a run is dropped |
| `SetupNames.CollapseRun` | scripts/first-time-setup.ts:63 | a whole white-space run becomes a single `-` |
| `SetupNames.CollapseLeavesNoSpace` | scripts/first-time-setup.ts:63 | no white space is left after the run replacement |
| `SetupNames.CollapseBetween` | scripts/first-time-setup.ts:63 | a maximal run between two texts becomes exactly one `-` |
| `SetupNames.LowerEnds` | scripts/first-time-setup.ts:62-63 | lower-casing does not make white space or remove it |
| `SetupNames.SanitizedChars` | scripts/first-time-setup.ts:60-65 | `sanitizeResourceName` returns only `a`-`z`, `0`-`9` and `-` |
| `SetupNames.SanitizeResourceName` | scripts/first-time-setup.ts:60-65 | no contract of its own: `SanitizedChars`, `SanitizeIdempotent`, `SanitizeRun` and `SanitizeKeeps` state it |
| `SetupNames.SanitizeIdempotent` | scripts/first-time-setup.ts:60-65 | sanitizing a sanitized name changes nothing |
| `SetupNames.SanitizeRun` | scripts/first-time-setup.ts:60-65 | each maximal white-space run in a name becomes a single `-` |
| `SetupNames.SanitizeKeeps` | scripts/first-time-setup.ts:60-65 | a name of allowed characters is its own sanitized form |
| `SetupNames.NamesFor` | scripts/first-time-setup.ts:786-789 | every resource name starts with the project name and a dash |
| `SetupNames.NamesDistinct` | scripts/first-time-setup.ts:786-789 | the four resource names of a project differ from each other |
| `SetupNames.AllowedConcat` | scripts/first-time-setup.ts:786-789 | joining two strings of allowed characters gives one |
| `SetupNames.NamesSanitized` | scripts/first-time-setup.ts:777-789 | for a sanitized project name, every resource name is made of allowed characters |
| `SetupNames.Hex` | scripts/first-time-setup.ts:92 | hex encoding gives two lower-case hex digits per byte |
| `SetupNames.HexValue` | scripts/first-time-setup.ts:92 | a hex digit's value is its position among the digits |
| `SetupNames.HexValueOf` | scripts/first-time-setup.ts:92 | decoding a digit inverts encoding it |
| `SetupNames.HexRoundTrip` | scripts/first-time-setup.ts:92 | hex decoding inverts hex encoding |
| `SetupNames.SecureRandomString` | scripts/first-time-setup.ts:89-94 | the result has exactly the requested length, all lower-case hex digits |
| `SetupNames.RandomStringKeepsBytes` | scripts/first-time-setup.ts:89-94 | for an even length nothing is cut off, so the string decodes back to the random bytes |
| `SetupNames.SecretMeetsMinimum` | scripts/first-time-setup.ts:482 | the 32-character auth secret meets the minimum of 32 that env.ts:6 requires, and carries all 16 random bytes |
| `SetupFiles.Placeholder` | scripts/first-time-setup.ts:108 | a placeholder is the key in double braces |
| `SetupFiles.ApplyReplacements` | scripts/first-time-setup.ts:107-110 | the replacements applied in insertion order; `ReplaceHandlebars`, `ApplyInOrder` and `NoPlaceholderUnchanged` are about it |
| `SetupFiles.ReplaceHandlebars` | scripts/first-time-setup.ts:105-110 | the loop's result is the replacements applied one after another, in insertion order |
| `SetupFiles.ReplaceHandlebarsInFile` | scripts/first-time-setup.ts:96-114 | a missing file is left untouched; an existing one is rewritten with every replacement applied |
| `SetupFiles.ApplyInOrder` | scripts/first-time-setup.ts:107-110 | a later key is applied to the result of the earlier ones |
| `SetupFiles.PlaceholderOpens` | scripts/first-time-setup.ts:108 | text holding a placeholder contains `{{` |
| `SetupFiles.NoPlaceholderUnchanged` | scripts/first-time-setup.ts:107-110 | content without `{{` is unchanged by any replacements |
| `SetupFiles.LastIndexOfShape` | scripts/first-time-setup.ts:163 | the index found holds the character and none comes after it; no index means the character does not occur |
| `SetupFiles.ExtName` | scripts/first-time-setup.ts:163 | `path.extname`; `ExtNameShape` states it |
| `SetupFiles.ExtNameShape` | scripts/first-time-setup.ts:163-164 | the extension is empty or a suffix that starts with its last `.`, never the whole of a dot-file's name |
| `SetupFiles.WalkConcat` | scripts/first-time-setup.ts:149-187 | the entries of a directory are walked one after another |
| `SetupFiles.Walk` | scripts/first-time-setup.ts:144-188 | the files `processDirectory` visits; `WalkConcat`, `WalkStaysOutOfSkipped` and `WalkUnder` state it |
| `SetupFiles.WalkStaysOutOfSkipped` | scripts/first-time-setup.ts:153-160 | `node_modules`, `.git` and hidden directories contribute nothing |
| `SetupFiles.WalkUnder` | scripts/first-time-setup.ts:150-161 | every file found lies under the directory walked |
| `SetupFiles.WalkEntryUnder` | scripts/first-time-setup.ts:150-161 | every file found for one entry lies under the directory walked |
| `SetupFiles.ReplaceRepoReferences` | scripts/first-time-setup.ts:116-196 | the files written are the rewrites of the searched files, in walk order, and `filesUpdated` counts them |
| `SetupFiles.ProcessFiles` | scripts/first-time-setup.ts:149-187 | the per-file loop writes exactly the rewrites, and its counter is their number |
| `SetupFiles.RewritesSnoc` | scripts/first-time-setup.ts:149-187 | one more file adds its own write, if any, at the end |
| `SetupFiles.ProcessFile` | scripts/first-time-setup.ts:162-186 | a file gives at most one write, exactly its rewrite |
| `SetupFiles.RewriteWhen` | scripts/first-time-setup.ts:163-175 | a file is rewritten exactly when it is readable, has an allowed extension, contains `@repo/`, and the project is not `repo` |
| `SetupFiles.RewritesFromFiles` | scripts/first-time-setup.ts:149-187 | no more writes than files, each to a searched file's path with its rewritten content |
| `SetupFiles.KeptLines` | scripts/first-time-setup.ts:313-315 | the filter keeps at most all the lines |
| `SetupFiles.KeptLinesFrom` | scripts/first-time-setup.ts:313-315 | every kept line is an input line whose trimmed text is not `wrangler.jsonc` |
| `SetupFiles.KeptLinesConcat` | scripts/first-time-setup.ts:313-315 | lines are filtered one by one, keeping their order |
| `SetupFiles.KeptAllIffNone` | scripts/first-time-setup.ts:313-318 | every line is kept exactly when none is a `wrangler.jsonc` line |
| `SetupFiles.GitignoreEdit` | scripts/first-time-setup.ts:295-322 | `removeWranglerFromGitignore`; `GitignoreEditLines` states it |
| `SetupFiles.GitignoreEditLines` | scripts/first-time-setup.ts:304-321 | the file is written exactly when it exists and has a `wrangler.jsonc` line, and what is written splits back into the kept lines |
| `SetupWrangler.NoTokenInside` | scripts/first-time-setup.ts:333 | two matches of the account-id pattern never overlap |
| `SetupWrangler.TokensFromExact` | scripts/first-time-setup.ts:333-334 | the global match finds every position where the pattern matches, and nothing else |
| `SetupWrangler.TokensFromIncreasing` | scripts/first-time-setup.ts:333-334 | the matches are listed from left to right |
| `SetupWrangler.TokensFrom` | scripts/first-time-setup.ts:333-334 | the global match of the account-id pattern; `TokensFromExact`, `TokensFromIncreasing` and `NoTokenInside` state it |
| `SetupWrangler.AccountsOf` | scripts/first-time-setup.ts:324-347 | there is at most one account per line |
| `SetupWrangler.AccountItem` | scripts/first-time-setup.ts:329-342 | a line adds at most one account |
| `SetupWrangler.ExtractAccountDetails` | scripts/first-time-setup.ts:324-347 | the loop returns exactly the accounts of the output's lines, in line order |
| `SetupWrangler.AccountOfExact` | scripts/first-time-setup.ts:329-341 | a line yields an account exactly when it is framed `│ … │`, holds exactly one 32-digit lower-case hex token, and has a non-blank name cell; the id is that token |
| `SetupWrangler.AccountOf` | scripts/first-time-setup.ts:329-342 | one line of `extractAccountDetails`; `AccountOfExact`, `AccountOfSound`, `AccountOfComplete` and `AccountIdIsHex` state it |
| `SetupWrangler.AccountOfSound` | scripts/first-time-setup.ts:329-341 | an account found has those properties |
| `SetupWrangler.AccountOfComplete` | scripts/first-time-setup.ts:329-341 | a line with those properties yields that account |
| `SetupWrangler.AccountIdIsHex` | scripts/first-time-setup.ts:333-338 | an account id is 32 lower-case hex digits |
| `SetupWrangler.AccountsConcat` | scripts/first-time-setup.ts:328-344 | each line is handled on its own, in order |
| `SetupWrangler.AccountsSnoc` | scripts/first-time-setup.ts:328-344 | one more line adds its own account, if any, at the end |
| `SetupWrangler.AccountsFromLines` | scripts/first-time-setup.ts:328-344 | every account comes from a line that yields it |
| `SetupWrangler.BucketsOf` | scripts/first-time-setup.ts:633-646 | there is at most one bucket per line |
| `SetupWrangler.BucketItem` | scripts/first-time-setup.ts:637-645 | a line adds at most one bucket |
| `SetupWrangler.BucketOf` | scripts/first-time-setup.ts:637-645 | one line of `listR2Buckets`; `BucketsWellFormed` states it |
| `SetupWrangler.ListR2Buckets` | scripts/first-time-setup.ts:628-653 | no output, or an empty one, lists no bucket; otherwise the loop returns exactly the lines that pass the filter, trimmed, in order |
| `SetupWrangler.BucketsWellFormed` | scripts/first-time-setup.ts:637-644 | every name listed is a non-empty trimmed line without `│`, `─` or `Bucket` |
| `SetupWrangler.BucketsSnoc` | scripts/first-time-setup.ts:635-646 | one more line adds its own bucket, if any, at the end |
| `SetupWrangler.BucketsConcat` | scripts/first-time-setup.ts:635-646 | each line is handled on its own, in order |
| `SetupWrangler.SkipSpaces` | scripts/first-time-setup.ts:417-418 | the greedy `\s*` stops within the text |
| `SetupWrangler.QuotedAt` | scripts/first-time-setup.ts:417-418 | a capture of `"([^"]+)"` is non-empty and holds no quote |
| `SetupWrangler.FirstMatch` | scripts/first-time-setup.ts:401-418 | the match found is the leftmost one, and when none is found there is no match anywhere |
| `SetupWrangler.JsonFormWins` | scripts/first-time-setup.ts:417-420 | the JSON form's capture wins whenever it matches; the TOML form is used only without it |
| `SetupWrangler.CreationIgnoresInfo` | scripts/first-time-setup.ts:390-420 | when creation produced output, the `d1 info` output plays no part |
| `SetupWrangler.CreatedDatabaseId` | scripts/first-time-setup.ts:385-431 | the id `createDatabase` settles on; `JsonFormWins`, `CreationIgnoresInfo`, `CreatedDatabaseIdShape` and `UuidShape` state it |
| `SetupWrangler.CreatedDatabaseIdShape` | scripts/first-time-setup.ts:390-424 | an id found is non-empty; one from the creation output has no quote; a fallback id is the leftmost UUID of the info output |
| `SetupWrangler.UuidShape` | scripts/first-time-setup.ts:402 | a fallback id is 36 characters, hexadecimal except for dashes at positions 8, 13, 18 and 23 |
| `SetupCleanup.FindDatabase` | scripts/first-time-setup.ts:799 | the database found is the first one with the expected name, and none is found only when no name matches |
| `SetupCleanup.FindNamespace` | scripts/first-time-setup.ts:801 | the namespace found is the first one with the expected title, and none is found only when no title matches |
| `SetupCleanup.PlanFor` | scripts/first-time-setup.ts:786-801 | the expected names and the matches; `FindDatabase`, `FindNamespace` and `FoundIffMatched` state it |
| `SetupCleanup.Targets` | scripts/first-time-setup.ts:865-883 | at most three resources are deleted with a count |
| `SetupCleanup.Succeeded` | scripts/first-time-setup.ts:865-883 | no more successes than resources |
| `SetupCleanup.FoundHeading` | scripts/first-time-setup.ts:803 | the intended heading quotes the project name at a fixed position |
| `SetupCleanup.FoundHeadingAsWritten` | scripts/first-time-setup.ts:803 | as written, the heading has the fourteen characters `${projectName}` quoted at the position where the name belongs |
| `SetupCleanup.HeadingDiscrepancy` | scripts/first-time-setup.ts:803 | as written, the heading is the same for two different projects, whereas the intended heading differs |
| `SetupCleanup.Listing` | scripts/first-time-setup.ts:803-830 | the listing is five lines: the heading as line 803 prints it, then the four bullets |
| `SetupCleanup.Cleanup` | scripts/first-time-setup.ts:755-950 | the outcome is the reference outcome. It lists nothing without login and the plan otherwise, under the heading line 803 prints; it attempts the matched resources and then the workflow only when neither confirmation is answered no; it removes existing local files only when the third prompt is not answered no either. Each of the three prompts is tested for truthiness only, so a prompt left with Esc or Ctrl-C counts as yes |
| `SetupCleanup.ExpectedOutcome` | scripts/first-time-setup.ts:755-950 | the reference outcome `Cleanup` is proved against, with the answers tested for truthiness as the script tests them; `FoundIffMatched`, `DeletedCountBounds`, `NoDeletionWithoutConsent` and `CancelledPromptsDelete` are about it |
| `SetupCleanup.FoundAny` | scripts/first-time-setup.ts:805-832 | the `foundResources` flag is raised exactly when something matched |
| `SetupCleanup.DeleteResources` | scripts/first-time-setup.ts:865-886 | the matched resources are attempted in order and then the workflow; the count is the successes among the matched ones |
| `SetupCleanup.RemoveLocalFiles` | scripts/first-time-setup.ts:895-944 | the files removed are the existing ones among the four, in order |
| `SetupCleanup.ExistingOfFour` | scripts/first-time-setup.ts:907-943 | the four existence checks in sequence give the existing files in order |
| `SetupCleanup.LocalFilesRemoved` | scripts/first-time-setup.ts:895-944 | a local file is removed exactly when it exists |
| `SetupCleanup.SucceededSnoc` | scripts/first-time-setup.ts:868-883 | one more deletion adds one exactly when it succeeds |
| `SetupCleanup.FoundIffMatched` | scripts/first-time-setup.ts:799-832 | resources are found exactly when the database, the bucket or the namespace matched; the workflow is never among them |
| `SetupCleanup.DeletedCountBounds` | scripts/first-time-setup.ts:865-886 | the count is unaffected by the workflow deletion, is at most the matched resources and at most three, and equals them when every deletion succeeds |
| `SetupCleanup.SucceededAgree` | scripts/first-time-setup.ts:865-883 | the count depends only on how the listed deletions go |
| `SetupCleanup.SucceededAll` | scripts/first-time-setup.ts:865-883 | when every deletion succeeds, all are counted |
| `SetupCleanup.NoDeletionWithoutConsent` | scripts/first-time-setup.ts:842-861 | nothing is deleted when either confirmation is answered no |
| `SetupCleanup.CancelledPromptsDelete` | scripts/first-time-setup.ts:842-861 | as written, deletion happens exactly when the user is logged in, something matched and neither answer is no; two cancelled prompts delete every matched resource |
| `SetupCleanup.IntendedOutcome` | scripts/first-time-setup.ts:842-861 | the outcome with a cancelled prompt treated as a refusal; `IntendedNeedsConsent` is about it |
| `SetupCleanup.IntendedNeedsConsent` | scripts/first-time-setup.ts:842-861 | as intended, deletion happens exactly when the user is logged in, something matched and both answers are yes; without a cancelled prompt the intended outcome equals the written one, and a cancelled prompt cancels |

## Findings

| source | as written | input that shows it | evidently intended | confidence | as-written member | corrected member |
|---|---|---|---|---|---|---|
| scripts/first-time-setup.ts:803 | the heading of the cleanup listing is a double-quoted string, so `${projectName}` is printed literally | any two project names, such as `shop` and `blog`: both print `Resources found for project '${projectName}':` | a template literal that prints the project's name | not executed | `SetupCleanup.FoundHeadingAsWritten`, shown by `SetupCleanup.HeadingDiscrepancy` | `SetupCleanup.FoundHeading` |
| scripts/first-time-setup.ts:842-861 | the two confirmations are tested with `!shouldDelete` and `!doubleConfirm`, and `isCancel` is never called; clack's `confirm` returns a truthy cancel symbol when the prompt is left with Esc or Ctrl-C | a logged-in run that found the project's database, with both prompts left with Esc: every matched resource is deleted | a cancelled prompt cancels the cleanup, as answering no does | not executed | `SetupCleanup.ExpectedOutcome`, shown by `SetupCleanup.CancelledPromptsDelete` | `SetupCleanup.IntendedOutcome`, with `SetupCleanup.IntendedNeedsConsent` |

## Left out

- The durable workflow engine is left out: `step.sleep`, checkpoints, replay and the instance lifecycle belong to the platform runtime. `ExampleWorkflow.run` is only its result value (`WorkflowsWorker.RunResult`).
- `create`, `get`, the service-binding `fetch`, `response.json()`, `JSON.parse`, the repository calls and the e-mail address syntax are parameters. Their behaviour is not modelled.
- The gateway's route-level `c.req.valid` checks belong to the routing library. The trigger route is modelled from the validated body on, the status route from the path parameter on. The route's request schema is modelled only as far as `WorkflowSchemas.TriggerSchemasAgree` compares it.
- The HTTP status of the worker's reply is not part of the `WorkflowsGateway.Fetch` parameter type, because the gateway never reads it.
- Object property order: an object keeps its properties in the order they were written, and a lookup reads the first of two equal keys. JavaScript lists integer-like keys first, and `JSON.parse` keeps the last of two equal keys. A parsed object with an integer-like key or a repeated key is therefore not modelled as JavaScript orders or reads it.
- `Validation.CheckIntInRange` reports only the first check that fails. zod 4 may go on after a failed check and report more than one issue, for example for `limit: 1e16`, which is outside both the safe-integer range and `max(100)`. Whether a value is accepted, and the first issue, are as modelled.
- The wording of zod's own messages follows zod 4's English locale. It is not in the repository, so only the custom messages of the schemas are taken from the source.
- Hono and tRPC routing, OpenAPI metadata, superjson and logging are not modelled.
- The admin gate (`adminProcedure`) and `filterProtectedUsers` are abstract. The procedures are modelled after the gate with the caller's id as an input. The repository's own queries are not part of this model.
- Console output, spinners and prompts of the setup script are left out, except the cleanup listing. Prompt answers are inputs. In the cleanup, a `confirm` answer is yes, no or clack's cancel symbol, tested for truthiness as the script does. The other `confirm` prompts of the setup flow are tested the same way, but they are not part of this model.
- `process.exit` is left out. The cleanup modelled returns an outcome instead, and `SetupWrangler.CreatedDatabaseId` returns `None` where the script exits.
- `execSync` is left out. A command's output is an input, `None` when the command did not return a string.
- File reads, writes and deletions are left out. A file is its optional content, a write is a returned (path, content) pair, and a deletion is a returned file.
- In `replaceRepoReferences`, the directory tree is an input value. The walk lists the files before they are processed; the real script processes each one when the walk reaches it. Both orders give the same files in the same order.
- `path.join` (`SetupFiles.JoinPath`) and `path.resolve` (`DrizzleConfig.FullPath`) are modelled as joining with `/`, with no normalisation of `..` or repeated slashes.
- `SetupFiles.ExtName` follows Node's `path.extname` for plain names: the empty string without a dot, for a leading-dot name, or for `..`. Other corner cases of the Node implementation are not modelled.
- `SetupFiles.ApplyReplacements`: keys are taken literally, and `$` patterns in replacement values are not expanded. The keys at every call site are the fixed identifiers `projectName`, `dbName` and `appName`, which hold no regular-expression characters. The values are the sanitized project name, the database name built from it, and `"server"`, none of which holds `$`.
- `SetupNames.ToLower` maps only ASCII letters. `toLowerCase` also maps non-ASCII letters, which the later filter removes anyway, except for letters that lower-case to ASCII, such as the Kelvin sign.
- `crypto.randomBytes` is an input byte sequence of the requested size.
- `listD1Databases` and `listKVNamespaces` parse JSON output; their results are inputs here. Their parsing, and the other Cloudflare operations of the setup script, are not part of this model: `promptForAccountId`, `createBucket`, `createKVNamespace`, the secret upload, the `.env` and wrangler-config writers, and migrations.
- The UI, client wiring, server and auth singletons, the thin repository and router wrappers, and the migration copy scripts are not part of this model.
