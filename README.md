# Elly tool-safety layer, in Dafny

This project models the part of the Elly desktop chat assistant that stands
between the language model and the user's files:

- the **permission gate** (`PermissionManager`), a small state machine over
  an ordered list of pending requests and a set of auto-approved tool names;
- the **workspace sandbox** (`WorkspaceManager`), which resolves a tool's path
  against the active workspace root and refuses path traversal and
  sensitive files;
- the **`edit_file` tool**, which replaces the first or every occurrence of a
  string in a file inside the workspace;
- **tool dispatch** (`ToolRegistry` and `ToolService.callTool`): look the tool
  up, ask the gate, run the tool only when permitted;
- small pure helpers: `formatMessages`, the WebSocket message types and their
  guards, `parseArgs` and `readSingleValue` of the test-data seeding script,
  and `bumpVersion` of the release script.

Objects whose fields the program updates in place are classes
(`PermissionManager`, `ToolRegistry`, `ToolService`, `FileStore`); each is
specified against a pure function of its state (`Request`, `Decide`, `With`,
`Call`, `Deliver`, `EditFile`), and the properties are proved about those
functions. The promise-and-event handshake of the gate is two steps:
`Request` answers at once or returns the id of a pending request, and
`Decide` settles it. A call suspended on a pending request is a value
(`AwaitingDecision`) that `Resume` finishes.

JavaScript built-ins the code relies on are written out: `indexOf`, `split`
(including `split("")`), `join`, `String(v)`, truthiness, array holes, and
`Number` on version components. `Date.now()` and the random id suffix become
a `now` parameter and a counter; the active workspace and the workspace
store become parameters (`Option<Workspace>` and a map by id); the file
system is a map from absolute paths to contents; a tool's `execute` is an
uninterpreted function from its parameters to an outcome (a result or a
thrown message).

Where the specification and the code disagree, the model follows the code:

- The type `ToolDefinition` declares `needPermission`
  (`src/shared/types-tools.ts:23`), but the gate reads `needsApproval`
  (`src/main/services/PermissionManager.ts:23`). The model has one boolean
  field, `needsApproval`, which is what the gate reads. The `edit_file`
  tool sets `needPermission: true`, so as written the gate never asks
  about it (see Findings).
- `resolvePath` and `isPathInWorkspace` call
  `dbService.workspace.getActiveWorkspace()` and
  `dbService.workspace.getWorkspaceById(id)`
  (`src/main/services/WorkspaceManager.ts:17`, `:40`). `DBService` defines
  both methods itself (`src/main/services/DBService.ts:132-138`) but has no
  `workspace` property, so as written each call throws a `TypeError`.
  `edit_file` calls `workspaceManager.getActiveWorkspace()`
  (`src/main/tools/edit-file-tool.ts:22`), which `WorkspaceManager` does not
  define, so as written the tool always ends in its rethrow. The model reads
  the active workspace and the workspaces by id from parameters, as the
  evident intent of those calls. The workspace tests stub
  `manager.getActiveWorkspace`, which `resolvePath` does not call; the model
  states their expected results against an active workspace given directly.
- Replace-all with an empty search string on an empty file reports -1
  replacements, because `"".split("")` is empty. `EditFileTool.AllOccurrencesOfEmpty`
  states this.

## Model

| member | source | states |
|---|---|---|
| Permissions.PermissionManager.RequestPermission | src/main/services/PermissionManager.ts:22-39 | the new gate state and the answer are those of `Request`, and pending ids stay fresh and increasing |
| Permissions.PermissionManager.HandleDecision | src/main/services/PermissionManager.ts:43-62 | the new gate state and the resolved value are those of `Decide`, and the gate stays well formed |
| Permissions.PermissionManager.GetLatestPendingRequest | src/main/services/PermissionManager.ts:65-68 | changes nothing; returns none exactly when nothing is pending, otherwise a pending request whose id is the largest pending id |
| Permissions.PermissionManager.ResetAutoApprovals | src/main/services/PermissionManager.ts:70-72 | empties the auto-approved names and keeps the pending requests |
| Permissions.Find | src/main/services/PermissionManager.ts:43-44 | the position of the first pending request with the id, or none when no pending request has it |
| Permissions.RequestFastPath | src/main/services/PermissionManager.ts:23-27 | a request is granted at once with the gate unchanged (nothing queued, nothing announced) if and only if the tool needs no approval or its name is auto-approved |
| Permissions.RequestSlowPath | src/main/services/PermissionManager.ts:29-39 | otherwise exactly one request with a fresh id, the tool's name and the caller's params is queued and announced, and the answer is that id |
| Permissions.RequestKeepsWellFormed | src/main/services/PermissionManager.ts:29-37 | queuing a request keeps pending ids fresh and increasing |
| Permissions.DecideKeepsWellFormed | src/main/services/PermissionManager.ts:43-44 | settling a request keeps pending ids fresh and increasing |
| Permissions.DecideRemovesExactly | src/main/services/PermissionManager.ts:43-44 | any decision on a pending request removes that request and only that one; the others stay in order |
| Permissions.DecideApproveAll | src/main/services/PermissionManager.ts:46-49 | "approve_all" resolves true and adds the request's tool name to the auto-approved names |
| Permissions.DecideApproveOnce | src/main/services/PermissionManager.ts:50-52 | "approve_once" resolves true and leaves the auto-approved names unchanged |
| Permissions.DecideOther | src/main/services/PermissionManager.ts:53-54 | "deny" or any other string resolves false and leaves the auto-approved names unchanged |
| Permissions.DecideUnknown | src/main/services/PermissionManager.ts:61-63 | a decision changes nothing and reaches no listener if and only if no request with that id is pending |
| Permissions.DecideTwice | src/main/services/PermissionManager.ts:43-44 | the listener is single-shot: a second decision on the same id changes nothing |
| Permissions.LatestIsNewest | src/main/services/PermissionManager.ts:65-68 | the latest request is none exactly when nothing is pending, and otherwise the pending request created last |
| Permissions.LatestAfterRequest | src/main/services/PermissionManager.ts:37 | a request just queued is the latest pending request |
| Permissions.ResetKeepsWellFormed | src/main/services/PermissionManager.ts:70-72 | a reset empties the auto-approved names, keeps the pending requests and keeps the gate well formed |
| Permissions.RunKeepsAutoApprovals | src/main/services/PermissionManager.ts:46-47 | no sequence of requests and decisions removes a name from the auto-approved names |
| Permissions.ApproveAllThenFastPath | src/main/services/PermissionManager.ts:25-49 | after "approve_all" on a request, every later request for the same tool name is granted at once, whatever requests and decisions come between |
| Workspace.IsSensitiveFileIff | src/main/services/WorkspaceManager.ts:8-14 | a path is sensitive if and only if it ends in ".env", ends in ".env." and one more non-line-terminator character, ends in ".git/config", ends in "id_rsa", or contains ".ssh/" |
| Workspace.SensitivePatternsUnrolled | src/main/services/WorkspaceManager.ts:35-37 | `some` over the pattern list is the disjunction of the five patterns |
| Workspace.ResolvePathWithoutWorkspace | src/main/services/WorkspaceManager.ts:17-20 | with no active workspace, resolution fails with "No active workspace" |
| Workspace.ResolvePathCases | src/main/services/WorkspaceManager.ts:22-32 | with an active workspace the result is the traversal error if the path escapes the root, else the sensitive-file error if the resolved path is sensitive, else the resolved path |
| Workspace.EscapesRootIff | src/main/services/WorkspaceManager.ts:23-25 | the traversal test fires if and only if the resolved path is not below the root, or its first segment below the root begins with ".." |
| Workspace.RelativeNeverAbsolute | src/main/services/WorkspaceManager.ts:25 | the relative path never starts with '/', so the `isAbsolute` half of the test never decides |
| Workspace.ResolvePathOk | src/main/services/WorkspaceManager.ts:22-32 | every successful result is the normalised root-plus-path, lies below the root, has no first segment below the root beginning with "..", and is not sensitive |
| Workspace.ResolveInside | src/main/services/WorkspaceManager.ts:22-32 | a relative path of ordinary segments, the first not beginning with "..", resolves to the root followed by those segments, and resolution succeeds unless that path is sensitive |
| Workspace.ResolveIsNormal | src/main/services/WorkspaceManager.ts:22 | resolution yields segments with no empty, ".", ".." or '/' in them |
| Workspace.ResolveOneOfRender | src/main/services/WorkspaceManager.ts:42-43 | resolving a resolved path again gives the same path |
| Workspace.ResolvedPathIsInWorkspace | src/main/services/WorkspaceManager.ts:39-45 | a path that `resolvePath` returns passes `isPathInWorkspace` whenever the store holds the active workspace under its id and root |
| Workspace.UnknownWorkspaceIsOutside | src/main/services/WorkspaceManager.ts:40-41 | an unknown workspace id makes every path outside |
| Workspace.PrefixWithoutSeparatorBoundary | src/main/services/WorkspaceManager.ts:44 | membership is a raw string prefix, so "/ws2/x" counts as inside "/ws" |
| Workspace.DotDotPrefixedChildRefused | src/main/services/WorkspaceManager.ts:25 | a child named "..foo" directly under any root is refused as traversal |
| Workspace.MainTsResolvesBelowRoot | src/main/services/__tests__/WorkspaceManager.test.ts:37-40 | "src/main.ts" under "/tmp/test-workspace" resolves to "/tmp/test-workspace/src/main.ts" |
| Workspace.ButtonResolvesBelowRoot | src/main/services/__tests__/WorkspaceManager.test.ts:54-57 | "src/components/Button.tsx" resolves to the root joined with it |
| Workspace.DotDotTraversalRefused | src/main/services/__tests__/WorkspaceManager.test.ts:42-46 | "../../etc/passwd" is refused as traversal |
| Workspace.AbsoluteTraversalRefused | src/main/services/__tests__/WorkspaceManager.test.ts:48-52 | "/etc/passwd" is refused as traversal |
| Strings.IndexOf | src/main/tools/edit-file-tool.ts:36 | `indexOf` returns the first index at which the string occurs, or -1 when it occurs nowhere |
| Strings.SplitJoinIsReplaceScan | src/main/tools/edit-file-tool.ts:34 | `split(t).join(r)` equals the left-to-right non-overlapping replacement, and the number of pieces minus one is the number of replacements |
| Strings.ReplaceScanLength | src/main/tools/edit-file-tool.ts:34 | each replacement changes the length by the difference of the two strings' lengths |
| Strings.ReplaceScanAbsent | src/main/tools/edit-file-tool.ts:34 | with no occurrence, replacing all changes nothing and counts zero |
| Strings.SplitOnJoin | scripts/release.js:24-37 | splitting a '.'-join of pieces without '.' gives the pieces back |
| Strings.DigitsValueOfNatToString | scripts/release.js:24 | reading back the decimal digits of a number gives the number |
| EditFileTool.Execute | src/main/tools/edit-file-tool.ts:19-54 | the outcome and the new file map are those of `EditFile` on the old file map |
| EditFileTool.RewriteFile | src/main/tools/edit-file-tool.ts:31-50 | reading, editing and overwriting one file gives the outcome and file map of `Rewrite` |
| EditFileTool.ReplaceAllDefault | src/main/tools/edit-file-tool.ts:10 | `replaceAll` defaults to false |
| EditFileTool.FirstOccurrence | src/main/tools/edit-file-tool.ts:36-41 | first-occurrence mode fails if and only if the string does not occur; otherwise the content is the prefix before the first occurrence, the replacement, and the rest after it, with one replacement |
| EditFileTool.AllOccurrences | src/main/tools/edit-file-tool.ts:33-34 | replace-all mode replaces every non-overlapping occurrence left to right, reports their number, and changes the length accordingly |
| EditFileTool.AllOccurrencesAbsent | src/main/tools/edit-file-tool.ts:48 | with no occurrence, replace-all mode succeeds with the content unchanged and zero replacements |
| EditFileTool.ReplaceScanBySelf | src/main/tools/edit-file-tool.ts:34 | replacing a string by itself leaves the content unchanged |
| EditFileTool.CountScanBound | src/main/tools/edit-file-tool.ts:48 | the reported occurrences fit in the content |
| EditFileTool.AllOccurrencesOfEmpty | src/main/tools/edit-file-tool.ts:48 | with an empty search string the content is the replacement put between every two characters (`Interleave`) and the count is the content's length minus one, so an empty file reports -1 |
| EditFileTool.EditWithoutWorkspace | src/main/tools/edit-file-tool.ts:22-25 | with no active workspace the tool fails with "No active workspace" and no file changes |
| EditFileTool.RethrownMessage | src/main/tools/edit-file-tool.ts:51-53 | every rethrown error reads "Failed to edit file [object Object]: " followed by the original message |
| EditFileTool.EditRefusedPath | src/main/tools/edit-file-tool.ts:26 | a path the sandbox refuses is rethrown with the sandbox's message and no file changes |
| EditFileTool.EditOutsideWorkspace | src/main/tools/edit-file-tool.ts:26-29 | a resolved path outside the workspace fails with "File outside workspace" and no file changes; with a consistent store this never happens |
| EditFileTool.EditFound | src/main/tools/edit-file-tool.ts:31-50 | for an existing file: an absent string in first-occurrence mode fails with "string not found in file" and writes nothing; otherwise only that file is overwritten with the edited content and the result reports the path and the count |
| EditFileTool.EditMissingFile | src/main/tools/edit-file-tool.ts:31 | a missing file is rethrown with the "no such file" message and nothing is written |
| EditFileTool.EditNeverAsks | src/main/tools/edit-file-tool.ts:17 | as written, the gate grants every edit at once and records nothing |
| EditFileTool.GatedEditAsks | src/main/services/PermissionManager.ts:23-37 | with the approval flag the gate reads set, an edit waits for the user exactly when "edit_file" is not auto-approved, queuing one request with the caller's params |
| ToolServices.ToolService.CallTool | src/main/services/ToolService.ts:5-14 | the gate, the call's state and the executions performed are those of `Call` |
| ToolServices.ToolService.Resume | src/main/services/ToolService.ts:9-13 | delivering a decision to a suspended call gives the gate, state and executions of `Deliver` |
| ToolServices.ToolService.RunTool | src/main/services/ToolService.ts:10-13 | a denied call throws "User denied this operation!" and runs nothing; a permitted one runs `execute` once on the caller's args |
| ToolServices.UnknownTool | src/main/services/ToolService.ts:6-7 | an unknown name throws "Tool <name> not found", asks the gate nothing and runs nothing |
| ToolServices.SettleCases | src/main/services/ToolService.ts:10-13 | denial throws and runs nothing if and only if permission is refused; the outcome is exactly `execute(args)`, run once, if and only if it is granted |
| ToolServices.CallAsksWithArgs | src/main/services/ToolService.ts:9 | a tool needing approval that is not auto-approved suspends the call on one new request for that tool with exactly the caller's args, and runs nothing |
| ToolServices.CallRunsAtOnce | src/main/services/ToolService.ts:9-13 | a tool needing no approval, or auto-approved, returns `execute(args)` at once and leaves the gate unchanged |
| ToolServices.ResumeDecides | src/main/services/ToolService.ts:9-13 | a suspended call finishes with the decision: approvals run the tool, anything else throws as denied; the request is no longer pending |
| ToolServices.ApproveAllThenRunsAtOnce | src/main/services/ToolService.ts:9-13 | after "approve_all", later calls of the same tool run at once whatever happens between |
| Registry.ToolRegistry.Register | src/main/tools/registry.ts:6-8 | the new registry is `With` of the old one and stays well formed |
| Registry.ToolRegistry.GetTool | src/main/tools/registry.ts:10-12 | the entry is found if and only if the name is registered, and it carries that name |
| Registry.ToolRegistry.GetAITools | src/main/tools/registry.ts:14-23 | one descriptor per registered name, in enumeration order, each of type "function" with that tool's name and description |
| Registry.WithKeepsWellFormed | src/main/tools/registry.ts:7 | a registration keeps names distinct and keys matching names |
| Registry.LookupAfterWith | src/main/tools/registry.ts:6-12 | after registering a tool its name yields it, and every other name yields what it did before |
| Registry.ReRegisterKeepsOrder | src/main/tools/registry.ts:7 | re-registering a name replaces the entry in place, leaving the order unchanged |
| Registry.NeverRegistered | src/main/tools/registry.ts:10-12 | a name never registered is not found |
| Registry.LastRegistrationWins | src/main/tools/registry.ts:7 | the last registration under a name is the one found |
| Registry.RegisterAllOrder | src/main/tools/registry.ts:14-23 | the enumeration lists each registered name once, exactly the registered names, ordered by first registration |
| Registry.DescriptorsShape | src/main/tools/registry.ts:14-23 | one descriptor per registered name, of type "function", with the tool's name and description |
| FormatMessages.FormatMessages | src/renderer/src/components/formatMessages.ts:3-21 | one output per input, in order, each with the item's id and role and the content of its parts |
| FormatMessages.ContentIsConcatenation | src/renderer/src/components/formatMessages.ts:11-14 | the content is the in-order concatenation of the texts of the text parts |
| FormatMessages.ContentWithoutText | src/renderer/src/components/formatMessages.ts:12-14 | a message without text parts has empty content |
| FormatMessages.ContentAppend | src/renderer/src/components/formatMessages.ts:11-14 | the content of concatenated parts is the concatenation of their contents |
| FormatMessages.FormatMessagesAppend | src/renderer/src/components/formatMessages.ts:10 | formatting distributes over concatenation of the item list |
| WebSocketTypes.GuardsMatchVariants | src/shared/types-websocket.ts:82-92 | each guard holds if and only if the message is of its variant |
| WebSocketTypes.ExactlyOneGuard | src/shared/types-websocket.ts:61 | exactly one of the three guards holds for every server message |
| WebSocketTypes.ServerTagDeterminesVariant | src/shared/types-websocket.ts:72-76 | two server messages have the same tag if and only if they are of the same variant |
| WebSocketTypes.ClientMessageTags | src/shared/types-websocket.ts:15-28 | a client message is tagged "register" or "stop", and its tag determines the variant |
| ToolTypes.CategoryNamesDistinct | src/shared/types-tools.ts:3-10 | two categories have the same name if and only if they are equal |
| JsValues.ReadSingleValueOfNonRow | scripts/seed-test-data.ts:81 | a falsy or non-object input gives undefined |
| JsValues.ReadSingleValueOfRow | scripts/seed-test-data.ts:82-84 | for a row: a missing, null or undefined first value gives undefined, a string is returned unchanged, anything else gives `String(v)` |
| JsValues.ReadSingleValueOfCount | scripts/seed-test-data.ts:80-85 | a count row yields the decimal digits of the count, which read back to it |
| JsValues.ToJsStringOfStrings | src/main/tools/edit-file-tool.ts:52 | `String` of an array of strings is their comma-join |
| JsValues.ObjectToString | src/main/tools/edit-file-tool.ts:52 | `String` of a plain object is "[object Object]", whatever it contains |
| SeedArgs.ParseArgs | scripts/seed-test-data.ts:26-57 | the loop computes the outcome of the recursive parser `ParseFrom` from the defaults |
| SeedArgs.OnlySeparators | scripts/seed-test-data.ts:27-31 | empty argv, or only "--", gives path "./elly.db" and no reset |
| SeedArgs.SeparatorSkipped | scripts/seed-test-data.ts:31 | "--" is skipped wherever it appears |
| SeedArgs.ResetIdempotent | scripts/seed-test-data.ts:36-39 | "--reset" sets the flag, and repeating it changes nothing further |
| SeedArgs.DbConsumesValue | scripts/seed-test-data.ts:40-48 | "--db v" sets the path to v and consumes v, even when v looks like a flag |
| SeedArgs.LastDbWins | scripts/seed-test-data.ts:40-48 | of two "--db" options the last wins |
| SeedArgs.DbMissingValue | scripts/seed-test-data.ts:41-45 | "--db" last, or followed by an empty string, fails with "Missing value for --db" and exit status 1 |
| SeedArgs.HelpAndUnknown | scripts/seed-test-data.ts:32-53 | "--help" or "-h" stops with help and status 0 whatever follows; any other unknown token fails with "Unknown arg: <token>" and status 1 |
| SeedArgs.ParsedFromArgv | scripts/seed-test-data.ts:26-57 | a parsed path is the default or a value that follows a "--db" in argv, and reset is set only if "--reset" is in argv |
| Release.BumpParts | scripts/release.js:26-35 | the in-place assignments produce the declarative bump `Bumped` |
| Release.BumpVersion | scripts/release.js:22-38 | the new version is `NextVersion` of the current one |
| Release.Put | scripts/release.js:27-34 | an array assignment sets one slot, extends the array with holes when past its end, and leaves every other slot |
| Release.DefaultIsPatch | scripts/release.js:49 | no or an empty bump type means "patch" |
| Release.UnknownTypeIsPatch | scripts/release.js:33-35 | any type other than "major" and "minor" bumps like "patch" |
| Release.BumpedShape | scripts/release.js:24-37 | the bump keeps at least three components and leaves those past the third untouched |
| Release.ComponentCount | scripts/release.js:24-37 | the new version has as many dot-separated components as the old one, or three if it had fewer |
| Release.SemanticBump | scripts/release.js:26-35 | on M.m.p: "major" gives (M+1).0.0, "minor" M.(m+1).0, any other type M.m.(p+1) |
| Release.ComponentsOfNumbers | scripts/release.js:24 | reading a version written from numbers gives those numbers back |
| Release.ShortVersion | scripts/release.js:26-35 | a two-component version bumped by "patch" gains a third component `NaN`; by "major" it becomes (M+1).0.0 |

## Left out

- Parameter validation by `zod` and `toJSONSchema`: the parameters are taken as already typed, and a descriptor carries the tool's `parameters` value as it is, without the `toJSONSchema` conversion.
- Request ids: `Date.now()` and `nanoid` are replaced by a counter, so ids are fresh by construction; the clock is a `now` parameter.
- The EventEmitter and Promise mechanics: a request and its decision are two steps. The model does not capture a decision sent synchronously from a `permission-required` listener, before the decision listener is attached, which the program would lose.
- Real concurrency between several pending calls: steps are sequential.
- JavaScript numbers: integers are unbounded, there is no floating point, and `Number` on a version component is modelled only for strings of decimal digits (the empty string giving 0); whitespace, signs, exponents and hexadecimal forms give `NaN` in the model.
- `Object.values` ordering of integer-like keys: rows keep their key order.
- A failing `writeFile`, file encodings and UTF-16 surrogate pairs: strings are sequences of characters.
- The process working directory that `path.resolve` consults for a relative workspace root is taken to be "/".
- The calls `dbService.workspace.getActiveWorkspace()`, `dbService.workspace.getWorkspaceById(id)` and `workspaceManager.getActiveWorkspace()`, which throw as written: the active workspace and the workspaces by id are parameters, so the model does not capture the `TypeError` these calls raise.
- Console output, `printHelp` and `process.exit`: outcomes are datatype variants with their exit status.
- The other tools (read, write, glob, grep, bash), chat orchestration, persistence, the HTTP, WebSocket and IPC plumbing, the UI, and the git and package-file I/O of the release script.

## Findings

| source | as written | input that shows it | evidently intended | confidence | as-written member | corrected member |
|---|---|---|---|---|---|---|
| src/main/tools/edit-file-tool.ts:17 | the tool sets `needPermission: true`, but the gate reads `needsApproval` (src/main/services/PermissionManager.ts:23), which the definition leaves unset | any call of "edit_file" with any gate state: the gate grants it at once and no request is queued | editing a file waits for the user's decision unless "edit_file" was approved for all | not executed | EditFileTool.EditNeverAsks | EditFileTool.GatedEditAsks |
