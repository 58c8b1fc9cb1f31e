/**
 * The `edit_file` tool: replace the first occurrence, or every non-overlapping
 * occurrence, of a string in a file inside the active workspace, and report
 * how many replacements were made. The file system is a map from absolute
 * paths to file contents.
 */
module EditFileTool {
  import opened Wrappers
  import opened Strings
  import opened JsValues
  import opened ToolTypes
  import opened Workspace
  import Permissions

  const NAME: string := "edit_file"
  const DESCRIPTION: string := "edit file content"
  const OUTSIDE_WORKSPACE: string := "File outside workspace"
  const NOT_FOUND: string := "string not found in file"

  /** The parsed parameters; `replaceAll` may be left out. */
  datatype EditInput = EditInput(filePath: string, oldString: string, newString: string, replaceAll: Option<bool>)

  /** The schema's default for `replaceAll`. */
  function ReplaceAllOf(p: EditInput): bool {
    match p.replaceAll
    case None => false
    case Some(b) => b
  }

  /** The parameters object as the caller passed it. */
  function ParamsValue(p: EditInput): JsValue {
    Obj([("filePath", Str(p.filePath)), ("oldString", Str(p.oldString)), ("newString", Str(p.newString))] +
        match p.replaceAll
        case None => []
        case Some(b) => [("replaceAll", Bool(b))])
  }

  /** New file content and the reported number of replacements. */
  datatype Edited = Edited(content: string, replacements: int)

  /** The content transform: the first occurrence by `indexOf` and `slice`, or
      all occurrences by `split` and `join`. */
  function EditContent(content: string, target: string, replacement: string, all: bool): Option<Edited> {
    if all then
      var parts := Split(content, target);
      Some(Edited(Join(parts, replacement), |parts| - 1))
    else
      var i := IndexOf(content, target);
      if i == -1 then None
      else Some(Edited(content[..i] + replacement + content[i + |target|..], 1))
  }

  /** The message Node.js gives when the file to read does not exist. */
  function NoSuchFile(path: string): string {
    "ENOENT: no such file or directory, open '" + path + "'"
  }

  /** Every error thrown inside `execute` is rethrown with this prefix. */
  function Rethrown(p: EditInput, message: string): Outcome {
    Thrown("Failed to edit file " + ToJsString(ParamsValue(p)) + ": " + message)
  }

  function SuccessData(path: string, replacements: int): JsValue {
    Obj([("filePath", Str(path)), ("replacements", Number(replacements))])
  }

  /** `execute(params)`: the outcome and the file system afterwards.
      `active` is the active workspace and `byId` the workspaces by id. */
  function EditFile(files: map<string, string>, active: Option<Workspace>, byId: map<string, Workspace>,
                    p: EditInput): (Outcome, map<string, string>)
  {
    if active.None? then (Returned(Failure(NO_ACTIVE_WORKSPACE)), files)
    else
      match ResolvePath(active, p.filePath)
      case Err(e) => (Rethrown(p, e), files)
      case Ok(path) =>
        if !IsPathInWorkspace(path, active.value.id, byId) then (Returned(Failure(OUTSIDE_WORKSPACE)), files)
        else Rewrite(files, path, p)
  }

  /** Reading, editing and writing back the file at a checked path. */
  function Rewrite(files: map<string, string>, path: string, p: EditInput): (Outcome, map<string, string>) {
    if path !in files then (Rethrown(p, NoSuchFile(path)), files)
    else
      match EditContent(files[path], p.oldString, p.newString, ReplaceAllOf(p))
      case None => (Returned(Failure(NOT_FOUND)), files)
      case Some(e) => (Returned(Success(SuccessData(path, e.replacements))), files[path := e.content])
  }

  class FileStore {
    var files: map<string, string>

    constructor(files: map<string, string>)
      ensures this.files == files
    {
      this.files := files;
    }
  }

  /** `EditFileTool.execute`, reading and overwriting the file in place. */
  method Execute(store: FileStore, active: Option<Workspace>, byId: map<string, Workspace>, p: EditInput)
    returns (outcome: Outcome)
    modifies store
    ensures (outcome, store.files) == EditFile(old(store.files), active, byId, p)
  {
    if active.None? {
      return Returned(Failure(NO_ACTIVE_WORKSPACE));
    }
    var resolved := ResolvePath(active, p.filePath);
    if resolved.Err? {
      return Rethrown(p, resolved.error);
    }
    var path := resolved.value;
    if !IsPathInWorkspace(path, active.value.id, byId) {
      return Returned(Failure(OUTSIDE_WORKSPACE));
    }
    outcome := RewriteFile(store, path, p);
  }

  method RewriteFile(store: FileStore, path: string, p: EditInput) returns (outcome: Outcome)
    modifies store
    ensures (outcome, store.files) == Rewrite(old(store.files), path, p)
  {
    if path !in store.files {
      return Rethrown(p, NoSuchFile(path));
    }
    var origin := store.files[path];
    var newContent: string;
    var replacements: int;
    if ReplaceAllOf(p) {
      var parts := Split(origin, p.oldString);
      newContent := Join(parts, p.newString);
      replacements := |parts| - 1;
    } else {
      var index := IndexOf(origin, p.oldString);
      if index == -1 {
        return Returned(Failure(NOT_FOUND));
      }
      newContent := origin[..index] + p.newString + origin[index + |p.oldString|..];
      replacements := 1;
    }
    store.files := store.files[path := newContent];
    outcome := Returned(Success(SuccessData(path, replacements)));
  }

  // ---------------------------------------------------------------------
  // The content transform

  /** `replaceAll` defaults to false. */
  lemma ReplaceAllDefault(filePath: string, target: string, replacement: string)
    ensures !ReplaceAllOf(EditInput(filePath, target, replacement, None))
  {
  }

  /** First-occurrence mode fails exactly when the string does not occur;
      otherwise it splices the replacement in at the first occurrence and
      reports one replacement. */
  lemma FirstOccurrence(content: string, target: string, replacement: string)
    ensures EditContent(content, target, replacement, false).None? <==> !Contains(content, target)
    ensures Contains(content, target) ==>
              exists i :: OccursAt(content, target, i) &&
                (forall j :: 0 <= j < i ==> !OccursAt(content, target, j)) &&
                EditContent(content, target, replacement, false) ==
                  Some(Edited(content[..i] + replacement + content[i + |target|..], 1))
  {
    var i := IndexOf(content, target);
    if Contains(content, target) {
      var j :| 0 <= j <= |content| && OccursAt(content, target, j);
      assert i >= 0;
    }
  }

  /** Replace-all mode replaces every non-overlapping occurrence found left
      to right and reports how many it replaced. */
  lemma AllOccurrences(content: string, target: string, replacement: string)
    requires target != []
    ensures EditContent(content, target, replacement, true) ==
              Some(Edited(ReplaceScan(content, target, replacement), CountScan(content, target)))
    ensures |ReplaceScan(content, target, replacement)| ==
              |content| + CountScan(content, target) * (|replacement| - |target|)
  {
    SplitJoinIsReplaceScan(content, target, replacement);
    ReplaceScanLength(content, target, replacement);
  }

  /** With no occurrence, replace-all mode succeeds, leaves the content as it
      was and reports zero replacements. */
  lemma AllOccurrencesAbsent(content: string, target: string, replacement: string)
    requires target != [] && !Contains(content, target)
    ensures EditContent(content, target, replacement, true) == Some(Edited(content, 0))
  {
    AllOccurrences(content, target, replacement);
    ReplaceScanAbsent(content, target, replacement);
  }

  /** Replacing a string by itself changes nothing. */
  lemma {:induction false} ReplaceScanBySelf(s: string, target: string)
    requires target != []
    ensures ReplaceScan(s, target, target) == s
    decreases |s|
  {
    if StartsWith(s, target) {
      ReplaceScanBySelf(s[|target|..], target);
      assert s == s[..|target|] + s[|target|..];
    } else if s != [] {
      ReplaceScanBySelf(s[1..], target);
      assert s == [s[0]] + s[1..];
    }
  }

  /** The non-overlapping occurrences fit in the content. */
  lemma {:induction false} CountScanBound(s: string, target: string)
    requires target != []
    ensures CountScan(s, target) * |target| <= |s|
    decreases |s|
  {
    if StartsWith(s, target) {
      CountScanBound(s[|target|..], target);
    } else if s != [] {
      CountScanBound(s[1..], target);
    }
  }

  /** The string `s` with `sep` put between every two of its characters. */
  function Interleave(s: string, sep: string): string
    decreases |s|
  {
    if |s| <= 1 then s else [s[0]] + sep + Interleave(s[1..], sep)
  }

  /** Replace-all with an empty search string puts the replacement between
      every two characters; on an empty file it reports -1 replacements,
      since splitting the empty string on "" yields no pieces. */
  lemma AllOccurrencesOfEmpty(content: string, replacement: string)
    ensures EditContent(content, "", replacement, true) ==
              Some(Edited(Interleave(content, replacement), |content| - 1))
    ensures content == [] ==> EditContent(content, "", replacement, true) == Some(Edited("", -1))
  {
    JoinChars(content, replacement);
  }

  lemma {:induction false} JoinChars(s: string, sep: string)
    ensures Join(Chars(s), sep) == Interleave(s, sep)
    decreases |s|
  {
    if |s| > 1 {
      JoinChars(s[1..], sep);
      var rest := Chars(s[1..]);
      forall i | 0 <= i < |s| ensures Chars(s)[i] == ([[s[0]]] + rest)[i] {
        if i > 0 {
          assert rest[i - 1] == [s[1..][i - 1]];
        }
      }
      assert Chars(s) == [[s[0]]] + rest;
      JoinCons([s[0]], Chars(s[1..]), sep);
    } else if |s| == 1 {
      assert s == [s[0]] && Chars(s)[0] == [s[0]];
      assert Chars(s) == [s];
    }
  }

  // ---------------------------------------------------------------------
  // The tool as a whole

  /** Without an active workspace the tool fails and touches no file. */
  lemma EditWithoutWorkspace(files: map<string, string>, byId: map<string, Workspace>, p: EditInput)
    ensures EditFile(files, None, byId, p) == (Returned(Failure(NO_ACTIVE_WORKSPACE)), files)
  {
  }

  /** The parameters object renders as "[object Object]" in the message. */
  lemma RethrownMessage(p: EditInput, message: string)
    ensures Rethrown(p, message) == Thrown("Failed to edit file [object Object]: " + message)
  {
    ObjectToString(ParamsValue(p).entries, []);
    assert "Failed to edit file " + "[object Object]" + ": " == "Failed to edit file [object Object]: ";
  }

  /** A path the sandbox refuses is rethrown with the parameters rendered as
      "[object Object]", and no file changes. */
  lemma EditRefusedPath(files: map<string, string>, w: Workspace, byId: map<string, Workspace>,
                        p: EditInput, e: string)
    requires ResolvePath(Some(w), p.filePath) == Err(e)
    ensures EditFile(files, Some(w), byId, p) ==
              (Thrown("Failed to edit file [object Object]: " + e), files)
  {
    RethrownMessage(p, e);
  }

  /** A resolved path outside the workspace found by id fails without reading
      or writing; when `byId` knows the active workspace under its own root,
      this never happens. */
  lemma EditOutsideWorkspace(files: map<string, string>, w: Workspace, byId: map<string, Workspace>,
                             p: EditInput)
    requires ResolvePath(Some(w), p.filePath).Ok?
    ensures var path := ResolvePath(Some(w), p.filePath).value;
            !IsPathInWorkspace(path, w.id, byId) ==>
              EditFile(files, Some(w), byId, p) == (Returned(Failure(OUTSIDE_WORKSPACE)), files)
    ensures w.id in byId && byId[w.id].path == w.path ==>
              IsPathInWorkspace(ResolvePath(Some(w), p.filePath).value, w.id, byId)
  {
    if w.id in byId && byId[w.id].path == w.path {
      ResolvedPathIsInWorkspace(w, p.filePath, ResolvePath(Some(w), p.filePath).value, byId);
    }
  }

  /** Once the file is found: in first-occurrence mode an absent string fails
      and writes nothing; otherwise the file is overwritten with the edited
      content, only that file changes, and the result reports the resolved
      path and the replacement count. */
  lemma EditFound(files: map<string, string>, w: Workspace, byId: map<string, Workspace>, p: EditInput)
    requires ResolvePath(Some(w), p.filePath).Ok?
    requires var path := ResolvePath(Some(w), p.filePath).value;
             IsPathInWorkspace(path, w.id, byId) && path in files
    ensures var path := ResolvePath(Some(w), p.filePath).value;
            var (outcome, files') := EditFile(files, Some(w), byId, p);
            match EditContent(files[path], p.oldString, p.newString, ReplaceAllOf(p))
            case None =>
              !ReplaceAllOf(p) && !Contains(files[path], p.oldString) &&
              outcome == Returned(Failure(NOT_FOUND)) && files' == files
            case Some(e) =>
              outcome == Returned(Success(SuccessData(path, e.replacements))) &&
              files'.Keys == files.Keys && files'[path] == e.content &&
              (forall q :: q in files && q != path ==> files'[q] == files[q])
  {
    var path := ResolvePath(Some(w), p.filePath).value;
    FirstOccurrence(files[path], p.oldString, p.newString);
  }

  /** A missing file is rethrown with the Node.js message and nothing is written. */
  lemma EditMissingFile(files: map<string, string>, w: Workspace, byId: map<string, Workspace>, p: EditInput)
    requires ResolvePath(Some(w), p.filePath).Ok?
    requires var path := ResolvePath(Some(w), p.filePath).value;
             IsPathInWorkspace(path, w.id, byId) && path !in files
    ensures EditFile(files, Some(w), byId, p) ==
              (Thrown("Failed to edit file [object Object]: " +
                      NoSuchFile(ResolvePath(Some(w), p.filePath).value)), files)
  {
    RethrownMessage(p, NoSuchFile(ResolvePath(Some(w), p.filePath).value));
  }

  // ---------------------------------------------------------------------
  // The tool's definition, as the permission gate sees it

  /** The definition as written: it sets `needPermission`, which the gate
      never reads, so the gate's flag is unset. */
  function Definition(execute: JsValue -> Outcome): ToolDefinition {
    ToolDefinition(NAME, DESCRIPTION, ToolCategory.Edit, false, Obj([]), execute)
  }

  /** As written, editing a file is never put to the user. */
  lemma EditNeverAsks(g: Permissions.GateState, execute: JsValue -> Outcome, params: JsValue, now: int)
    ensures Permissions.Request(g, Definition(execute), params, now) == (g, Permissions.Immediate(true))
  {
  }

  /** The definition with the flag the gate reads set, as `needPermission:
      true` intends. */
  function GatedDefinition(execute: JsValue -> Outcome): ToolDefinition {
    ToolDefinition(NAME, DESCRIPTION, ToolCategory.Edit, true, Obj([]), execute)
  }

  /** With the flag set, an edit waits for the user unless "edit_file" was
      approved for all. */
  lemma GatedEditAsks(g: Permissions.GateState, execute: JsValue -> Outcome, params: JsValue, now: int)
    ensures var (g', answer) := Permissions.Request(g, GatedDefinition(execute), params, now);
            answer.Pending? <==> NAME !in g.autoApprovals
    ensures var (g', answer) := Permissions.Request(g, GatedDefinition(execute), params, now);
            answer.Pending? ==> g'.pending == g.pending + [Permissions.PermissionRequest(answer.id, NAME, params, now)]
  {
  }
}
