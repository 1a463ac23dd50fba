/**
 * What the editor-event handlers compute before a heartbeat reaches the
 * throttle: the file path of a document URI, the line number, cursor
 * column and line count a change or a save reports, and the project
 * fields a heartbeat is given when it is queued.
 */
module Events {
  import opened Wrappers
  import opened Text
  import opened Heartbeats

  // ---------------------------------------------------------------------
  // Paths

  const FileScheme := "file://"

  /** cleanFileURI without path cleaning: the URI with its `file://` scheme removed. */
  function CleanFileUri(uri: string): (path: string)
    ensures HasPrefix(uri, FileScheme) ==> FileScheme + path == uri
    ensures !HasPrefix(uri, FileScheme) ==> path == uri
  {
    TrimPrefix(uri, FileScheme)
  }

  /** The path of a `file://` URI is what follows the scheme. */
  lemma CleanFileUriOfPath(path: string)
    ensures CleanFileUri(FileScheme + path) == path
  {
    assert (FileScheme + path)[..|FileScheme|] == FileScheme;
  }

  /** The part of `s` after its last '/'. */
  function LastSegment(s: string): (r: string)
    ensures |r| <= |s| && r == s[|s| - |r|..] && '/' !in r
    ensures |r| < |s| ==> s[|s| - |r| - 1] == '/'
  {
    if s == [] || s[|s| - 1] == '/' then []
    else
      var r := LastSegment(s[..|s| - 1]) + [s[|s| - 1]];
      assert s[..|s| - 1][|s| - |r|..] + [s[|s| - 1]] == s[|s| - |r|..];
      r
  }

  /** `s` without its trailing slashes. */
  function TrimTrailingSlashes(s: string): (r: string)
    ensures |r| <= |s| && r == s[..|r|]
    ensures r == [] || r[|r| - 1] != '/'
    ensures forall i :: |r| <= i < |s| ==> s[i] == '/'
  {
    if s != [] && s[|s| - 1] == '/' then TrimTrailingSlashes(s[..|s| - 1]) else s
  }

  /**
   * `filepath.Base` on a Unix system: "." for the empty path, "/" for a
   * path of slashes only, otherwise the last element once trailing
   * slashes are removed.
   */
  function Base(path: string): (name: string)
    ensures name != []
    ensures name == "/" || '/' !in name
    ensures path == [] ==> name == "."
    ensures path != [] && TrimTrailingSlashes(path) == [] ==> name == "/"
    ensures var t := TrimTrailingSlashes(path);
      t != [] ==> |name| <= |t| && name == t[|t| - |name|..] && (|name| == |t| || t[|t| - |name| - 1] == '/')
  {
    if path == [] then "."
    else
      var t := TrimTrailingSlashes(path);
      if t == [] then "/" else LastSegment(t)
  }

  /** The base name of a directory, a '/' and a name is that name. */
  lemma BaseOfPath(dir: string, name: string)
    requires name != [] && '/' !in name
    ensures Base(dir + "/" + name) == name
  {
    var path := dir + "/" + name;
    assert path[|path| - 1] == name[|name| - 1];
    assert path[|path| - |name| - 1] == '/';
    assert path[|path| - |name|..] == name;
  }

  /** A path with no '/' is its own base name. */
  lemma BaseOfName(name: string)
    requires name != [] && '/' !in name
    ensures Base(name) == name
  {
  }

  // ---------------------------------------------------------------------
  // Project fields

  /**
   * The record as queueHeartbeat stores it: an empty alternate project
   * becomes the base name of the project root, and an empty project
   * folder becomes the project folder, each only when the server knows
   * one; nothing else changes.
   */
  function FillProject(hb: Heartbeat, projectRoot: string, projectFolder: string): (r: Heartbeat)
    ensures r.alternateProject ==
      if hb.alternateProject == "" && projectRoot != "" then Base(projectRoot) else hb.alternateProject
    ensures r.projectFolder ==
      if hb.projectFolder == "" && projectFolder != "" then projectFolder else hb.projectFolder
    ensures r == hb.(alternateProject := r.alternateProject, projectFolder := r.projectFolder)
  {
    var alternate := if hb.alternateProject == "" && projectRoot != "" then Base(projectRoot) else hb.alternateProject;
    var folder := if hb.projectFolder == "" && projectFolder != "" then projectFolder else hb.projectFolder;
    hb.(alternateProject := alternate, projectFolder := folder)
  }

  /** Filling twice is filling once: a filled field is never empty again. */
  lemma FillProjectIdempotent(hb: Heartbeat, projectRoot: string, projectFolder: string)
    ensures FillProject(FillProject(hb, projectRoot, projectFolder), projectRoot, projectFolder)
         == FillProject(hb, projectRoot, projectFolder)
  {
  }

  // ---------------------------------------------------------------------
  // Change and save notifications

  /** A zero-based position in a text document. */
  datatype Position = Position(line: nat, character: nat)

  datatype Range = Range(start: Position, end: Position)

  /**
   * One element of a change notification's content changes: an
   * incremental edit, whose range may be absent, or the whole new text of
   * the document.
   */
  datatype ContentChange = Incremental(range: Option<Range>, text: string) | Whole(text: string)

  /** What a notification reports about where the user is in the file. */
  datatype Location = Location(lineNumber: int, cursorPos: int, lines: int)

  /** `len(strings.Split(text, "\n"))`: one more than the number of line breaks. */
  function LineCount(text: string): (n: nat)
    ensures n == Count(text, '\n') + 1
  {
    SplitLength(text, '\n');
    |Split(text, '\n')|
  }

  /**
   * The location a change notification reports. It starts from line 1,
   * column 0 and one line; only the first change is read, and only when
   * it is an incremental edit: its range's start gives the line (made
   * one-based) and the column, and its text, when not empty, gives the
   * line count.
   */
  function ChangeLocation(changes: seq<ContentChange>): (loc: Location)
    ensures loc.lineNumber >= 1 && loc.cursorPos >= 0 && loc.lines >= 1
    ensures changes == [] || changes[0].Whole? ==> loc == Location(1, 0, 1)
    ensures changes != [] && changes[0].Incremental? ==>
      && (changes[0].range.Some? ==>
            loc.lineNumber == changes[0].range.value.start.line + 1 &&
            loc.cursorPos == changes[0].range.value.start.character)
      && (changes[0].range.None? ==> loc.lineNumber == 1 && loc.cursorPos == 0)
      && loc.lines == Count(changes[0].text, '\n') + 1
  {
    if changes == [] || changes[0].Whole? then Location(1, 0, 1)
    else
      var change := changes[0];
      var lineNumber := if change.range.Some? then change.range.value.start.line + 1 else 1;
      var cursorPos := if change.range.Some? then change.range.value.start.character else 0;
      Location(lineNumber, cursorPos, if change.text != "" then LineCount(change.text) else 1)
  }

  /** Changes after the first never affect the location. */
  lemma OnlyFirstChangeCounts(change: ContentChange, rest: seq<ContentChange>, other: seq<ContentChange>)
    ensures ChangeLocation([change] + rest) == ChangeLocation([change] + other)
  {
  }

  /** The heartbeat a change notification produces, before throttling and queueing. */
  function ChangeHeartbeat(uri: string, changes: seq<ContentChange>, now: int): (hb: Heartbeat)
    ensures hb.entity == CleanFileUri(uri) && hb.timeMs == now && !hb.isWrite
    ensures hb.entityType == "file" && hb.category == "coding" && hb.plugin == "Zed"
    ensures !hb.isUnsaved && hb.localFile == "" && hb.aiLineChanges == 0 && hb.humanLineChanges == 0
    ensures hb.lineNumber == ChangeLocation(changes).lineNumber
    ensures hb.cursorPos == ChangeLocation(changes).cursorPos
    ensures hb.lines == ChangeLocation(changes).lines
    ensures hb.alternateProject == "" && hb.projectFolder == ""
  {
    var loc := ChangeLocation(changes);
    Heartbeat(CleanFileUri(uri), "file", "coding", now, "Zed", loc.lineNumber, loc.cursorPos, loc.lines,
              "", "", false, false, "", 0, 0)
  }

  /**
   * The heartbeat a save notification produces: a write on line 1 at the
   * column last recorded for the file, whose line count comes from the
   * saved text when the notification carries it.
   */
  function SaveHeartbeat(uri: string, text: Option<string>, now: int, cursorPos: int): (hb: Heartbeat)
    ensures hb.entity == CleanFileUri(uri) && hb.timeMs == now && hb.isWrite
    ensures hb.entityType == "file" && hb.category == "coding" && hb.plugin == "Zed"
    ensures !hb.isUnsaved && hb.localFile == "" && hb.aiLineChanges == 0 && hb.humanLineChanges == 0
    ensures hb.lineNumber == 1 && hb.cursorPos == cursorPos
    ensures hb.lines == if text.Some? then Count(text.value, '\n') + 1 else 1
    ensures hb.alternateProject == "" && hb.projectFolder == ""
  {
    var lines := if text.Some? then LineCount(text.value) else 1;
    Heartbeat(CleanFileUri(uri), "file", "coding", now, "Zed", 1, cursorPos, lines,
              "", "", true, false, "", 0, 0)
  }
}
