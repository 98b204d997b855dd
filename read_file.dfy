/**
 * The read_file tool of src/tools/handlers/readFile.ts once the file
 * system is given: the guard chain (path validator, workspace check,
 * existence) and the line limit with its "more lines" marker, cut to the
 * output limit. The file system is a map from resolved absolute paths to
 * their text.
 */
module ReadFile {
  import opened Wrappers
  import opened Strings
  import opened Limits
  import opened Validation
  import opened Paths

  const MissingFile: string := "文件不存在 "

  /** The line appended after a cut: `... (还有 N 行)`. */
  function MoreLines(n: int): string {
    "... (还有 " + IntToString(n) + " 行)"
  }

  /** `xs.slice(0, end)` for an integer `end`: a negative end counts back from the last element. */
  function SliceTo<T>(xs: seq<T>, end: int): (r: seq<T>)
    ensures 0 <= end <= |xs| ==> r == xs[..end]
    ensures end > |xs| ==> r == xs
    ensures end < 0 ==> r == xs[..if |xs| + end < 0 then 0 else |xs| + end]
  {
    var e := if end < 0 then (if |xs| + end < 0 then 0 else |xs| + end)
             else if end > |xs| then |xs| else end;
    xs[..e]
  }

  /** The limit is given, non-zero and below the line count: the `if` of the source. */
  predicate CutsLines(lineCount: nat, limit: Option<int>) {
    limit.Some? && limit.value != 0 && limit.value < lineCount
  }

  /** The text of a cut listing before the output limit applies. */
  function CutText(lines: seq<string>, limit: int): string {
    Join(SliceTo(lines, limit) + [MoreLines(|lines| - limit)], "\n")
  }

  /** What an existing file shows: its first `limit` lines and a marker, or the whole text, at most `MaxOutputSize` characters either way. */
  function ShowLines(content: string, limit: Option<int>): (r: string)
    ensures |r| <= MaxOutputSize
    ensures !CutsLines(|Split(content, '\n')|, limit) ==> StartsWith(content, r)
  {
    var lines := Split(content, '\n');
    if CutsLines(|lines|, limit) then Take(CutText(lines, limit.value), MaxOutputSize)
    else Take(content, MaxOutputSize)
  }

  /** `readFileContent(path, limit)` over the file system `files`, with the workspace test `rule`: `AsWritten` is the source's `safePath`. */
  function ReadFileContent(rule: Containment, workDir: string, files: map<string, string>,
                           path: string, limit: Option<int>): (r: string)
    ensures FilePathError(path).Some? ==> r == ToolError(FilePathError(path).value)
    ensures FilePathError(path).None? && WorkspacePath(rule, workDir, path).Failure? ==>
              r == ToolError(OutsideWorkspace + path)
    ensures FilePathError(path).None? && WorkspacePath(rule, workDir, path).Success? ==>
              var safe := WorkspacePath(rule, workDir, path).value;
              StartsWith(safe, ResolveDir(workDir, workDir))
              && (rule == SegmentAware ==> Within(safe, ResolveDir(workDir, workDir)))
              && (safe !in files ==> r == ToolError(MissingFile + path))
              && (safe in files ==> r == ShowLines(files[safe], limit))
  {
    match FilePathError(path)
    case Some(msg) => ToolError(msg)
    case None =>
      match WorkspacePath(rule, workDir, path)
      case Failure(msg) => ToolError(msg)
      case Success(safe) =>
        if safe !in files then ToolError(MissingFile + path)
        else ShowLines(files[safe], limit)
  }

  // ----------------------------------------------------------------- lemmas

  /** A refused path reads no file: the reply is the same whatever the file system holds. */
  lemma RefusedPathReadsNothing(rule: Containment, workDir: string, files: map<string, string>,
                                other: map<string, string>, path: string, limit: Option<int>)
    requires FilePathError(path).Some? || WorkspacePath(rule, workDir, path).Failure?
    ensures ReadFileContent(rule, workDir, files, path, limit) == ReadFileContent(rule, workDir, other, path, limit)
  {
  }

  /** `/p/work2/x` passes the path validator. */
  lemma SiblingPathValid()
    ensures FilePathError("/p/work2/x") == None
  {
    SiblingSegments();
    DescendingPathValid("/p/work2/x");
  }

  /** The validator's segments of `/p/work2/x`, none of them `..`. */
  lemma SiblingSegments()
    ensures "/p/work2/x" != "" && '\0' !in "/p/work2/x"
    ensures ".." !in PathSegments("/p/work2/x")
  {
    SiblingChars();
    SegmentsWithoutBackslash("/p/work2/x");
    SplitSibling();
    SiblingNames();
  }

  /** `/p/work2/x` holds neither NUL nor a backslash. */
  lemma SiblingChars()
    ensures "/p/work2/x" != "" && '\0' !in "/p/work2/x" && '\\' !in "/p/work2/x"
  {
  }

  /** No segment of `/p/work2/x` is `..`. */
  lemma SiblingNames()
    ensures ".." !in ["", "p", "work2", "x"]
  {
  }

  /** As written, `read_file` in the workspace `/p/work` shows a file of the sibling directory `/p/work2`; the segment-aware test refuses it. */
  lemma SiblingFileRead(files: map<string, string>, limit: Option<int>)
    requires "/p/work2/x" in files
    ensures ReadFileContent(AsWritten, "/p/work", files, "/p/work2/x", limit) == ShowLines(files["/p/work2/x"], limit)
    ensures ReadFileContent(SegmentAware, "/p/work", files, "/p/work2/x", limit)
         == ToolError(OutsideWorkspace + "/p/work2/x")
  {
    SiblingPathValid();
    SiblingAccepted();
    SiblingRefused();
  }

  /** The two workspace tests give the same reply for every relative path without a backslash. */
  lemma RulesAgreeOnRelativePaths(workDir: string, files: map<string, string>, path: string, limit: Option<int>)
    requires !StartsWith(path, "/") && '\\' !in path
    ensures ReadFileContent(AsWritten, workDir, files, path, limit)
         == ReadFileContent(SegmentAware, workDir, files, path, limit)
  {
    if FilePathError(path).None? {
      AcceptedPathInWorkspace(workDir, path);
    }
  }

  /** Without a cutting limit, a file that fits is shown whole. */
  lemma WholeFileShown(content: string, limit: Option<int>)
    requires !CutsLines(|Split(content, '\n')|, limit)
    requires |content| <= MaxOutputSize
    ensures ShowLines(content, limit) == content
  {
  }

  /** The marker holds no line break. */
  lemma MoreLinesOneLine(n: nat)
    ensures '\n' !in MoreLines(n)
  {
    var d := NatToString(n);
    assert '\n' !in d by {
      forall i | 0 <= i < |d|
        ensures d[i] != '\n'
      {
        assert IsDigit(d[i]);
      }
    }
    assert MoreLines(n) == "... (还有 " + d + " 行)";
  }

  /** Lines free of breaks, joined by breaks, split back into themselves. */
  lemma SplitOfLines(parts: seq<string>, kept: seq<string>, marker: string)
    requires parts == kept + [marker]
    requires forall i :: 0 <= i < |kept| ==> '\n' !in kept[i]
    requires '\n' !in marker
    ensures Split(Join(parts, "\n"), '\n') == parts
  {
    forall i | 0 <= i < |parts|
      ensures '\n' !in parts[i]
    {
      if i < |kept| {
        assert parts[i] == kept[i];
      }
    }
    SplitJoin(parts, '\n');
  }

  /** A positive cutting limit lists exactly the file's first `k` lines, then the marker counting the rest. */
  lemma CutListsFirstLines(content: string, lines: seq<string>, k: int)
    requires lines == Split(content, '\n')
    requires 0 < k < |lines|
    ensures Split(CutText(lines, k), '\n') == lines[..k] + [MoreLines(|lines| - k)]
    ensures ShowLines(content, Some(k)) == Take(CutText(lines, k), MaxOutputSize)
  {
    SplitNoBreaks(content, lines);
    CutLines(lines, k);
    CutShown(content, k);
  }

  /** The lines of a text hold no break. */
  lemma SplitNoBreaks(content: string, lines: seq<string>)
    requires lines == Split(content, '\n')
    ensures forall i :: 0 <= i < |lines| ==> '\n' !in lines[i]
  {
  }

  /** Cutting break-free lines at `k` and splitting again gives the first `k` lines and the marker. */
  lemma CutLines(lines: seq<string>, k: nat)
    requires k <= |lines|
    requires forall i :: 0 <= i < |lines| ==> '\n' !in lines[i]
    ensures Split(CutText(lines, k), '\n') == lines[..k] + [MoreLines(|lines| - k)]
  {
    var marker := MoreLines(|lines| - k);
    PrefixNoBreak(lines, k);
    MoreLinesOneLine(|lines| - k);
    SplitOfLines(lines[..k] + [marker], lines[..k], marker);
    CutTextIs(lines, k);
  }

  /** The cut text joins the first `k` lines and the marker. */
  lemma CutTextIs(lines: seq<string>, k: nat)
    requires k <= |lines|
    ensures CutText(lines, k) == Join(lines[..k] + [MoreLines(|lines| - k)], "\n")
  {
  }

  /** A positive limit below the line count cuts. */
  lemma CutShown(content: string, k: int)
    requires 0 < k < |Split(content, '\n')|
    ensures ShowLines(content, Some(k)) == Take(CutText(Split(content, '\n'), k), MaxOutputSize)
  {
  }

  /** The first `k` parts of a split hold no break. */
  lemma PrefixNoBreak(lines: seq<string>, k: nat)
    requires k <= |lines|
    requires forall i :: 0 <= i < |lines| ==> '\n' !in lines[i]
    ensures forall i :: 0 <= i < |lines[..k]| ==> '\n' !in lines[..k][i]
  {
  }

  /** The lines a positive limit keeps are the start of the file, up to the break after line `k`. */
  lemma CutKeepsFileStart(content: string, k: int)
    requires 0 < k < |Split(content, '\n')|
    ensures StartsWith(content, Join(Split(content, '\n')[..k], "\n") + "\n")
  {
    var lines := Split(content, '\n');
    assert lines == lines[..k] + lines[k..];
    JoinConcat(lines[..k], lines[k..], "\n");
    assert content == Join(lines[..k], "\n") + "\n" + Join(lines[k..], "\n");
  }

  /** A negative limit drops lines from the end, yet the marker counts more lines than were dropped. */
  lemma NegativeLimitOvercounts(content: string, k: int)
    requires k < 0
    ensures var lines := Split(content, '\n');
            var kept := SliceTo(lines, k);
            CutsLines(|lines|, Some(k))
            && |lines| - k > |lines| - |kept|
  {
  }
}
