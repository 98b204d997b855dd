/**
 * The edit_file tool of src/tools/handlers/editFile.ts once the file
 * system is given: the guard chain (path validator, workspace check,
 * existence, occurrence of the old text) and the replacement of the first
 * occurrence, written back to the same file.
 */
module EditFile {
  import opened Wrappers
  import opened Strings
  import opened Validation
  import opened Paths
  import opened ReadFile

  const EditedPrefix: string := "已编辑 "

  /** The reply when the old text does not occur in the file. */
  function TextNotFound(path: string): string {
    ToolError("在 " + path + " 中未找到文本")
  }

  /** The reply of one call and the file system after it. */
  datatype Edit = Edit(reply: string, files: map<string, string>)

  /** `editFileContent(path, oldText, newText)` over the file system `files`, with the workspace test `rule`: `AsWritten` is the source's `safePath`. */
  function EditFileContent(rule: Containment, workDir: string, files: map<string, string>, path: string,
                           oldText: string, newText: string): (r: Edit)
    ensures FilePathError(path).Some? ==> r == Edit(ToolError(FilePathError(path).value), files)
    ensures FilePathError(path).None? && WorkspacePath(rule, workDir, path).Failure? ==>
              r == Edit(ToolError(OutsideWorkspace + path), files)
    ensures FilePathError(path).None? && WorkspacePath(rule, workDir, path).Success? ==>
              var safe := WorkspacePath(rule, workDir, path).value;
              StartsWith(safe, ResolveDir(workDir, workDir))
              && (rule == SegmentAware ==> Within(safe, ResolveDir(workDir, workDir)))
              && (safe !in files ==> r == Edit(ToolError(MissingFile + path), files))
              && (safe in files && !Contains(files[safe], oldText) ==> r == Edit(TextNotFound(path), files))
              && (safe in files && Contains(files[safe], oldText) ==>
                    r == Edit(EditedPrefix + path, files[safe := ReplaceFirst(files[safe], oldText, newText)]))
  {
    match FilePathError(path)
    case Some(msg) => Edit(ToolError(msg), files)
    case None =>
      match WorkspacePath(rule, workDir, path)
      case Failure(msg) => Edit(ToolError(msg), files)
      case Success(safe) =>
        if safe !in files then Edit(ToolError(MissingFile + path), files)
        else
          var content := files[safe];
          if !Contains(content, oldText) then Edit(TextNotFound(path), files)
          else Edit(EditedPrefix + path, files[safe := ReplaceFirst(content, oldText, newText)])
  }

  // ----------------------------------------------------------------- lemmas

  /** Only a successful edit writes, and it writes the one file it names. */
  lemma OnlySuccessWrites(rule: Containment, workDir: string, files: map<string, string>, path: string,
                          oldText: string, newText: string)
    ensures var r := EditFileContent(rule, workDir, files, path, oldText, newText);
            r.reply != EditedPrefix + path ==> r.files == files
    ensures var r := EditFileContent(rule, workDir, files, path, oldText, newText);
            r.files.Keys == files.Keys
            && forall k :: k in files && k != Resolve(workDir, workDir, path) ==> r.files[k] == files[k]
  {
  }

  /** As written, `edit_file` in the workspace `/p/work` rewrites a file of the sibling directory `/p/work2`; the segment-aware test refuses it and writes nothing. */
  lemma SiblingFileEdited(files: map<string, string>, oldText: string, newText: string)
    requires "/p/work2/x" in files && Contains(files["/p/work2/x"], oldText)
    ensures EditFileContent(AsWritten, "/p/work", files, "/p/work2/x", oldText, newText)
         == Edit(EditedPrefix + "/p/work2/x",
                 files["/p/work2/x" := ReplaceFirst(files["/p/work2/x"], oldText, newText)])
    ensures EditFileContent(SegmentAware, "/p/work", files, "/p/work2/x", oldText, newText)
         == Edit(ToolError(OutsideWorkspace + "/p/work2/x"), files)
  {
    SiblingPathValid();
    SiblingAccepted();
    SiblingRefused();
  }

  /** An empty old text occurs at the very start, so the new text is put in front of the file. */
  lemma EmptyOldTextPrepends(content: string, newText: string)
    ensures Contains(content, "")
    ensures ReplaceFirst(content, "", newText) == newText + content
  {
    assert IsAt(content, "", 0);
    assert content[0..] == content;
  }

  /** After an edit the file holds the new text where the old one first stood. */
  lemma EditedFileHoldsNewText(content: string, oldText: string, newText: string)
    requires Contains(content, oldText)
    ensures IsAt(ReplaceFirst(content, oldText, newText), newText, IndexOf(content, oldText))
    ensures |ReplaceFirst(content, oldText, newText)| == |content| - |oldText| + |newText|
  {
    var i := IndexOf(content, oldText);
    var s := ReplaceFirst(content, oldText, newText);
    assert s == content[..i] + newText + content[i + |oldText|..];
    assert s[i..i + |newText|] == newText;
  }
}
