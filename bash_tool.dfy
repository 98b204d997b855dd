/**
 * The bash tool of src/tools/handlers/bash.ts once the spawned process's
 * outcome is given: a quick blocklist, then the validator's blocklist, and
 * only then a run whose combined output is trimmed and cut to the output
 * limit.
 */
module BashTool {
  import opened Wrappers
  import opened Strings
  import opened Limits
  import opened Validation

  /** The substrings the handler refuses before asking the validator. */
  const QuickPatterns: seq<string> := ["rm -rf /", "sudo", "shutdown", "reboot", "> /dev/"]

  const CommandBlocked: string := "错误：危险命令被阻止"
  const NoOutput: string := "(无输出)"

  /** What running `bash -c command` gave: both streams' text, or the error thrown while spawning or reading. */
  datatype Spawned = Finished(stdout: string, stderr: string) | SpawnFailed(message: string)

  /** The refusal for `command`, if either blocklist stops it; `None` means the command is run. */
  function Screen(command: string): (r: Option<string>)
    ensures r.None? <==>
              (forall j :: 0 <= j < |QuickPatterns| ==> !Contains(command, QuickPatterns[j]))
              && CommandError(command).None?
    ensures (exists j :: 0 <= j < |QuickPatterns| && Contains(command, QuickPatterns[j])) ==>
              r == Some(CommandBlocked)
  {
    if exists j :: 0 <= j < |QuickPatterns| && Contains(command, QuickPatterns[j]) then Some(CommandBlocked)
    else match CommandError(command)
         case Some(msg) => Some(ToolError(msg))
         case None => None
  }

  /** The reply made from a finished run: the trimmed output cut to `MaxOutputSize`, or a placeholder when it is blank. */
  function ShapeOutput(stdout: string, stderr: string): (r: string)
    ensures Trim(stdout + stderr) == "" ==> r == NoOutput
    ensures Trim(stdout + stderr) != "" ==>
              r != "" && |r| <= MaxOutputSize && StartsWith(Trim(stdout + stderr), r)
    ensures |Trim(stdout + stderr)| <= MaxOutputSize && Trim(stdout + stderr) != "" ==>
              r == Trim(stdout + stderr)
  {
    var truncated := Take(Trim(stdout + stderr), MaxOutputSize);
    if truncated == "" then NoOutput else truncated
  }

  /** `executeBashCommand(command)`, with `run` standing for what the spawn would give. */
  function ExecuteBashCommand(command: string, run: Spawned): (r: string)
    ensures Screen(command).Some? ==> r == Screen(command).value
    ensures Screen(command).None? && run.Finished? ==> r == ShapeOutput(run.stdout, run.stderr)
    ensures Screen(command).None? && run.SpawnFailed? ==> r == ToolError(run.message)
  {
    match Screen(command)
    case Some(refusal) => refusal
    case None =>
      match run
      case Finished(out, err) => ShapeOutput(out, err)
      case SpawnFailed(message) => ToolError(message)
  }

  // ----------------------------------------------------------------- lemmas

  /** A refused command never reaches the process: its reply is the same whatever the run would give. */
  lemma BlockedNeverRuns(command: string, run: Spawned, other: Spawned)
    requires Screen(command).Some?
    ensures ExecuteBashCommand(command, run) == ExecuteBashCommand(command, other) == Screen(command).value
  {
  }

  /** The validator's own message reaches the reply only for the patterns the quick list lacks. */
  lemma ValidatorOnlyForOthers(command: string)
    requires Screen(command).Some? && Screen(command) != Some(CommandBlocked)
    ensures exists p :: p in [":(){ :|: };", "mkfs", "dd if=/dev/zero"]
              && Contains(command, p) && Screen(command) == Some(ToolError(BlockedPrefix + p))
  {
    var i := FirstPatternIndex(command, DangerousPatterns).value;
    assert forall j :: 0 <= j < 4 ==> DangerousPatterns[j] == QuickPatterns[j];
    if i < 4 {
      assert false;
    }
    assert Screen(command) == Some(ToolError(BlockedPrefix + DangerousPatterns[i]));
  }

  /** Every reply of a command that ran is a non-empty text of at most `MaxOutputSize` characters, or the spawn error. */
  lemma RunReplyBounded(command: string, out: string, err: string)
    requires Screen(command).None?
    ensures var r := ExecuteBashCommand(command, Finished(out, err));
            r != "" && |r| <= MaxOutputSize
  {
  }
}
