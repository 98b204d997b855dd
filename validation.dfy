/**
 * The input validators of src/utils/validation.ts: the to-do list rules,
 * the dangerous-command blocklist, the path-traversal check and the
 * agent-type check. Each validator is a method with the source's loop,
 * proved equal to a declarative specification function; the lemmas say
 * what the specification accepts.
 */
module Validation {
  import opened Wrappers
  import opened Strings
  import opened Limits
  import opened Types

  /** How the tool handlers report a refusal or a failure: the message after `错误：`. */
  function ToolError(message: string): (r: string)
    ensures |r| == |message| + 3 && r[3..] == message && r[0] == '错'
  {
    "错误：" + message
  }

  // ---------------------------------------------------------------- to-do list

  const TooManyItems: string := "最多允许 " + NatToString(MaxTodoItems) + " 项待办事项"
  const SeveralInProgress: string := "同一时间只能有一项任务进行中(in_progress)"

  predicate IsStatusName(s: string) {
    s == "pending" || s == "in_progress" || s == "completed"
  }

  /** How many inputs claim to be in progress. */
  function InProgressCount(items: seq<TodoInput>): (n: nat)
    ensures n <= |items|
  {
    if items == [] then 0
    else (if items[0].status == "in_progress" then 1 else 0) + InProgressCount(items[1..])
  }

  /** The prefix of a per-item message, numbering items from 1. */
  function ItemLabel(i: nat): string {
    "第 " + NatToString(i + 1) + " 项: "
  }

  /** An item passes its own checks: content, a known status, an active form. */
  predicate ItemOk(item: TodoInput) {
    Trim(item.content) != "" && IsStatusName(item.status) && Trim(item.activeForm) != ""
  }

  /** The message for item `i`, checking content, then status, then active form. */
  function ItemError(item: TodoInput, i: nat): (r: Option<string>)
    ensures r.None? <==> ItemOk(item)
  {
    if Trim(item.content) == "" then Some(ItemLabel(i) + "需要内容 (content)")
    else if !IsStatusName(item.status) then Some(ItemLabel(i) + "无效状态 '" + item.status + "'")
    else if Trim(item.activeForm) == "" then Some(ItemLabel(i) + "需要 activeForm")
    else None
  }

  /** The message of the first failing item at or after `from`. */
  function FirstItemError(items: seq<TodoInput>, from: nat): (r: Option<string>)
    requires from <= |items|
    ensures r.None? <==> forall j :: from <= j < |items| ==> ItemOk(items[j])
    decreases |items| - from
  {
    if from == |items| then None
    else if ItemError(items[from], from).Some? then ItemError(items[from], from)
    else FirstItemError(items, from + 1)
  }

  /** What `validateTodoItems` throws, or `None` when it returns. */
  function TodoItemsError(items: seq<TodoInput>): Option<string> {
    if |items| > MaxTodoItems then Some(TooManyItems)
    else if InProgressCount(items) > 1 then Some(SeveralInProgress)
    else FirstItemError(items, 0)
  }

  /** The rules a to-do list must meet. */
  predicate TodoItemsOk(items: seq<TodoInput>) {
    |items| <= MaxTodoItems && InProgressCount(items) <= 1
    && forall i :: 0 <= i < |items| ==> ItemOk(items[i])
  }

  /** A list is rejected exactly when it breaks one of the rules. */
  lemma TodoItemsErrorNoneIff(items: seq<TodoInput>)
    ensures TodoItemsError(items).None? <==> TodoItemsOk(items)
  {
  }

  /** The verdict of each item's checks, in order. */
  function Verdicts(items: seq<TodoInput>): (r: seq<bool>)
    ensures |r| == |items|
    ensures forall i :: 0 <= i < |items| ==> r[i] == ItemOk(items[i])
  {
    seq(|items|, i requires 0 <= i < |items| => ItemOk(items[i]))
  }

  /** The first `false` at or after `from`, or `|oks|`. */
  function FirstFalse(oks: seq<bool>, from: nat): (r: nat)
    requires from <= |oks|
    ensures from <= r <= |oks|
    ensures forall j :: from <= j < r ==> oks[j]
    ensures r < |oks| ==> !oks[r]
    decreases |oks| - from
  {
    if from == |oks| || !oks[from] then from else FirstFalse(oks, from + 1)
  }

  /** The index of the first item at or after `from` that fails its checks, or `|items|`. */
  function FirstBadIndex(items: seq<TodoInput>, from: nat): (r: nat)
    requires from <= |items|
    ensures from <= r <= |items|
    ensures forall j :: from <= j < r ==> ItemOk(items[j])
    ensures r < |items| ==> !ItemOk(items[r])
  {
    FirstFalse(Verdicts(items), from)
  }

  /** The item check reports the first failing item, by its own number. */
  lemma {:induction false} FirstItemErrorAt(items: seq<TodoInput>, from: nat)
    requires from <= |items|
    ensures var b := FirstBadIndex(items, from);
            FirstItemError(items, from) == if b < |items| then ItemError(items[b], b) else None
    decreases |items| - from
  {
    if from < |items| && ItemOk(items[from]) {
      FirstItemErrorAt(items, from + 1);
    }
  }

  /** Once the list-wide rules hold, the message names the first bad item. */
  lemma FirstBadItemReported(items: seq<TodoInput>, i: nat)
    requires |items| <= MaxTodoItems && InProgressCount(items) <= 1
    requires i < |items| && !ItemOk(items[i])
    requires forall j :: 0 <= j < i ==> ItemOk(items[j])
    ensures TodoItemsError(items) == ItemError(items[i], i)
  {
    FirstItemErrorAt(items, 0);
    FirstBadIndexIs(items, i);
    assert TodoItemsError(items) == FirstItemError(items, 0);
  }

  lemma FirstBadIndexIs(items: seq<TodoInput>, i: nat)
    requires i < |items| && !ItemOk(items[i])
    requires forall j :: 0 <= j < i ==> ItemOk(items[j])
    ensures FirstBadIndex(items, 0) == i
  {
    assert FirstBadIndex(items, 0) <= i;
  }

  /** The checks of item `i`, in the order of the loop: a failing check is the message, passing all three moves on. */
  lemma ItemStep(items: seq<TodoInput>, i: nat)
    requires i < |items|
    ensures Trim(items[i].content) == "" ==>
              FirstItemError(items, i) == Some(ItemLabel(i) + "需要内容 (content)")
    ensures Trim(items[i].content) != "" && !IsStatusName(items[i].status) ==>
              FirstItemError(items, i) == Some(ItemLabel(i) + "无效状态 '" + items[i].status + "'")
    ensures Trim(items[i].content) != "" && IsStatusName(items[i].status) && Trim(items[i].activeForm) == "" ==>
              FirstItemError(items, i) == Some(ItemLabel(i) + "需要 activeForm")
    ensures ItemOk(items[i]) ==> FirstItemError(items, i) == FirstItemError(items, i + 1)
  {
  }

  /** `validateTodoItems`: the list-wide checks, then each item in order. */
  method ValidateTodoItems(items: seq<TodoInput>) returns (err: Option<string>)
    ensures err == TodoItemsError(items)
  {
    if |items| > MaxTodoItems {
      return Some(TooManyItems);
    }
    var inProgress := InProgressCount(items);
    if inProgress > 1 {
      return Some(SeveralInProgress);
    }
    for i := 0 to |items|
      invariant FirstItemError(items, 0) == FirstItemError(items, i)
    {
      ItemStep(items, i);
      var item := items[i];
      if Trim(item.content) == "" {
        return Some(ItemLabel(i) + "需要内容 (content)");
      }
      if !IsStatusName(item.status) {
        return Some(ItemLabel(i) + "无效状态 '" + item.status + "'");
      }
      if Trim(item.activeForm) == "" {
        return Some(ItemLabel(i) + "需要 activeForm");
      }
    }
    return None;
  }

  // ----------------------------------------------------------------- commands

  /** The substrings that mark a command as dangerous, in the order they are tried. */
  const DangerousPatterns: seq<string> :=
    ["rm -rf /", "sudo", "shutdown", "reboot", ":(){ :|: };", "mkfs", "dd if=/dev/zero"]

  const BlockedPrefix: string := "危险命令被阻止: "

  /** The index of the first pattern that occurs in `command`. */
  function FirstPatternIndex(command: string, patterns: seq<string>): (r: Option<nat>)
    ensures r.None? <==> forall j :: 0 <= j < |patterns| ==> !Contains(command, patterns[j])
    ensures r.Some? ==> r.value < |patterns| && Contains(command, patterns[r.value])
                        && forall j :: 0 <= j < r.value ==> !Contains(command, patterns[j])
  {
    if patterns == [] then None
    else if Contains(command, patterns[0]) then Some(0)
    else match FirstPatternIndex(command, patterns[1..])
         case None => None
         case Some(k) => Some(k + 1)
  }

  /** What `validateCommand` returns: the message for the first dangerous pattern, or `None`. */
  function CommandError(command: string): Option<string> {
    match FirstPatternIndex(command, DangerousPatterns)
    case None => None
    case Some(i) => Some(BlockedPrefix + DangerousPatterns[i])
  }

  /** A command is refused exactly when it contains a pattern, and the message names the first one. */
  lemma CommandErrorIff(command: string)
    ensures CommandError(command).None? <==>
            forall j :: 0 <= j < |DangerousPatterns| ==> !Contains(command, DangerousPatterns[j])
    ensures CommandError(command).Some? ==>
            exists i :: 0 <= i < |DangerousPatterns| && Contains(command, DangerousPatterns[i])
                        && CommandError(command) == Some(BlockedPrefix + DangerousPatterns[i])
  {
  }

  /** `validateCommand`. */
  method ValidateCommand(command: string) returns (err: Option<string>)
    ensures err == CommandError(command)
  {
    for k := 0 to |DangerousPatterns|
      invariant forall j :: 0 <= j < k ==> !Contains(command, DangerousPatterns[j])
    {
      if Contains(command, DangerousPatterns[k]) {
        return Some(BlockedPrefix + DangerousPatterns[k]);
      }
    }
    return None;
  }

  // -------------------------------------------------------------------- paths

  const EmptyPath: string := "路径不能为空"
  const IllegalCharacter: string := "路径包含非法字符"
  const Traversal: string := "路径包含非法的目录遍历"

  /** `path.replace(/\\/g, "/")`. */
  function Slashes(path: string): (r: string)
    ensures |r| == |path|
    ensures forall i :: 0 <= i < |r| ==> r[i] == (if path[i] == '\\' then '/' else path[i])
  {
    seq(|path|, i requires 0 <= i < |path| => if path[i] == '\\' then '/' else path[i])
  }

  /** The segments the traversal check walks. */
  function PathSegments(path: string): seq<string> {
    Split(Slashes(path), '/')
  }

  /** How one segment moves the depth: `..` up, a name down, `.` and empty nowhere. */
  function SegmentDelta(part: string): int {
    if part == ".." then -1 else if part != "." && part != "" then 1 else 0
  }

  /** The depth after the first `k` segments. */
  function DepthAfter(parts: seq<string>, k: nat): int
    requires k <= |parts|
  {
    if k == 0 then 0 else DepthAfter(parts, k - 1) + SegmentDelta(parts[k - 1])
  }

  /** No prefix of the segments climbs above the starting directory. */
  predicate NeverAbove(parts: seq<string>) {
    forall k :: 0 <= k <= |parts| ==> DepthAfter(parts, k) >= 0
  }

  /** What `validateFilePath` returns. */
  function FilePathError(path: string): Option<string> {
    if path == "" then Some(EmptyPath)
    else if '\0' in path then Some(IllegalCharacter)
    else if NeverAbove(PathSegments(path)) then None
    else Some(Traversal)
  }

  /** `validateFilePath`: the walk stops at the first segment that climbs too high. */
  method ValidateFilePath(path: string) returns (err: Option<string>)
    ensures err == FilePathError(path)
  {
    if path == "" {
      return Some(EmptyPath);
    }
    if '\0' in path {
      return Some(IllegalCharacter);
    }
    var parts := PathSegments(path);
    var depth := 0;
    for k := 0 to |parts|
      invariant depth == DepthAfter(parts, k)
      invariant forall j :: 0 <= j <= k ==> DepthAfter(parts, j) >= 0
    {
      var part := parts[k];
      if part == ".." {
        depth := depth - 1;
      } else if part != "." && part != "" {
        depth := depth + 1;
      }
      if depth < 0 {
        assert DepthAfter(parts, k + 1) < 0;
        return Some(Traversal);
      }
    }
    return None;
  }

  /** Segments without `..` never lower the depth. */
  lemma {:induction false} DescendingDepth(parts: seq<string>, k: nat)
    requires k <= |parts|
    requires ".." !in parts
    ensures DepthAfter(parts, k) >= 0
  {
    if k > 0 {
      DescendingDepth(parts, k - 1);
    }
  }

  /** A non-empty path free of NUL whose segments hold no `..` is accepted. */
  lemma DescendingPathValid(path: string)
    requires path != "" && '\0' !in path
    requires ".." !in PathSegments(path)
    ensures FilePathError(path) == None
  {
    var parts := PathSegments(path);
    forall k | 0 <= k <= |parts|
      ensures DepthAfter(parts, k) >= 0
    {
      DescendingDepth(parts, k);
    }
  }

  /** Without a backslash the validator walks the path's own `/` segments. */
  lemma SegmentsWithoutBackslash(path: string)
    requires '\\' !in path
    ensures PathSegments(path) == Split(path, '/')
  {
    assert Slashes(path) == path;
  }

  // -------------------------------------------------------------- agent types

  /** `validateAgentType`. */
  function ValidateAgentType(t: string): (r: bool)
    ensures r <==> t in ["explore", "code", "plan"]
  {
    t == "explore" || t == "code" || t == "plan"
  }
}
