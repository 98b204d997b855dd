# FimCode agent engine in Dafny

This project models the orchestration core of FimCode, a terminal coding
agent written in TypeScript. The core is the in-memory logic around the
language model, and the project proves properties of it:

- the to-do list ("todo") manager and its validator;
- the tool registry, the seven standard tools wired into it, and dispatch by name;
- the subagent type table, per-type tool filtering, the isolated subagent loop and the summary it hands back;
- the main conversation loop's rounds: one result per tool call, the counter of rounds without a to-do list update, and the reminder after ten such rounds;
- the conversation history, the skill loader (front matter parsing and the table of skills), the `Skill` tool and the session table;
- the pure string logic of the file and shell tools: workspace path checks, the line limit of `read_file`, the first-occurrence edit of `edit_file`, and the two-stage command blocklist of `bash`;
- the older top-level copy of the engine (`agent.ts`, `tools/`, `manager/`) as variants of the same model.

The model's replies are an input: a list of responses taken in order. A loop
stops at the first response that does not stop for `tool_use`, or when the
list runs out. Tool outputs come from a `Dispatcher` function of the call
number, the tool name and its input. File contents are a map from resolved
paths to text. The spawned process's output, the clock and fresh session ids
are parameters. The limits are those of `src/config/constants.ts`: 20 task
items, 10 rounds without an update, and 50000 output characters.

Files, one module each:
`wrappers.dfy` (Option, Result), `limits.dfy`, `types.dfy` (messages, blocks, tool schemas),
`strings.dfy` (the JavaScript string operations used), `ordered_map.dfy` (an insertion-ordered `Map`),
`validation.dfy`, `todo_manager.dfy`, `todo_tool.dfy`, `registry.dfy`, `tool_wiring.dfy`,
`agent_types.dfy`, `rounds.dfy`, `agent_loop.dfy`, `task_runner.dfy`, `conversation.dfy`,
`skills.dfy`, `skill_tool.dfy`, `sessions.dfy`, `paths.dfy`, `read_file.dfy`, `edit_file.dfy`,
`bash_tool.dfy`, `legacy_agent.dfy`, `legacy_tools.dfy`.

Stateful parts are classes whose methods carry `modifies` clauses:
`TodoManager`, `ToolRegistry`, `ConversationManager`, `SkillLoader`, `SessionManager` and the legacy `LegacyRegistry`.
The loops of the source are methods with loop invariants, each proved equal
to a specification function:
`Validation.ValidateTodoItems`, `Validation.ValidateCommand`, `Validation.ValidateFilePath`, `TodoManager.Render`,
`AgentLoop.Loop`, `TaskRunner.SubagentLoop`, `LegacyAgent.LegacyLoop`, `Skills.ParseMetadata`,
`SkillLoader.Load` and `SessionManager.CleanupExpiredSessions`.
Facts that span several calls are lemmas about those functions.

The older copy `manager/SkillLoader.ts` has the same parser, table and
lookups as `src/managers/skillLoader.ts`, so `Skills` models both. The older
`tools/task.ts` has the same type table as `src/tools/subagents/types.ts`,
so `AgentTypes` models both.

The model follows the code as written. Where that code misses what it
evidently means to do, both the written and the corrected behaviour are
modelled, and the difference is listed under Findings. The subagent's summary
falls back to "(子代理未返回文本)" only when the last assistant message holds no
text block (src/tools/handlers/task.ts:162-172). A last tool round whose
response holds a single empty text block therefore gives the empty string
(`TaskRunner.SummaryCanBeEmpty`).

## Model

| member | source | states |
|---|---|---|
| Todos.ParseStatus | src/managers/todoManager.ts:32 | a validated status string is stored as that status, and only "in_progress" is stored as in progress |
| Todos.Normalized | src/managers/todoManager.ts:30-34 | the stored list has one item per input item, in order, each with trimmed texts and a parsed status |
| Todos.CountStatus | src/managers/todoManager.ts:75 | the count of items with a status is at most the list length; it equals the length iff every item has that status and is 0 iff none has |
| Todos.InProgressPreserved | src/managers/todoManager.ts:30-34 | storing a list keeps its number of in-progress items |
| Todos.NormalizedWellFormed | src/managers/todoManager.ts:29-34 | a list that passes validation is stored within the size limit, with at most one item in progress and non-empty trimmed texts |
| Todos.TwoInProgressCounted | src/utils/validation.ts:16-22 | two distinct in-progress items make the count at least 2 |
| Todos.AtMostOneInProgress | src/utils/validation.ts:20-22 | with an in-progress count of at most one, two in-progress indices are equal |
| Todos.Lines | src/managers/todoManager.ts:65-73 | one line per item in stored order: `[x] c`, `[>] c <- activeForm` or `[ ] c` |
| Todos.ProgressSingleLine | src/managers/todoManager.ts:76 | the progress count `(k/n 已完成)` holds no line break |
| Todos.ViewParts | src/managers/todoManager.ts:76-78 | a non-empty list renders as its item lines, an empty line and the progress count, joined by "\n" |
| Todos.ViewLines | src/managers/todoManager.ts:63-78 | when no item text holds a line break, the view splits back into exactly the item lines, an empty line and the count |
| Todos.ItemLineSingle | src/managers/todoManager.ts:65-73 | the line of an item whose texts hold no break holds no break |
| Todos.FindInProgress | src/managers/todoManager.ts:99 | some item is found iff an item is in progress, and the one found is in the list and in progress |
| Todos.FoundItemIsTheOnlyOne | src/managers/todoManager.ts:98-100 | with at most one item in progress, the found item is every in-progress item |
| Todos.TodoManager.constructor | src/managers/todoManager.ts:22 | a new manager holds an empty, well-formed list |
| Todos.TodoManager.Update | src/managers/todoManager.ts:27-43 | a refused list leaves the items unchanged and yields the validator's message; an accepted list replaces the items with the normalised input and yields its rendering; the items stay well formed |
| Todos.TodoManager.Render | src/managers/todoManager.ts:58-79 | the loop builds exactly the specified view: "没有待办事项。" for no items, else the item lines, a blank line and the progress count |
| Todos.TodoManager.Count | src/managers/todoManager.ts:84-86 | the number of stored items |
| Todos.TodoManager.CompletedCount | src/managers/todoManager.ts:91-93 | at most `count`, and equal to it iff every item is completed |
| Todos.TodoManager.InProgressItem | src/managers/todoManager.ts:98-100 | none iff no item is in progress; otherwise an in-progress item equal to every in-progress item |
| Todos.TodoManager.AllItems | src/managers/todoManager.ts:105-107 | the stored list itself, read without a change |
| TodoTool.TodoWriteOutput | src/tools/handlers/todo.ts:49-58 | a refused list answers "错误: " plus the validator's message; an accepted list answers the rendering of the normalised list |
| TodoTool.UpdateTodoItems | src/tools/handlers/todo.ts:49-58 | the tool answers `TodoWriteOutput`; a refused list leaves the manager's items unchanged and an accepted one replaces them whole |
| Validation.ToolError | src/tools/handlers/readFile.ts:44 | a handler's refusal is "错误：" followed by the message, unchanged |
| Validation.InProgressCount | src/utils/validation.ts:16-18 | the number of items claiming "in_progress" is at most the list length |
| Validation.ItemError | src/utils/validation.ts:24-41 | an item gets no message iff its content is non-blank, its status is one of the three names and its activeForm is non-blank |
| Validation.FirstItemError | src/utils/validation.ts:24-42 | no message from index `from` on iff every item from there passes its checks |
| Validation.TodoItemsErrorNoneIff | src/utils/validation.ts:11-43 | a list is accepted iff it has at most 20 items, at most one in progress and every item passes its checks |
| Validation.FirstBadIndex | src/utils/validation.ts:24-42 | the first failing index: every item before it passes and the item at it fails |
| Validation.FirstItemErrorAt | src/utils/validation.ts:24-42 | the per-item check reports the message of the first failing item, numbered from 1 |
| Validation.FirstBadItemReported | src/utils/validation.ts:11-42 | once the size and in-progress rules hold, the message is that of the first failing item |
| Validation.FirstBadIndexIs | src/utils/validation.ts:24-42 | a failing item with only passing items before it is the first failing index |
| Validation.ValidateTodoItems | src/utils/validation.ts:11-43 | the loop returns exactly the specified message: too many items, then several in progress, then the first failing item |
| Validation.ItemStep | src/utils/validation.ts:31-41 | for one item the checks run content, status, active form in that order; the first that fails is the reported message, and an item passing all three hands over to the next |
| Validation.FirstPatternIndex | src/utils/validation.ts:59-63 | none iff no pattern occurs; otherwise a pattern that occurs, with no earlier pattern occurring |
| Validation.CommandErrorIff | src/utils/validation.ts:48-66 | a command is refused iff it contains one of the seven patterns, and the message is "危险命令被阻止: " plus a pattern it contains |
| Validation.ValidateCommand | src/utils/validation.ts:48-66 | the loop returns exactly the message for the first pattern in list order, or none |
| Validation.Slashes | src/utils/validation.ts:81 | every backslash becomes "/" and every other character is kept |
| Validation.ValidateFilePath | src/utils/validation.ts:71-98 | "" gives "路径不能为空", a NUL gives "路径包含非法字符", and otherwise the walk refuses the path iff its running depth ever drops below 0 |
| Validation.DescendingDepth | src/utils/validation.ts:84-93 | segments without `..` never bring the running depth below 0 |
| Validation.DescendingPathValid | src/utils/validation.ts:71-98 | every non-empty path without NUL and without a `..` segment is accepted |
| Validation.SegmentsWithoutBackslash | src/utils/validation.ts:81-82 | without a backslash, the walked segments are the path's own `/` segments |
| Validation.ValidateAgentType | src/utils/validation.ts:103-105 | true exactly for "explore", "code" and "plan" |
| Registry.BaseOf | src/tools/registry.ts:32-36 | a tool is kept iff it is in the list and is neither "Task" nor "Skill" |
| Registry.BaseOfAppend | src/tools/registry.ts:32-36 | the base-tool filter distributes over concatenation, so it keeps registration order |
| Registry.BaseOfKeepsAll | src/tools/registry.ts:32-36 | a list with no Task or Skill is kept whole |
| Registry.BaseOfDropsAll | src/tools/registry.ts:32-36 | a list of Task and Skill tools is dropped entirely |
| Registry.ByNames | src/tools/registry.ts:41-43 | a tool is kept iff it is registered and its name is listed |
| Registry.ByNamesAppend | src/tools/registry.ts:41-43 | selection by name distributes over concatenation, so it keeps registration order |
| Registry.ByNamesKeepsAll | src/tools/registry.ts:41-43 | a list whose names are all listed is kept whole |
| Registry.ByNamesDropsAll | src/tools/registry.ts:41-43 | a list whose names are all unlisted is dropped entirely |
| Registry.ToolsOf | src/tools/registry.ts:25-27 | one schema per key, in key order, each the schema stored under that key |
| Registry.ToolsAfterSet | src/tools/registry.ts:15-20 | registering a new name appends its schema; re-registering a name replaces its schema at the original position |
| Registry.ToolRegistry.constructor | src/tools/registry.ts:10 | a new registry is empty and has warned about nothing |
| Registry.ToolRegistry.Register | src/tools/registry.ts:15-20 | the table becomes the old table with the name set to the new entry, and a warning is recorded iff the name was already present |
| Registry.ToolRegistry.GetTools | src/tools/registry.ts:25-27 | every registered schema, in first-registration order |
| Registry.ToolRegistry.GetBaseTools | src/tools/registry.ts:32-36 | exactly the registered schemas not named "Task" or "Skill" |
| Registry.ToolRegistry.GetToolsByNames | src/tools/registry.ts:41-43 | exactly the registered schemas whose name is listed |
| Registry.ToolRegistry.Execute | src/tools/registry.ts:48-54 | an unregistered name answers "未知工具：" plus the name without running a handler; a registered one answers its handler's result |
| Registry.ToolRegistry.GetToolNames | src/tools/registry.ts:66-68 | each registered name exactly once |
| Registry.ToolRegistry.GetTool | src/tools/registry.ts:73-75 | present iff the name is registered, and then the schema stored under it |
| ToolWiring.BindReadsDeclaredParameters | src/tools/index.ts:21-49 | each registered closure reads only the parameters its schema declares |
| ToolWiring.StandardEntries | src/tools/index.ts:19-50 | initialisation lists the keys bash, read_file, write_file, edit_file, todo_write, Task, Skill in that order |
| ToolWiring.StandardNamesDistinct | src/tools/index.ts:19-50 | no name is registered twice |
| ToolWiring.RegisteredKeys | src/tools/index.ts:19-50 | after the first n registrations the keys are the first n names, in order |
| ToolWiring.RegisteredValues | src/tools/index.ts:19-50 | after the first n registrations each of those names holds its own schema and handler |
| ToolWiring.RegisteredFresh | src/tools/index.ts:19-50 | each registration is of a name not yet present, so none warns |
| ToolWiring.InitializeRegistry | src/tools/index.ts:19-50 | on a fresh registry the seven registrations give the standard table and no warning |
| ToolWiring.RegisterNext | src/tools/index.ts:20-49 | each `register` call of the initialisation adds its tool under a name not yet present, so the table grows by that entry and no warning is recorded |
| ToolWiring.RegisterStep | src/tools/index.ts:20-49 | the name of the k-th registration is not among the first k, and registering it gives the table after k + 1 registrations |
| ToolWiring.StandardTable | src/tools/index.ts:19-50 | each standard name holds its own schema and handler |
| ToolWiring.StandardToolList | src/tools/index.ts:63 | `allTools` is the seven schemas in registration order |
| ToolWiring.HandlersMatchSchemas | src/tools/index.ts:21-49 | each handler is registered with its own schema, under the schema's name |
| ToolWiring.FirstFiveBase | src/tools/index.ts:58 | none of the first five schemas is Task or Skill |
| ToolWiring.LastTwoSpawn | src/tools/index.ts:58 | the last two schemas are Task and Skill |
| ToolWiring.StandardToolsBase | src/tools/index.ts:58 | the base filter of the seven schemas is the first five |
| ToolWiring.StandardBaseTools | src/tools/index.ts:58 | `baseTools` after initialisation is bash, read_file, write_file, edit_file, todo_write |
| ToolWiring.ExecuteTool | src/tools/index.ts:68-73 | an unregistered name answers "未知工具：" plus the name; a registered one runs its handler on the arguments it reads |
| ToolWiring.StandardRouting | src/tools/index.ts:19-73 | on the initialised registry each standard name reaches its own handler and every other name is unknown |
| AgentTypes.ParseAgentType | src/tools/subagents/types.ts:23-49 | a string names a type iff it is one of the keys explore, code, plan, and the type found carries that name |
| AgentTypes.ParseNameOf | src/tools/subagents/types.ts:23-49 | naming a type and reading the name back gives the same type |
| AgentTypes.ValidatorAgrees | src/tools/subagents/types.ts:63-65 | the type table and the input validator accept exactly the same strings |
| AgentTypes.GetAgentDescriptions | src/tools/subagents/types.ts:54-58 | the text is one line `- name: description` per type, in table order, separated by line breaks |
| AgentTypes.LinesHaveNoBreak | src/tools/subagents/types.ts:54-58 | no description line holds a line break, so the lines split back apart |
| AgentTypes.NoBreakIn | src/tools/subagents/types.ts:23-49 | the type names and descriptions are single-line |
| AgentTypes.ToolWhitelists | src/tools/subagents/types.ts:23-49 | only `code` gets every tool; `explore` and `plan` get `bash` and `read_file` |
| AgentTypes.NoAgentSpawns | src/tools/subagents/types.ts:23-49 | no whitelist names Task or Skill |
| TaskRunner.AllowedTools | src/tools/handlers/task.ts:54-60 | `*` keeps the base tools as they are; a whitelist keeps exactly the base tools it names |
| TaskRunner.GetToolsForAgent | src/tools/handlers/task.ts:54-60 | a subagent only ever receives base tools, never one that starts further agents |
| TaskRunner.ReadOnlySelection | src/tools/handlers/task.ts:59 | of the five standard base tools, the whitelist keeps bash and read_file |
| TaskRunner.FirstTwoReadOnly | src/tools/handlers/task.ts:59 | bash and read_file pass the read-only whitelist |
| TaskRunner.NextThreeWrite | src/tools/handlers/task.ts:59 | write_file, edit_file and todo_write do not pass the read-only whitelist |
| TaskRunner.StandardAgentTools | src/tools/handlers/task.ts:54-60 | with the standard registry, `code` gets the five base tools and the other types get bash and read_file |
| TaskRunner.TextBlocks | src/tools/handlers/task.ts:164-166 | never more texts than blocks |
| TaskRunner.LastAssistant | src/tools/handlers/task.ts:158-160 | absent iff no message is the assistant's; otherwise an assistant message |
| TaskRunner.SubagentLoop | src/tools/handlers/task.ts:104-149 | the history and tool count are those of the agent loop started from the prompt alone, without the reminder |
| TaskRunner.RunTaskAgent | src/tools/handlers/task.ts:74-173 | an unknown type is refused with its name quoted; otherwise the reply is the summary of the isolated run's history |
| TaskRunner.LastAssistantSkipsUser | src/tools/handlers/task.ts:158-160 | a trailing user message does not change which assistant message is last |
| TaskRunner.SummaryOfLastToolRound | src/tools/handlers/task.ts:118-172 | the summary is the text of the last tool round's response, or the placeholder when there was none |
| TaskRunner.NoToolRoundNoSummary | src/tools/handlers/task.ts:104-120 | a run that stops at once leaves the history as the prompt alone |
| TaskRunner.LastToolRoundSummary | src/tools/handlers/task.ts:147-172 | after tool rounds the summary is read from the last round's response |
| TaskRunner.RunEndsWithLastRound | src/tools/handlers/task.ts:118-172 | for any loop that drops the final reply, the summary after tool rounds comes from the last tool round's response |
| TaskRunner.SummaryAfterRound | src/tools/handlers/task.ts:147-172 | after an assistant/user pair the summary comes from the assistant message |
| TaskRunner.FinalReplyDropped | src/tools/handlers/task.ts:118-172 | a subagent whose only reply is the text "完成" hands back the placeholder, not that text |
| TaskRunner.SummaryCanBeEmpty | src/tools/handlers/task.ts:162-169 | a response with one empty text block gives an empty summary, not the placeholder |
| TaskRunner.RunTaskAgentIntended | src/tools/handlers/task.ts:74-173 | with the final reply kept, the summary is the text of the reply that ended the run |
| Rounds.ToolUses | src/core/agent.ts:83-93 | only tool-use blocks are collected, never more than the response holds |
| Rounds.ToolUsesMembers | src/core/agent.ts:83-93 | a block is collected iff it is a tool-use block of the response |
| Rounds.ToolUsesAppend | src/core/agent.ts:86-93 | collection keeps the order in which the calls were emitted |
| Rounds.ResultsFor | src/core/agent.ts:103-137 | one result per call |
| Rounds.ResultsAnswerCalls | src/core/agent.ts:106-134 | result i answers call i: it carries that call's id and the output of running it |
| Rounds.NextCounter | src/core/agent.ts:140 | the counter resets to zero iff the round used `todo_write`, and otherwise grows |
| Rounds.NagBlocks | src/core/agent.ts:146-148 | at most one reminder, present iff the loop has one and the counter exceeds the limit of ten |
| Rounds.NagRepeats | src/core/agent.ts:140-148 | once due, the reminder comes back after the next round iff that round did not use `todo_write` |
| Rounds.NagQuietAfterUpdate | src/core/agent.ts:146 | no reminder while the counter is within the limit |
| Rounds.LeadingToolRounds | src/core/agent.ts:96-100 | the count of responses before the first that does not stop for `tool_use` |
| Rounds.RunExtends | src/core/agent.ts:96-151 | the loop only appends to the caller's history |
| Rounds.RunCounts | src/core/agent.ts:71-154 | the loop finishes iff some response does not ask for tools; one round per model call; the call count grows by the calls of the tool rounds |
| Rounds.RunLength | src/core/agent.ts:96-151 | two messages per tool round, plus one for a kept final response |
| Rounds.RunFirstRound | src/core/agent.ts:143-151 | a first tool round appends its response and then its results |
| Rounds.RunRound | src/core/agent.ts:140-151 | tool round j appends the response, then a user message with the reminder if due and one result per call, numbered after earlier calls |
| Rounds.RoundAtShift | src/core/agent.ts:71-154 | round j of the responses is round j-1 of the responses after the first |
| Rounds.RunFinal | src/core/agent.ts:96-99 | a kept final response is the last message of the history |
| AgentLoop.CreateInitialState | src/core/agent.ts:41-47 | round 0, no rounds without an update, active |
| AgentLoop.AdvertisedToolsAreAll | src/core/agent.ts:67 | the base tools followed by Task and Skill are exactly the seven registered tools, in order |
| AgentLoop.LastTwoAreSpawners | src/tools/index.ts:40-49 | Task and Skill are registered last |
| AgentLoop.CollectToolUses | src/core/agent.ts:83-93 | the loop over the blocks collects exactly the tool calls, in order |
| AgentLoop.ExecuteToolCalls | src/core/agent.ts:103-137 | one result per call answering that call, and the flag is set iff some call was `todo_write` |
| AgentLoop.Loop | src/core/agent.ts:59-155 | the history, round number, counter and finished flag are those of the loop function run on the responses |
| LegacyAgent.LegacyLoop | agent.ts:35-105 | the history and finished flag are those of the loop function for the variant whose reminder is a text block |
| LegacyAgent.SameRoundWithoutReminder | agent.ts:96-103 | before the reminder is due, a round of the older loop appends the same messages as a round of the main loop |
| LegacyAgent.ReminderKinds | agent.ts:100-102 | once due, the older loop puts the reminder text in front as a text block, the main loop as a result with id `nag` |
| LegacyTools.LegacyRegistry.constructor | tools/registry.ts:10 | the table starts empty |
| LegacyTools.LegacyRegistry.Register | tools/registry.ts:15-21 | the table becomes the old table with the name set to the new entry, with no warning |
| LegacyTools.LegacyRegistry.GetTools | tools/registry.ts:26-28 | one schema per registered name, in first-registration order |
| LegacyTools.LegacyRegistry.GetBaseTools | tools/registry.ts:33-35 | exactly the registered schemas other than Task and Skill |
| LegacyTools.LegacyRegistry.Execute | tools/registry.ts:40-49 | an unregistered name answers "未知工具：" plus the name; a registered one runs its handler |
| LegacyTools.RegisterAll | tools/index.ts:14-40 | the seven registrations on an empty table give the standard table |
| LegacyTools.LoadTools | tools/index.ts:14-43 | after loading, `BASE_TOOLS` is the five base schemas |
| LegacyTools.LegacyExecuteTool | tools/index.ts:51-56 | an unregistered name answers "未知工具：" plus the name; a registered one runs its handler on the arguments it reads |
| LegacyTools.LegacyToolsForAgent | tools/task.ts:100-106 | a subagent only ever receives base tools, never one that starts further agents |
| LegacyTools.RunTask | tools/task.ts:126-206 | fails iff the agent type is not a key of the table; otherwise hands back the same summary as the newer runner |
| Conversation.SliceFromEndStart | src/core/conversation.ts:61-63 | `slice(-n)` starts at 0 for n = 0, n from the end for 0 < n within the length, and at the clamped position -n for negative n |
| Conversation.Recent | src/core/conversation.ts:61-63 | a suffix of the history: all of it for n = 0 or n at least the length, exactly n messages for 0 < n within the length, the length plus n for negative n |
| Conversation.RecentAfterAppend | src/core/conversation.ts:61-63 | after one more message, the last n messages end with it; the last one is that message alone |
| Conversation.ConversationManager.constructor | src/core/conversation.ts:10 | a new history is empty |
| Conversation.ConversationManager.AddUserMessage | src/core/conversation.ts:15-18 | one user message with the text is appended and nothing else changes |
| Conversation.ConversationManager.AddAssistantMessage | src/core/conversation.ts:23-26 | one assistant message with the blocks is appended |
| Conversation.ConversationManager.AddToolResults | src/core/conversation.ts:31-34 | the results are appended as one user message |
| Conversation.ConversationManager.GetMessages | src/core/conversation.ts:39-41 | a copy equal to the history, with the history untouched |
| Conversation.ConversationManager.Count | src/core/conversation.ts:46-48 | the number of messages |
| Conversation.ConversationManager.Clear | src/core/conversation.ts:53-56 | the history becomes empty |
| Conversation.ConversationManager.GetRecentMessages | src/core/conversation.ts:61-63 | the suffix `slice(-n)` gives, with the history untouched |
| OrderedMaps.DistinctCard | src/tools/registry.ts:10 | a key order without repeats has as many entries as the table has keys |
| OrderedMaps.Without | src/managers/sessionManager.ts:106-107 | deleting a key keeps every other key in order and no repeats |
| OrderedMaps.OMap.SizeIsCard | src/managers/sessionManager.ts:144 | `size` is the number of keys in the table |
| OrderedMaps.OMap.Get | src/tools/registry.ts:49-50 | a value iff the key is present, and then the value stored under it |
| OrderedMaps.OMap.Set | src/tools/registry.ts:19 | the table maps the key to the new value; a new key goes last, an existing key keeps its place |
| OrderedMaps.OMap.SetValid | src/tools/registry.ts:19 | setting a key keeps the order a repeat-free list of exactly the table's keys |
| OrderedMaps.OMap.Delete | src/managers/sessionManager.ts:106-107 | the key is gone from the table and from the order, all else in order |
| OrderedMaps.OMap.ValueList | src/tools/registry.ts:26 | the values in key order |
| OrderedMaps.Empty | src/tools/registry.ts:10 | a new table is empty and well formed |
| Sessions.TargetId | src/managers/sessionManager.ts:77-78 | a non-empty given id is used; the target is never the empty id |
| Sessions.ExpiredIds | src/managers/sessionManager.ts:121-129 | an id is collected iff it is a key whose session has been idle longer than the timeout |
| Sessions.ExpiredIdsAppend | src/managers/sessionManager.ts:124-129 | collecting over a concatenation collects each part in order |
| Sessions.Keep | src/managers/sessionManager.ts:131-134 | a key survives the deletions iff it was not deleted |
| Sessions.WithoutKeep | src/managers/sessionManager.ts:131-134 | one more deletion removes one more key, the rest in order |
| Sessions.ExpiredKeepCount | src/managers/sessionManager.ts:120-137 | the expired ids and the surviving ids together account for every key |
| Sessions.InsertByRecent | src/managers/sessionManager.ts:91-93 | insertion adds the session and loses none |
| Sessions.InsertMembers | src/managers/sessionManager.ts:91-93 | insertion brings in no other session |
| Sessions.InsertKeepsOrder | src/managers/sessionManager.ts:91-93 | inserting into a newest-first list keeps it newest first |
| Sessions.SortByRecent | src/managers/sessionManager.ts:91-93 | the sorted list is a permutation of the sessions |
| Sessions.SortNewestFirst | src/managers/sessionManager.ts:91-93 | the sorted list is newest first |
| Sessions.ExpiredIdsAll | src/managers/sessionManager.ts:124-129 | the first loop over all keys collects exactly the expired sessions |
| Sessions.SetOfPrefix | src/managers/sessionManager.ts:131 | one more id of the list adds that id to those seen |
| Sessions.KeepAll | src/managers/sessionManager.ts:131-134 | deleting nothing keeps every key in order |
| Sessions.DeleteOneMore | src/managers/sessionManager.ts:131-134 | each deletion keeps the table well formed and removes exactly one more id |
| Sessions.SessionManager.constructor | src/managers/sessionManager.ts:29-30 | no sessions and no active id |
| Sessions.SessionManager.CreateSession | src/managers/sessionManager.ts:35-50 | a session with no messages, created and active now, with the given or numbered name, goes in under its id and becomes active |
| Sessions.SessionManager.GetActiveSession | src/managers/sessionManager.ts:55-58 | the session under a non-empty active id if it is still stored, otherwise none |
| Sessions.SessionManager.SetActiveSession | src/managers/sessionManager.ts:63-71 | true iff the id is stored; then it becomes active and its session is touched, otherwise nothing changes |
| Sessions.SessionManager.IncrementMessageCount | src/managers/sessionManager.ts:76-85 | the given or else active session gets one more message and is touched; nothing else changes |
| Sessions.SessionManager.ListSessions | src/managers/sessionManager.ts:90-94 | every stored session exactly once, newest first |
| Sessions.SessionManager.GetSession | src/managers/sessionManager.ts:99-101 | present iff stored, and then the session carries the requested id |
| Sessions.SessionManager.DeleteSession | src/managers/sessionManager.ts:106-115 | true iff the id was stored; it is gone after; the active id is cleared iff it was the one deleted |
| Sessions.SessionManager.CollectExpired | src/managers/sessionManager.ts:121-129 | the ids of the expired sessions in table order |
| Sessions.SessionManager.DeleteAll | src/managers/sessionManager.ts:131-134 | each listed id is deleted and the other keys keep their order |
| Sessions.SessionManager.CleanupExpiredSessions | src/managers/sessionManager.ts:120-137 | exactly the expired sessions are removed, the rest keep their order, the count returned is the number removed, the active id is left as is |
| Sessions.SessionManager.GetStats | src/managers/sessionManager.ts:142-147 | the number of sessions, and 1 exactly when the active id is non-empty |
| Skills.WhitespaceEnd | src/managers/skillLoader.ts:50 | the greedy `\s*` stops at the end of the text or at the first non-whitespace character |
| Skills.WhitespaceEndWhite | src/managers/skillLoader.ts:50 | everything `\s*` consumes is whitespace |
| Skills.AfterLastBreak | src/managers/skillLoader.ts:50 | a position found follows a line break within the run |
| Skills.AfterLastBreakIsLast | src/managers/skillLoader.ts:50 | no line break follows the position found, and none at all when none is found |
| Skills.FenceEnd | src/managers/skillLoader.ts:50 | `---\s*\n` matches only at a fence, and its match ends just past a line break after the fence |
| Skills.FenceEndWhitespace | src/managers/skillLoader.ts:50 | between a fence and the end of its match there is only whitespace |
| Skills.ClosingFence | src/managers/skillLoader.ts:50 | a closing fence found starts a `\n---\s*\n` match, and the body starts where that match ends |
| Skills.ClosingFenceFirst | src/managers/skillLoader.ts:50 | the lazy `(.*?)` stops at the first closing fence |
| Skills.SplitFrontMatter | src/managers/skillLoader.ts:50-51 | the text matches only when it starts with a fence |
| Skills.SplitAt | src/managers/skillLoader.ts:50-53 | the fences at 0 and q give the front matter between them and the body after the closing match |
| Skills.SplitBeforeBody | src/managers/skillLoader.ts:50-53 | with blank lines before the body, the split's body trims to the written body |
| Skills.OpeningFence | src/managers/skillLoader.ts:50 | the opening match of a written skill file ends after its first line |
| Skills.NoFenceInside | src/managers/skillLoader.ts:50 | plain front matter holds no closing fence |
| Skills.ClosingLine | src/managers/skillLoader.ts:50 | the line after the front matter closes it and the body follows the whitespace after it |
| Skills.SplitSkillFile | src/managers/skillLoader.ts:50-53 | a written file splits into its front matter and a body that trims to the written body |
| Skills.StripQuotes | src/managers/skillLoader.ts:64 | a value quoted at both ends loses both quotes; an unquoted one is kept; no line break is added |
| Skills.TrimKeepsNoBreak | src/managers/skillLoader.ts:60-63 | trimming adds no line break |
| Skills.TrimSkipsWhitespace | src/managers/skillLoader.ts:74 | leading whitespace does not change what trimming gives |
| Skills.ParseLineNoBreak | src/managers/skillLoader.ts:57-66 | a front-matter line gives a key and a value without line breaks |
| Skills.ParseFieldLine | src/managers/skillLoader.ts:58-65 | the line `key: value` parses back to that key and value |
| Skills.FirstColon | src/managers/skillLoader.ts:58 | the first colon of `key:rest` is the one after a colon-free key |
| Skills.MetadataNoBreak | src/managers/skillLoader.ts:56-67 | metadata keys and values hold no line break |
| Skills.MetadataStep | src/managers/skillLoader.ts:57-66 | one more line's pair, if any, goes over the metadata of the lines before it |
| Skills.MetadataOfPair | src/managers/skillLoader.ts:57-66 | of two parsed lines, the second one's pair wins |
| Skills.ParseMetadata | src/managers/skillLoader.ts:56-67 | the loop's dictionary is the metadata of the trimmed front matter's lines |
| Skills.MetadataLineStep | src/managers/skillLoader.ts:57-66 | one more line adds or overwrites the key before its first colon when that colon is not the line's first character, and otherwise leaves the dictionary as it was |
| Skills.FrontMatterLines | src/managers/skillLoader.ts:57 | written front matter is plain, trims to itself, and splits into the name line and the description line |
| Skills.WrittenMetadata | src/managers/skillLoader.ts:56-67 | the metadata of written front matter holds exactly its name and its description |
| Skills.DirOf | src/managers/skillLoader.ts:76 | the folder is the path with a trailing `/SKILL.md` removed, and the path itself otherwise |
| Skills.SkillOf | src/managers/skillLoader.ts:69-77 | a skill comes out only with a non-empty name and description, with the trimmed body, the path and its folder |
| Skills.ParseSkill | src/managers/skillLoader.ts:42-81 | no skill without a file or without a front-matter match; a skill found is well formed, with the trimmed body of the match |
| Skills.ParseSkillFrom | src/managers/skillLoader.ts:50-77 | a file whose split and metadata are known parses to the skill they name |
| Skills.ParseSkillMd | src/managers/skillLoader.ts:42-81 | the method with the metadata loop agrees with the parse function |
| Skills.ParseWrittenSkill | src/managers/skillLoader.ts:42-81 | a skill file written from a name, a description and a body parses back to them, with the body trimmed |
| Skills.SkillPath | src/managers/skillLoader.ts:96-97 | the folder of an entry's `SKILL.md` path is the entry's folder |
| Skills.Found | src/managers/skillLoader.ts:95-101 | one parse result per entry, each well formed |
| Skills.InsertStep | src/managers/skillLoader.ts:100-104 | one more entry's skill, if any, goes in under its name |
| Skills.InsertValid | src/managers/skillLoader.ts:100-104 | loading keeps every skill stored under its own name, each well formed |
| Skills.InsertKeepsOrder | src/managers/skillLoader.ts:102 | names already loaded keep their places; new names follow |
| Skills.InsertLastWins | src/managers/skillLoader.ts:102 | a skill found is kept unless a later entry has a skill with the same name |
| Skills.InsertOnlyFound | src/managers/skillLoader.ts:100-104 | every skill in the table was there before or was found |
| Skills.DescriptionLines | src/managers/skillLoader.ts:124-126 | one line `- name: description` per skill, in the table's order |
| Skills.DescriptionLineNoBreak | src/managers/skillLoader.ts:125 | a description line of a loaded skill is one line |
| Skills.SkillLoader.constructor | src/managers/skillLoader.ts:34-36 | no skills, and the given folder |
| Skills.SkillLoader.Load | src/managers/skillLoader.ts:87-114 | the table becomes the old table with the skill of every entry put in, in order, under its name |
| Skills.SkillLoader.LoadEntry | src/managers/skillLoader.ts:96-107 | an entry's skill, if it has one, goes in under its name; otherwise nothing changes |
| Skills.SkillLoader.Put | src/managers/skillLoader.ts:101-104 | a parsed skill is set under its name; no skill changes nothing |
| Skills.SkillLoader.GetDescriptions | src/managers/skillLoader.ts:119-127 | the sentinel for no skills, otherwise text that splits into one description line per skill |
| Skills.SkillLoader.NoSkillsIff | src/managers/skillLoader.ts:119-127 | the sentinel comes back exactly when there are no skills |
| Skills.SkillLoader.GetSkillContent | src/managers/skillLoader.ts:132-136 | none iff the name is unknown, otherwise the heading with the name and then the body |
| Skills.SkillLoader.ListSkills | src/managers/skillLoader.ts:167-169 | each loaded name exactly once |
| Skills.SkillLoader.Count | src/managers/skillLoader.ts:174-176 | the number of skills, equal to the length of the name list |
| SkillTool.Available | src/tools/handlers/skill.ts:51 | "无" for no names; the names joined by ", " when none is empty |
| SkillTool.LoadSkill | src/tools/handlers/skill.ts:45-65 | an unknown skill is answered with its name and the loaded names; a known one with its content between the tags |
| SkillTool.UnknownListsNames | src/tools/handlers/skill.ts:50-54 | an unknown skill's answer lists every loaded name, or "无" when none is loaded |
| SkillTool.ContentBetweenTags | src/tools/handlers/skill.ts:59-64 | the skill's content stands verbatim between the opening and closing tags |
| SkillTool.AnswersDiffer | src/tools/handlers/skill.ts:50-64 | the answer starts with `<` iff the skill is loaded |
| Paths.Collapse | src/utils/path.ts:12 | normalisation leaves only name segments: no empty, `.` or `..` segment survives |
| Paths.Names | src/utils/path.ts:12 | the names of a list of segments never outnumber the segments |
| Paths.Resolve | src/utils/path.ts:12 | a resolved path is always absolute |
| Paths.CollapseAppend | src/utils/path.ts:12 | segments without `..` only add their names after what is already resolved |
| Paths.ResolveSegments | src/utils/path.ts:12-13 | a relative path is resolved below the base's own resolved segments |
| Paths.JoinExtends | src/utils/path.ts:12-13 | appending names to a resolved path adds a `/` and their join, except at the root |
| Paths.DescendingResolve | src/utils/path.ts:12-13 | a relative path without `..` resolves to the base followed by its names |
| Paths.Contained | src/utils/path.ts:10-32 | accepted iff the resolved path starts with the resolved base; then the resolved path, else the message with the path |
| Paths.SafePath | src/utils/path.ts:10-19 | as written: accepted iff the resolved path starts with the resolved workspace as a string; otherwise "路径超出工作区: " with the path |
| Paths.SafeConfigPath | src/utils/path.ts:24-32 | as written: accepted iff the resolved path starts with the resolved base as a string; otherwise "路径超出配置目录: " with the path |
| Paths.SiblingAccepted | src/utils/path.ts:15 | with workspace `/p/work`, the path `/p/work2/x` is accepted although it is not inside the workspace |
| Paths.ContainedWithin | src/utils/path.ts:10-32 | corrected: accepted iff the resolved path is the base or lies below it segment by segment |
| Paths.SafePathWithin | src/utils/path.ts:10-19 | corrected: accepted iff the resolved path is the workspace or lies below it; otherwise "路径超出工作区: " with the path |
| Paths.SafeConfigPathWithin | src/utils/path.ts:24-32 | corrected: accepted iff the resolved path is the base directory or lies below it |
| Paths.WorkspacePath | src/utils/path.ts:10-19 | the workspace test a file tool applies: as written (string prefix) or segment-aware; a success is the resolved path and starts with the workspace, a refusal is "路径超出工作区: " with the path |
| Paths.ClimbRefused | src/utils/path.ts:12-15 | a relative path of k leading `..` followed by names that do not step back into the base resolves outside the base, for every base and k |
| Paths.ClimbRefusedInWorkspace | src/utils/path.ts:10-19 | such a climbing path is refused by the segment-aware workspace test with "路径超出工作区: " and the path |
| Paths.ClimbRefusedInConfigDir | src/utils/path.ts:24-32 | such a climbing path is refused by the segment-aware config test with "路径超出配置目录: " and the path |
| Paths.EtcPasswdOutsideWorkspace | tests/unit/path.test.ts:11 | with workspace `/p/work`, `../../../etc/passwd` is refused by both tests with "路径超出工作区: " and the path |
| Paths.EtcPasswdOutsideConfigDir | tests/unit/path.test.ts:22 | with base `/home/user/.config`, `../../etc/passwd` is refused by both tests with "路径超出配置目录: " and the path, from any working directory |
| Paths.AcceptedPathWithin | src/utils/validation.ts:71-98 | a relative path the validator accepts and that holds no backslash resolves to the base's segments followed by the path's collapsed segments, whose number is the validator's final depth, so it lies within the base and both config tests accept it |
| Paths.AcceptedPathInWorkspace | src/tools/handlers/readFile.ts:42-48 | a relative validated path without a backslash is accepted by both workspace tests, as the path resolved against the workspace |
| Paths.WithinIsStricter | src/utils/path.ts:15-28 | the corrected test accepts nothing the written one refuses, and returns the same path |
| Paths.WithinStartsWith | src/utils/path.ts:15 | a path within an absolute root starts with it |
| Paths.SiblingRefused | src/utils/path.ts:15 | the corrected test refuses `/p/work2/x` for workspace `/p/work` |
| Paths.DescendingPathAccepted | src/utils/path.ts:10-19 | every relative path without `..` is accepted by the corrected test, as the base followed by its names |
| Paths.SplitSibling | src/utils/path.ts:12 | the segments of `/p/work2/x` |
| Paths.SplitWork | src/utils/path.ts:13 | the segments of `/p/work/` |
| Paths.CollapseSibling | src/utils/path.ts:12 | `/p/work2/x` normalises to itself |
| Paths.JoinSibling | src/utils/path.ts:12 | the names of `/p/work2/x` join back to it |
| Paths.CollapseWork | src/utils/path.ts:13 | `/p/work/` normalises to `/p/work` |
| Paths.ResolveSibling | src/utils/path.ts:12 | an absolute path resolves to itself whatever the base |
| Paths.ResolveWork | src/utils/path.ts:13 | `/p/work` resolves to itself |
| Paths.SiblingOutside | src/utils/path.ts:15 | `/p/work2/x` is not within `/p/work` |
| Paths.RelativeToWorkDir | src/utils/path.ts:37-39 | the relative form is never empty |
| Paths.RelativeOfRoot | src/utils/path.ts:37-39 | the workspace itself reads `.` |
| Paths.RelativeOfChild | src/utils/path.ts:37-39 | a path written below the workspace reads as the part after the workspace and its `/` |
| Paths.ResolveThenRelative | src/utils/path.ts:10-39 | resolving a descending path and reading it back relative to the workspace gives its names joined by `/` |
| Paths.NamesNotBlank | src/utils/path.ts:12 | resolved names are names, and carry no `/` |
| Paths.JoinNamesNotBlank | src/utils/path.ts:37-39 | joined names neither are empty nor start with `/` |
| Paths.FirstCharOf | src/utils/path.ts:37-39 | a joined list of names starts with the first name's first character |
| ReadFile.SliceTo | src/tools/handlers/readFile.ts:61 | `slice(0, end)`: the first `end` elements, all of them past the end, and counted back from the end for a negative end |
| ReadFile.ShowLines | src/tools/handlers/readFile.ts:58-66 | at most the output limit; without a cut, a prefix of the file |
| ReadFile.ReadFileContent | src/tools/handlers/readFile.ts:35-72 | the path error, the workspace refusal, the missing file, or the shown lines of the file the path resolves to, in that order; the file starts with the workspace, and lies within it under the segment-aware test |
| ReadFile.SiblingPathValid | src/utils/validation.ts:71-98 | `/p/work2/x` passes the path validator |
| ReadFile.SiblingFileRead | src/tools/handlers/readFile.ts:42-57 | as written, with workspace `/p/work`, `read_file` shows the lines of `/p/work2/x`; the segment-aware test refuses it |
| ReadFile.RulesAgreeOnRelativePaths | src/tools/handlers/readFile.ts:42-48 | for every relative path without a backslash the written and the segment-aware test give the same reply |
| ReadFile.RefusedPathReadsNothing | src/tools/handlers/readFile.ts:42-48 | a refused path gives the same reply whatever the file system holds |
| ReadFile.WholeFileShown | src/tools/handlers/readFile.ts:66 | without a cutting limit, a file that fits is shown whole |
| ReadFile.MoreLinesOneLine | src/tools/handlers/readFile.ts:62 | the marker is one line |
| ReadFile.SplitOfLines | src/tools/handlers/readFile.ts:58-63 | the kept lines and the marker, joined by breaks, split back into themselves |
| ReadFile.CutListsFirstLines | src/tools/handlers/readFile.ts:60-63 | a positive cutting limit k lists exactly the first k lines, then the marker counting the rest |
| ReadFile.CutKeepsFileStart | src/tools/handlers/readFile.ts:60-63 | the lines kept are the start of the file up to the break after line k |
| ReadFile.NegativeLimitOvercounts | src/tools/handlers/readFile.ts:60-62 | a negative limit cuts lines from the end, yet the marker counts more lines than were dropped |
| EditFile.EditFileContent | src/tools/handlers/editFile.ts:38-78 | the path error, the workspace refusal, the missing file and the absent text leave the files untouched; otherwise only the resolved file changes, with the first occurrence replaced; the file starts with the workspace, and lies within it under the segment-aware test |
| EditFile.SiblingFileEdited | src/tools/handlers/editFile.ts:46-72 | as written, with workspace `/p/work`, `edit_file` rewrites `/p/work2/x`; the segment-aware test refuses it and no file changes |
| EditFile.OnlySuccessWrites | src/tools/handlers/editFile.ts:46-72 | any reply but success leaves the files as they were; no file is created or removed, and no other file changes |
| Strings.ReplacesFirstOccurrence | src/tools/handlers/editFile.ts:68 | the new text replaces the first occurrence of the old text and the text around it is kept |
| EditFile.EmptyOldTextPrepends | src/tools/handlers/editFile.ts:63-68 | an empty old text always occurs, and the new text goes in front of the file |
| EditFile.EditedFileHoldsNewText | src/tools/handlers/editFile.ts:68 | the new text stands where the old first stood, and the length changes by the difference |
| BashTool.Screen | src/tools/handlers/bash.ts:36-46 | a command runs iff it holds none of the quick patterns and the validator finds nothing; a quick pattern gives "错误：危险命令被阻止" |
| BashTool.ShapeOutput | src/tools/handlers/bash.ts:57-60 | blank output gives "(无输出)"; otherwise a non-empty prefix of the trimmed output within the limit, the whole of it when it fits |
| BashTool.ExecuteBashCommand | src/tools/handlers/bash.ts:32-66 | a refusal is returned as is; a finished run gives its shaped output; a spawn error gives "错误：" with its message |
| BashTool.BlockedNeverRuns | src/tools/handlers/bash.ts:36-46 | a refused command's reply does not depend on the process |
| BashTool.ValidatorOnlyForOthers | src/tools/handlers/bash.ts:36-46 | the validator's own message is only seen for a fork bomb, `mkfs` or `dd if=/dev/zero` |
| BashTool.RunReplyBounded | src/tools/handlers/bash.ts:57-60 | a finished run's reply is never empty and never over the limit |
| Strings.Split | src/tools/handlers/readFile.ts:58 | `split`: no part holds the separator, and joining the parts with it gives the text back |
| Strings.SplitJoin | src/tools/handlers/readFile.ts:58-63 | parts without the separator, joined by it, split back into themselves |
| Strings.ReplaceFirst | src/tools/handlers/editFile.ts:68 | `replace` with a string pattern: only the first occurrence changes, and an absent pattern changes nothing |
| Strings.Take | src/tools/handlers/readFile.ts:66 | `slice(0, n)`: a prefix of at most n characters, the whole text when it fits |
| Strings.TrimIdempotent | src/tools/handlers/bash.ts:57 | trimming twice is trimming once |

## Left out

- Model calls, the Anthropic client and the system prompts: responses are an input list, and the loops run until a response does not ask for tools or the list ends. The source loops have no round cap.
- Console and stdout progress output, elapsed-time formatting and the logger: display only.
- Bun file reads, file writes, globbing and process spawning: file text, the folder listing and the spawn outcome are parameters. A spawn error is given as its message.
- `src/tools/handlers/writeFile.ts`: the `write_file` tool's handler is named in the wiring but its body is not part of this model.
- Node's `path.resolve` is modelled for POSIX paths only, as a segment normaliser. The working directory is a parameter, and the configured `workDir` is taken to be that directory.
- Regular-expression backtracking in `parseSkillMd` is replaced by a direct computation of the match. A match that only a shorter opening `\s*` could find has a blank front matter, which never names a skill.
- `$` patterns in the replacement text of `String.replace` are not expanded: the new text is inserted literally.
- String lengths count characters, not UTF-16 code units.
- `type in AGENT_CONFIGS` also accepts inherited prototype keys such as `toString`; the model accepts only the three table keys.
- A null entry in the todo list (the message "数据无效") is not modelled: the list's items are always records.
- A non-integer `limit` for `read_file`: the schema declares an integer, so the limit is an optional integer.
- The resource-folder listing appended by `getSkillContent`: it needs directory globbing. The content is the heading and the body.
- The order in which the folder listing returns entries is taken as given.
- JSON `toJSON` and `fromJSON` of the conversation history: library parsing.
- The 60-second timeout mentioned in the bash tool's comment: the source does not implement one.
- The legacy tool schemas and handlers are taken to be those of the newer engine.
- Sessions are values in the table; the source hands out the stored object itself, and later changes through that reference are not modelled. `createdAt` and `lastActiveAt` come from one clock reading.
- Sessions.SortByRecent: the sort is an insertion sort that keeps ties in order; the stability of the engine's sort for equal times is not claimed.
- SkillTool.Available: the fallback "无" is stated only for an empty list and for lists of non-empty names; loaded skill names are never empty (`SkillTool.UnknownListsNames`).
- ReadFile.ReadFileContent and EditFile.EditFileContent take the workspace test as a parameter: `AsWritten` is the string-prefix test of `safePath`, `SegmentAware` the corrected one (see Findings).
- Paths.AcceptedPathWithin: stated for paths without a backslash. On POSIX a backslash is a name character, so `a\b/../../x` passes the validator's walk of `/`-and-`\` segments but resolves above the base; the workspace tests still refuse it.
- ToolWiring.StrArg: a missing string argument is read as "", and ToolWiring.ItemsArg reads a missing list as []. In the source, `command.slice` (src/tools/handlers/bash.ts:33) and `items.length` (src/tools/handlers/todo.ts:50) throw outside their `try`; `execute` (src/tools/registry.ts:47-53) and the agent loop (src/core/agent.ts:119) do not catch, so the whole run aborts. The model's dispatcher returns a reply for every call, and such an abort is not modelled: in the model, a `todo_write` call without `items` clears the list and answers "没有待办事项。", and a `bash` call without `command` runs the empty command.
- LegacyTools.RunTask: its failure stands for the throw on an unknown agent type (tools/task.ts:132-136). Nothing at agent.ts:77 catches that throw, so in the source it ends the run. The legacy loop takes its tool replies from a dispatcher and does not model that abort.
- Error messages thrown by unexpected I/O failures inside the file tools' `try` blocks: there is no such failure once file contents are given.

## Findings

| source | as written | input that shows it | evidently intended | confidence | as-written member | corrected member |
|---|---|---|---|---|---|---|
| src/tools/handlers/task.ts:118-172 | the loop breaks before the final response is appended, so the summary is read from the last tool round | one response "end_turn" with text "完成": the subagent answers "(子代理未返回文本)" | the summary is the text of the final reply | not executed | TaskRunner.FinalReplyDropped | TaskRunner.RunTaskAgentIntended |
| src/utils/path.ts:15 | containment is a string-prefix test | workspace "/p/work" and path "/p/work2/x": accepted, though outside the workspace | the path must be the workspace or lie below it, segment by segment | not executed | ReadFile.SiblingFileRead | Paths.SafePathWithin |
