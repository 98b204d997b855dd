/**
 * The subagent types of src/tools/subagents/types.ts (and the identical
 * table `AGENT_TYPES` of the older tools/task.ts): three kinds of agent,
 * each with a description, the tools it may use and its system prompt.
 */
module AgentTypes {
  import opened Wrappers
  import opened Strings
  import Validation

  datatype AgentType = Explore | Code | Plan

  /** A whitelist of tool names, or `"*"` for every base tool. */
  datatype Allowed = AllTools | Only(names: seq<string>)

  datatype AgentConfig = AgentConfig(description: string, tools: Allowed, prompt: string)

  /** The keys of the table, in the order they are written (and so enumerated). */
  const AgentNames: seq<string> := ["explore", "code", "plan"]
  const AgentOrder: seq<AgentType> := [Explore, Code, Plan]

  const ReadOnlyTools: seq<string> := ["bash", "read_file"]

  function NameOf(t: AgentType): string {
    match t
    case Explore => "explore"
    case Code => "code"
    case Plan => "plan"
  }

  /** `AGENT_CONFIGS[t]`, i.e. `getAgentConfig`. */
  function ConfigOf(t: AgentType): AgentConfig {
    match t
    case Explore =>
      AgentConfig("探索代码、查找文件、搜索的只读代理", Only(ReadOnlyTools),
                  "你是一个探索代理。搜索和分析，但绝不修改文件。返回简洁的摘要。")
    case Code =>
      AgentConfig("实现功能和修复错误的完整代理", AllTools,
                  "你是一个编码代理。高效地实现请求的更改。")
    case Plan =>
      AgentConfig("设计实现策略的规划代理", Only(ReadOnlyTools),
                  "你是一个规划代理。分析代码库并输出编号的实现计划。不要进行更改。")
  }

  /** The table key a string names, if any. */
  function ParseAgentType(s: string): (r: Option<AgentType>)
    ensures r.Some? <==> s in AgentNames
    ensures r.Some? ==> NameOf(r.value) == s
  {
    if s == "explore" then Some(Explore)
    else if s == "code" then Some(Code)
    else if s == "plan" then Some(Plan)
    else None
  }

  /** Naming a type and reading the name back gives the type. */
  lemma ParseNameOf(t: AgentType)
    ensures ParseAgentType(NameOf(t)) == Some(t)
  {
  }

  /** `isValidAgentType`: the string is a key of the table. */
  predicate IsValidAgentType(s: string) {
    ParseAgentType(s).Some?
  }

  /** The table and the validator of src/utils/validation.ts accept the same strings. */
  lemma ValidatorAgrees(s: string)
    ensures Validation.ValidateAgentType(s) == IsValidAgentType(s)
  {
  }

  /** The line `- name: description` that describes one type. */
  function DescriptionLine(t: AgentType): string {
    "- " + NameOf(t) + ": " + ConfigOf(t).description
  }

  /** `getAgentDescriptions`: the description lines in table order, one per line. */
  function GetAgentDescriptions(): (r: string)
    ensures Split(r, '\n') == [DescriptionLine(Explore), DescriptionLine(Code), DescriptionLine(Plan)]
  {
    var lines := [DescriptionLine(Explore), DescriptionLine(Code), DescriptionLine(Plan)];
    LinesHaveNoBreak();
    SplitJoin(lines, '\n');
    Join(lines, "\n")
  }

  /** No description line contains a line break. */
  lemma LinesHaveNoBreak()
    ensures forall t: AgentType :: '\n' !in DescriptionLine(t)
  {
    forall t: AgentType
      ensures '\n' !in DescriptionLine(t)
    {
      NoBreakIn(NameOf(t));
      NoBreakIn(ConfigOf(t).description);
    }
  }

  /** The type names and descriptions are single-line. */
  lemma NoBreakIn(s: string)
    requires s in AgentNames || s in [ConfigOf(Explore).description, ConfigOf(Code).description, ConfigOf(Plan).description]
    ensures '\n' !in s
  {
  }

  /** The read-only agents get only `bash` and `read_file`; only `code` gets every base tool. */
  lemma ToolWhitelists(t: AgentType)
    ensures ConfigOf(t).tools == AllTools <==> t == Code
    ensures t != Code ==> ConfigOf(t).tools == Only(ReadOnlyTools)
  {
  }

  /** No agent may be handed a tool that starts further agents. */
  lemma NoAgentSpawns(t: AgentType)
    ensures ConfigOf(t).tools.Only? ==>
              "Task" !in ConfigOf(t).tools.names && "Skill" !in ConfigOf(t).tools.names
  {
  }
}
