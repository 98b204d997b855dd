/**
 * The older top-level tool modules: the registry of tools/registry.ts (a
 * module-level table where a later registration silently replaces an
 * earlier one), the registrations and `BASE_TOOLS` of tools/index.ts, and
 * `runTask` of tools/task.ts, which looks the agent type up without
 * checking it first.
 *
 * The legacy tool schemas and handlers are taken to be those of the
 * newer engine (`ToolWiring`).
 */
module LegacyTools {
  import opened Wrappers
  import opened Types
  import opened OrderedMaps
  import opened Registry
  import opened ToolWiring
  import opened AgentTypes
  import opened Rounds
  import TaskRunner

  /** The module-level table of tools/registry.ts. */
  class LegacyRegistry<H> {
    var entries: OMap<string, Entry<H>>

    ghost predicate Valid()
      reads this
    {
      entries.Valid()
    }

    constructor ()
      ensures Valid() && entries == Empty()
    {
      entries := Empty();
    }

    /** `register`: a later registration under the same name replaces the earlier one, silently. */
    method Register(name: string, tool: ToolSpec, handler: H)
      requires Valid()
      modifies this
      ensures Valid()
      ensures entries == old(entries).Set(name, Entry(tool, handler))
    {
      entries.SetValid(name, Entry(tool, handler));
      entries := entries.Set(name, Entry(tool, handler));
    }

    /** `getTools`: every registered schema, in registration order. */
    function GetTools(): (r: seq<ToolSpec>)
      reads this
      requires Valid()
      ensures |r| == |entries.keys|
      ensures forall i :: 0 <= i < |r| ==> r[i] == entries.values[entries.keys[i]].tool
    {
      ToolsOf(entries)
    }

    /** `getBaseTools`: the registered schemas other than `Task` and `Skill`. */
    function GetBaseTools(): (r: seq<ToolSpec>)
      reads this
      requires Valid()
      ensures forall t :: t in r <==> t in GetTools() && !Spawns(t)
    {
      BaseOf(GetTools())
    }

    /** `execute`: an unknown name yields a message; a known one runs its handler. */
    function Execute(name: string, args: Args, invoke: (H, Args) -> string): (r: string)
      reads this
      ensures name !in entries.values ==> r == UnknownToolPrefix + name
      ensures name in entries.values ==> r == invoke(entries.values[name].handler, args)
    {
      match entries.Get(name)
      case None => UnknownToolPrefix + name
      case Some(entry) => invoke(entry.handler, args)
    }
  }

  /** The seven registrations at the top of tools/index.ts, in order. */
  method RegisterAll(reg: LegacyRegistry<Handler>)
    requires reg.Valid() && reg.entries == Empty()
    modifies reg
    ensures reg.Valid()
    ensures reg.entries == StandardEntries()
  {
    RegisteredFresh(0);
    reg.Register("bash", BashTool, BashHandler);
    RegisteredFresh(1);
    reg.Register("read_file", ReadFileTool, ReadFileHandler);
    RegisteredFresh(2);
    reg.Register("write_file", WriteFileTool, WriteFileHandler);
    RegisteredFresh(3);
    reg.Register("edit_file", EditFileTool, EditFileHandler);
    RegisteredFresh(4);
    reg.Register("todo_write", TodoWriteTool, TodoWriteHandler);
    RegisteredFresh(5);
    reg.Register("Task", TaskTool, TaskHandler);
    RegisteredFresh(6);
    reg.Register("Skill", SkillTool, SkillHandler);
  }

  /** Loading tools/index.ts: the registrations, then `BASE_TOOLS` taken from the filled table. */
  method LoadTools(reg: LegacyRegistry<Handler>) returns (baseTools: seq<ToolSpec>)
    requires reg.Valid() && reg.entries == Empty()
    modifies reg
    ensures reg.Valid()
    ensures reg.entries == StandardEntries()
    ensures baseTools == StandardTools[..5]
  {
    RegisterAll(reg);
    baseTools := reg.GetBaseTools();
    StandardBaseTools();
  }

  /** `executeTool`: `execute`, with the handler applied to the arguments it reads. */
  function LegacyExecuteTool(reg: LegacyRegistry<Handler>, name: string, args: Args, run: ToolCall -> string)
      : (r: string)
    reads reg
    ensures name !in reg.entries.values ==> r == UnknownToolPrefix + name
    ensures name in reg.entries.values ==> r == run(Bind(reg.entries.values[name].handler, args))
  {
    reg.Execute(name, args, (h, a) => run(Bind(h, a)))
  }

  /** `getToolsForAgent` of tools/task.ts: never more than the base tools. */
  function LegacyToolsForAgent<H>(reg: LegacyRegistry<H>, t: AgentType): (r: seq<ToolSpec>)
    reads reg
    requires reg.Valid()
    ensures forall x :: x in r ==> x in reg.GetBaseTools() && !Spawns(x)
  {
    TaskRunner.AllowedTools(reg.GetBaseTools(), t)
  }

  /** The lookup of an agent type that is not a key of the table fails (`config` is undefined). */
  datatype TaskError = UnknownAgentType(name: string)

  /**
   * `runTask`: the type is looked up without a check, so an unknown type
   * fails before the loop starts; otherwise the subagent runs as in the
   * newer runner and hands back the same summary.
   */
  method RunTask(description: string, prompt: string, agentType: string, responses: seq<Response>,
                 dispatch: Dispatcher) returns (r: Result<string, TaskError>)
    ensures r.Failure? <==> !IsValidAgentType(agentType)
    ensures r.Failure? ==> r.error == UnknownAgentType(agentType)
    ensures r.Success? ==>
              r.value == TaskRunner.Summary(Run(Subagent, TaskRunner.Isolated(prompt), responses, 0, 0, 0, dispatch).messages)
  {
    var config := ParseAgentType(agentType);
    if config.None? {
      return Failure(UnknownAgentType(agentType));
    }
    var messages, toolCount := TaskRunner.SubagentLoop(prompt, responses, dispatch, false);
    r := Success(TaskRunner.Summary(messages));
  }

}
