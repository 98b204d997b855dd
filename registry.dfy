/**
 * The tool registry of src/tools/registry.ts: one table from tool name to
 * the tool's schema and its handler, kept in registration order, through
 * which every tool call is dispatched. The handler type is a parameter;
 * running a handler is the `invoke` argument of `Execute`.
 */
module Registry {
  import opened Wrappers
  import opened Types
  import opened OrderedMaps

  datatype Entry<H> = Entry(tool: ToolSpec, handler: H)

  /** The answer to a call of a tool nobody registered (a full-width colon). */
  const UnknownToolPrefix: string := "未知工具："

  /** The tools that start further agents and so are withheld from subagents. */
  predicate Spawns(t: ToolSpec) {
    t.name == "Task" || t.name == "Skill"
  }

  /** The tools that do not spawn, in order. */
  function BaseOf(tools: seq<ToolSpec>): (r: seq<ToolSpec>)
    ensures forall t :: t in r <==> t in tools && !Spawns(t)
    ensures |r| <= |tools|
  {
    if tools == [] then []
    else (if Spawns(tools[0]) then [] else [tools[0]]) + BaseOf(tools[1..])
  }

  /** Filtering keeps the relative order: it distributes over concatenation. */
  lemma {:induction false} BaseOfAppend(a: seq<ToolSpec>, b: seq<ToolSpec>)
    ensures BaseOf(a + b) == BaseOf(a) + BaseOf(b)
  {
    if a == [] {
      assert a + b == b;
    } else {
      assert (a + b)[1..] == a[1..] + b;
      BaseOfAppend(a[1..], b);
    }
  }

  /** Filtering keeps a list with no spawning tool as it is. */
  lemma {:induction false} BaseOfKeepsAll(tools: seq<ToolSpec>)
    requires forall i :: 0 <= i < |tools| ==> !Spawns(tools[i])
    ensures BaseOf(tools) == tools
  {
    if tools != [] {
      BaseOfKeepsAll(tools[1..]);
      assert [tools[0]] + tools[1..] == tools;
    }
  }

  /** Filtering drops a list of spawning tools entirely. */
  lemma {:induction false} BaseOfDropsAll(tools: seq<ToolSpec>)
    requires forall i :: 0 <= i < |tools| ==> Spawns(tools[i])
    ensures BaseOf(tools) == []
  {
    if tools != [] {
      BaseOfDropsAll(tools[1..]);
    }
  }

  /** The tools whose name is listed, in registration order. */
  function ByNames(tools: seq<ToolSpec>, names: seq<string>): (r: seq<ToolSpec>)
    ensures forall t :: t in r <==> t in tools && t.name in names
    ensures |r| <= |tools|
  {
    if tools == [] then []
    else (if tools[0].name in names then [tools[0]] else []) + ByNames(tools[1..], names)
  }

  /** Selecting by name distributes over concatenation: it keeps the relative order. */
  lemma {:induction false} ByNamesAppend(a: seq<ToolSpec>, b: seq<ToolSpec>, names: seq<string>)
    ensures ByNames(a + b, names) == ByNames(a, names) + ByNames(b, names)
  {
    if a == [] {
      assert a + b == b;
    } else {
      assert (a + b)[1..] == a[1..] + b;
      ByNamesAppend(a[1..], b, names);
    }
  }

  /** Selecting by name keeps a list whose names are all listed as it is. */
  lemma {:induction false} ByNamesKeepsAll(tools: seq<ToolSpec>, names: seq<string>)
    requires forall i :: 0 <= i < |tools| ==> tools[i].name in names
    ensures ByNames(tools, names) == tools
  {
    if tools != [] {
      ByNamesKeepsAll(tools[1..], names);
      assert [tools[0]] + tools[1..] == tools;
    }
  }

  /** Selecting by name drops a list whose names are all unlisted. */
  lemma {:induction false} ByNamesDropsAll(tools: seq<ToolSpec>, names: seq<string>)
    requires forall i :: 0 <= i < |tools| ==> tools[i].name !in names
    ensures ByNames(tools, names) == []
  {
    if tools != [] {
      ByNamesDropsAll(tools[1..], names);
    }
  }

  /** The schemas of a table, in key order. */
  function ToolsOf<H>(entries: OMap<string, Entry<H>>): (r: seq<ToolSpec>)
    requires entries.Valid()
    ensures |r| == |entries.keys|
    ensures forall i :: 0 <= i < |r| ==> r[i] == entries.values[entries.keys[i]].tool
  {
    seq(|entries.keys|, i requires 0 <= i < |entries.keys| => entries.values[entries.keys[i]].tool)
  }

  /** Registering a new name adds its tool last; registering a known name replaces its tool in place. */
  lemma ToolsAfterSet<H>(entries: OMap<string, Entry<H>>, name: string, e: Entry<H>)
    requires entries.Valid()
    ensures name !in entries.values ==> ToolsOf(entries.Set(name, e)) == ToolsOf(entries) + [e.tool]
    ensures name in entries.values ==>
              exists i :: 0 <= i < |entries.keys| && entries.keys[i] == name
                          && ToolsOf(entries.Set(name, e)) == ToolsOf(entries)[i := e.tool]
  {
    var after := entries.Set(name, e);
    if name in entries.values {
      var i :| 0 <= i < |entries.keys| && entries.keys[i] == name;
      assert ToolsOf(after) == ToolsOf(entries)[i := e.tool];
    } else {
      assert ToolsOf(after) == ToolsOf(entries) + [e.tool];
    }
  }

  class ToolRegistry<H> {
    var entries: OMap<string, Entry<H>>
    /** The names `register` warned about, in order. */
    ghost var warnings: seq<string>

    ghost predicate Valid()
      reads this
    {
      entries.Valid()
    }

    constructor ()
      ensures Valid() && entries == Empty() && warnings == []
    {
      entries := Empty();
      warnings := [];
    }

    /** `register`: a later registration under the same name replaces the earlier one, with a warning. */
    method Register(name: string, tool: ToolSpec, handler: H)
      requires Valid()
      modifies this
      ensures Valid()
      ensures entries == old(entries).Set(name, Entry(tool, handler))
      ensures warnings == old(warnings) + (if name in old(entries.values) then [name] else [])
    {
      if entries.Has(name) {
        warnings := warnings + [name];
      }
      entries.SetValid(name, Entry(tool, handler));
      entries := entries.Set(name, Entry(tool, handler));
    }

    /** `getTools`: every registered schema, in registration order. */
    function GetTools(): (r: seq<ToolSpec>)
      reads this
      requires Valid()
      ensures |r| == |entries.keys|
      ensures forall i :: 0 <= i < |r| ==> r[i] == entries.values[entries.keys[i]].tool
    {
      ToolsOf(entries)
    }

    /** `getBaseTools`: the registered schemas other than `Task` and `Skill`. */
    function GetBaseTools(): (r: seq<ToolSpec>)
      reads this
      requires Valid()
      ensures forall t :: t in r <==> t in GetTools() && !Spawns(t)
    {
      BaseOf(GetTools())
    }

    /** `getToolsByNames`: the registered schemas whose name is listed. */
    function GetToolsByNames(names: seq<string>): (r: seq<ToolSpec>)
      reads this
      requires Valid()
      ensures forall t :: t in r <==> t in GetTools() && t.name in names
    {
      ByNames(GetTools(), names)
    }

    /** `execute`: an unknown name yields a message; a known one runs its handler. */
    function Execute(name: string, args: Args, invoke: (H, Args) -> string): (r: string)
      reads this
      ensures name !in entries.values ==> r == UnknownToolPrefix + name
      ensures name in entries.values ==> r == invoke(entries.values[name].handler, args)
    {
      match entries.Get(name)
      case None => UnknownToolPrefix + name
      case Some(entry) => invoke(entry.handler, args)
    }

    /** `has`. */
    predicate Has(name: string)
      reads this
    {
      name in entries.values
    }

    /** `getToolNames`: each registered name once, in registration order. */
    function GetToolNames(): (r: seq<string>)
      reads this
      requires Valid()
      ensures forall n :: n in r <==> Has(n)
      ensures Distinct(r)
      ensures r == entries.keys
    {
      entries.keys
    }

    /** `getTool`. */
    function GetTool(name: string): (r: Option<ToolSpec>)
      reads this
      ensures r.Some? <==> Has(name)
      ensures r.Some? ==> r.value == entries.values[name].tool
    {
      match entries.Get(name)
      case None => None
      case Some(entry) => Some(entry.tool)
    }
  }
}
