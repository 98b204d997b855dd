/**
 * The wiring of src/tools/index.ts: the seven tool schemas, the handler
 * registered for each, how a handler reads its arguments, the tool lists
 * taken once the registry is initialised, and `executeTool`.
 */
module ToolWiring {
  import opened Wrappers
  import opened Types
  import opened OrderedMaps
  import opened Registry

  /** Which handler a registry entry holds. */
  datatype Handler =
    | BashHandler
    | ReadFileHandler
    | WriteFileHandler
    | EditFileHandler
    | TodoWriteHandler
    | TaskHandler
    | SkillHandler

  /** A handler applied to its arguments: the call the engine makes. */
  datatype ToolCall =
    | RunBash(command: string)
    | ReadFile(path: string, limit: Option<int>)
    | WriteFile(path: string, content: string)
    | EditFile(path: string, oldText: string, newText: string)
    | TodoWrite(items: seq<TodoInput>)
    | RunTask(description: string, prompt: string, agentType: string)
    | LoadSkill(skill: string)

  const BashTool: ToolSpec := ToolSpec("bash", ["command"], ["command"])
  const ReadFileTool: ToolSpec := ToolSpec("read_file", ["path", "limit"], ["path"])
  const WriteFileTool: ToolSpec := ToolSpec("write_file", ["path", "content"], ["path", "content"])
  const EditFileTool: ToolSpec :=
    ToolSpec("edit_file", ["path", "old_text", "new_text"], ["path", "old_text", "new_text"])
  const TodoWriteTool: ToolSpec := ToolSpec("todo_write", ["items"], ["items"])
  const TaskTool: ToolSpec :=
    ToolSpec("Task", ["description", "prompt", "agent_type"], ["description", "prompt", "agent_type"])
  const SkillTool: ToolSpec := ToolSpec("Skill", ["skill"], ["skill"])

  /** The registrations, in the order they are made. */
  const StandardNames: seq<string> :=
    ["bash", "read_file", "write_file", "edit_file", "todo_write", "Task", "Skill"]
  const StandardTools: seq<ToolSpec> :=
    [BashTool, ReadFileTool, WriteFileTool, EditFileTool, TodoWriteTool, TaskTool, SkillTool]
  const StandardHandlers: seq<Handler> :=
    [BashHandler, ReadFileHandler, WriteFileHandler, EditFileHandler, TodoWriteHandler, TaskHandler, SkillHandler]

  /** A string argument; an absent or non-string one reads as empty. */
  function StrArg(a: Args, key: string): string {
    if key in a && a[key].Str? then a[key].s else ""
  }

  /** A numeric argument, absent when missing. */
  function IntArg(a: Args, key: string): Option<int> {
    if key in a && a[key].Int? then Some(a[key].i) else None
  }

  /** A to-do list argument; an absent one reads as no items. */
  function ItemsArg(a: Args, key: string): seq<TodoInput> {
    if key in a && a[key].Items? then a[key].items else []
  }

  /** The closure registered with each handler: which arguments it passes on. */
  function Bind(h: Handler, a: Args): ToolCall {
    match h
    case BashHandler => RunBash(StrArg(a, "command"))
    case ReadFileHandler => ReadFile(StrArg(a, "path"), IntArg(a, "limit"))
    case WriteFileHandler => WriteFile(StrArg(a, "path"), StrArg(a, "content"))
    case EditFileHandler => EditFile(StrArg(a, "path"), StrArg(a, "old_text"), StrArg(a, "new_text"))
    case TodoWriteHandler => TodoWrite(ItemsArg(a, "items"))
    case TaskHandler => RunTask(StrArg(a, "description"), StrArg(a, "prompt"), StrArg(a, "agent_type"))
    case SkillHandler => LoadSkill(StrArg(a, "skill"))
  }

  /** The schema each handler is registered with. */
  function SpecOf(h: Handler): ToolSpec {
    match h
    case BashHandler => BashTool
    case ReadFileHandler => ReadFileTool
    case WriteFileHandler => WriteFileTool
    case EditFileHandler => EditFileTool
    case TodoWriteHandler => TodoWriteTool
    case TaskHandler => TaskTool
    case SkillHandler => SkillTool
  }

  /** Two argument maps agree on the listed keys. */
  predicate AgreeOn(a: Args, b: Args, keys: seq<string>) {
    forall k :: k in keys ==> (k in a <==> k in b) && (k in a ==> a[k] == b[k])
  }

  /** Each handler reads only the parameters its schema declares: arguments beyond them change nothing. */
  lemma BindReadsDeclaredParameters(h: Handler, a: Args, b: Args)
    requires AgreeOn(a, b, SpecOf(h).properties)
    ensures Bind(h, a) == Bind(h, b)
  {
    var ps := SpecOf(h).properties;
    assert forall i :: 0 <= i < |ps| ==> ps[i] in ps;
  }

  /** The table after the first `n` registrations of `initializeRegistry`. */
  function Registered(n: nat): (m: OMap<string, Entry<Handler>>)
    requires n <= |StandardNames|
  {
    if n == 0 then Empty()
    else Registered(n - 1).Set(StandardNames[n - 1], Entry(StandardTools[n - 1], StandardHandlers[n - 1]))
  }

  /** The table after `initializeRegistry`. */
  function StandardEntries(): (m: OMap<string, Entry<Handler>>)
    ensures m.Valid() && m.keys == StandardNames
  {
    RegisteredKeys(|StandardNames|);
    Registered(|StandardNames|)
  }

  /** No name is registered twice. */
  lemma StandardNamesDistinct()
    ensures Distinct(StandardNames)
  {
  }

  /** The first `n` registrations list the first `n` names, in order. */
  lemma {:induction false} RegisteredKeys(n: nat)
    requires n <= |StandardNames|
    ensures Registered(n).Valid()
    ensures Registered(n).keys == StandardNames[..n]
  {
    if n > 0 {
      RegisteredKeys(n - 1);
      var prev := Registered(n - 1);
      StandardNamesDistinct();
      DistinctNotBefore(StandardNames, n - 1);
      prev.SetValid(StandardNames[n - 1], Entry(StandardTools[n - 1], StandardHandlers[n - 1]));
      assert StandardNames[..n] == StandardNames[..n - 1] + [StandardNames[n - 1]];
    }
  }

  /** After the first `n` registrations each of those names holds its own schema and handler. */
  lemma {:induction false} RegisteredValues(n: nat)
    requires n <= |StandardNames|
    ensures forall i :: 0 <= i < n ==>
              StandardNames[i] in Registered(n).values
              && Registered(n).values[StandardNames[i]] == Entry(StandardTools[i], StandardHandlers[i])
  {
    if n > 0 {
      RegisteredValues(n - 1);
      StandardNamesDistinct();
    }
  }

  /** The `n`-th registration is of a name not yet registered. */
  lemma RegisteredFresh(n: nat)
    requires n < |StandardNames|
    ensures StandardNames[n] !in Registered(n).values
  {
    RegisteredKeys(n);
    StandardNamesDistinct();
    DistinctNotBefore(StandardNames, n);
  }

  /** `initializeRegistry` on the fresh registry: seven registrations, no warnings. */
  method InitializeRegistry(reg: ToolRegistry<Handler>)
    requires reg.Valid() && reg.entries == Empty()
    modifies reg
    ensures reg.Valid()
    ensures reg.entries == StandardEntries()
    ensures reg.warnings == old(reg.warnings)
  {
    RegisterNext(reg, 0);
    RegisterNext(reg, 1);
    RegisterNext(reg, 2);
    RegisterNext(reg, 3);
    RegisterNext(reg, 4);
    RegisterNext(reg, 5);
    RegisterNext(reg, 6);
  }

  /**
   * Registration `k` of `initializeRegistry`, the `k`-th of its seven `register` calls:
   * a fresh name, so no warning, and the table after `k + 1` registrations.
   */
  method RegisterNext(reg: ToolRegistry<Handler>, k: nat)
    requires reg.Valid() && k < |StandardNames| && reg.entries == Registered(k)
    modifies reg
    ensures reg.Valid()
    ensures reg.entries == Registered(k + 1)
    ensures reg.warnings == old(reg.warnings)
  {
    RegisterStep(k, StandardNames[k], StandardTools[k], StandardHandlers[k]);
    reg.Register(StandardNames[k], StandardTools[k], StandardHandlers[k]);
  }

  /** Registration `k` adds a fresh name and leads to the table after `k + 1` registrations. */
  lemma RegisterStep(k: nat, name: string, tool: ToolSpec, handler: Handler)
    requires k < |StandardNames|
    requires name == StandardNames[k] && tool == StandardTools[k] && handler == StandardHandlers[k]
    ensures name !in Registered(k).values
    ensures Registered(k).Set(name, Entry(tool, handler)) == Registered(k + 1)
  {
    RegisteredFresh(k);
  }

  /** After initialisation the registry lists the seven tools, each under its own name with its own handler. */
  lemma StandardTable()
    ensures forall i :: 0 <= i < |StandardNames| ==>
              StandardEntries().values[StandardNames[i]] == Entry(StandardTools[i], StandardHandlers[i])
  {
    RegisteredValues(|StandardNames|);
  }

  /** `getTools` after initialisation: the seven schemas in registration order. */
  lemma StandardToolList()
    ensures StandardEntries().Valid() && ToolsOf(StandardEntries()) == StandardTools
  {
    StandardTable();
  }

  /** Each handler is registered with its own schema, under the schema's name. */
  lemma HandlersMatchSchemas()
    ensures forall i :: 0 <= i < |StandardNames| ==>
              SpecOf(StandardHandlers[i]) == StandardTools[i] && StandardTools[i].name == StandardNames[i]
  {
  }

  /** None of the first five schemas spawns. */
  lemma FirstFiveBase()
    ensures BaseOf(StandardTools[..5]) == StandardTools[..5]
  {
    BaseOfKeepsAll(StandardTools[..5]);
  }

  /** `Task` and `Skill`, the last two, both spawn. */
  lemma LastTwoSpawn()
    ensures BaseOf(StandardTools[5..]) == []
  {
    BaseOfDropsAll(StandardTools[5..]);
  }

  /** Of the seven schemas, all but `Task` and `Skill` are base tools. */
  lemma StandardToolsBase()
    ensures BaseOf(StandardTools) == StandardTools[..5]
  {
    var five, two := StandardTools[..5], StandardTools[5..];
    assert StandardTools == five + two;
    BaseOfAppend(five, two);
    FirstFiveBase();
    LastTwoSpawn();
  }

  /** `baseTools`: the five tools a subagent may be given, without `Task` and `Skill`. */
  lemma StandardBaseTools()
    ensures BaseOf(ToolsOf(StandardEntries())) == StandardTools[..5]
  {
    StandardToolList();
    StandardToolsBase();
  }

  /** `executeTool`: the handler registered under the name, applied to the arguments it reads. */
  function ExecuteTool(reg: ToolRegistry<Handler>, name: string, args: Args, run: ToolCall -> string): (r: string)
    reads reg
    ensures !reg.Has(name) ==> r == UnknownToolPrefix + name
    ensures reg.Has(name) ==> r == run(Bind(reg.entries.values[name].handler, args))
  {
    reg.Execute(name, args, (h, a) => run(Bind(h, a)))
  }

  /** On the initialised registry, each standard name reaches its own handler and any other name is unknown. */
  lemma StandardRouting(reg: ToolRegistry<Handler>, name: string, args: Args, run: ToolCall -> string)
    requires reg.entries == StandardEntries()
    ensures name !in StandardNames ==> ExecuteTool(reg, name, args, run) == UnknownToolPrefix + name
    ensures forall i :: 0 <= i < |StandardNames| && StandardNames[i] == name ==>
              ExecuteTool(reg, name, args, run) == run(Bind(StandardHandlers[i], args))
  {
    StandardTable();
  }
}
