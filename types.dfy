/**
 * The values that flow between the model, the engine and the tools
 * (src/types/index.ts): conversation messages and their content blocks,
 * model responses, tool arguments and tool schemas, to-do list items.
 */
module Types {

  /** One to-do list item as the model sends it, before validation. */
  datatype TodoInput = TodoInput(content: string, status: string, activeForm: string)

  datatype Status = Pending | InProgress | Completed

  /** One validated to-do list item as the manager stores it. */
  datatype TodoItem = TodoItem(content: string, status: Status, activeForm: string)

  /** An argument value of a tool call. */
  datatype Value = Str(s: string) | Int(i: int) | Items(items: seq<TodoInput>)

  /** The arguments of a tool call, by parameter name. */
  type Args = map<string, Value>

  datatype Block =
    | Text(text: string)
    | ToolUse(id: string, name: string, input: Args)
    | ToolResult(toolUseId: string, content: string)

  datatype Role = User | Assistant

  /** A message body: plain text or a list of blocks. */
  datatype Content = Plain(text: string) | Blocks(blocks: seq<Block>)

  datatype Message = Message(role: Role, content: Content)

  /** One reply of the model: why it stopped and what it said. */
  datatype Response = Response(stopReason: string, content: seq<Block>)

  /** A tool as advertised to the model: its name and its parameters. */
  datatype ToolSpec = ToolSpec(name: string, properties: seq<string>, required: seq<string>)

  /**
   * What running one tool call returns. The first argument numbers the call
   * within a loop, so that tools with effects and a model that changes its
   * mind are both expressible as one value.
   */
  type Dispatcher = (nat, string, Args) -> string
}
