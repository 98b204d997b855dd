/**
 * The `todo_write` tool of src/tools/handlers/todo.ts: the model sends the
 * complete new list, and the tool answers with the rendered list or, when
 * the list is refused, with the refusal as text.
 */
module TodoTool {
  import opened Types
  import opened Validation
  import opened Todos

  /** The prefix of a refusal (an ASCII colon and a space). */
  const ErrorPrefix: string := "错误: "

  /** What the tool answers for a new list, whatever the list held before. */
  function TodoWriteOutput(input: seq<TodoInput>): (out: string)
    ensures TodoItemsError(input).Some? ==> out == ErrorPrefix + TodoItemsError(input).value
    ensures TodoItemsOk(input) ==> out == View(Normalized(input))
  {
    TodoItemsErrorNoneIff(input);
    match TodoItemsError(input)
    case Some(msg) => ErrorPrefix + msg
    case None => View(Normalized(input))
  }

  /**
   * `updateTodoItems`: never throws; a refused list leaves the manager as
   * it was, an accepted one replaces its list.
   */
  method UpdateTodoItems(manager: TodoManager, input: seq<TodoInput>) returns (out: string)
    requires manager.Valid()
    modifies manager
    ensures manager.Valid()
    ensures out == TodoWriteOutput(input)
    ensures TodoItemsError(input).Some? ==> manager.items == old(manager.items)
    ensures TodoItemsError(input).None? ==> manager.items == Normalized(input)
  {
    var r := manager.Update(input);
    match r
    case Success(text) => out := text;
    case Failure(msg) => out := ErrorPrefix + msg;
  }
}
