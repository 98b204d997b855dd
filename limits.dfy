/** The runtime limits of src/config/constants.ts. */
module Limits {

  /** Largest number of items a to-do list may hold. */
  const MaxTodoItems: nat := 20

  /** Rounds without a to-do list update after which the reminder is injected (strictly more than this). */
  const MaxRoundsWithoutTodo: nat := 10

  /** Largest number of characters a file or shell tool returns. */
  const MaxOutputSize: nat := 50000

  /** A session idle for longer than this many milliseconds (30 minutes) is expired. */
  const SessionTimeoutMs: nat := 30 * 60 * 1000
}
