/**
 * The to-do list manager of src/managers/todoManager.ts: it holds the
 * current list, replaces it wholesale on each validated update, and renders
 * it as the text the model reads back.
 */
module Todos {
  import opened Wrappers
  import opened Strings
  import opened Limits
  import opened Types
  import opened Validation

  const EmptyView: string := "没有待办事项。"

  function StatusName(st: Status): string {
    match st
    case Pending => "pending"
    case InProgress => "in_progress"
    case Completed => "completed"
  }

  /** The stored status of a validated status string; anything else reads as pending. */
  function ParseStatus(s: string): (st: Status)
    ensures IsStatusName(s) ==> StatusName(st) == s
    ensures st == InProgress <==> s == "in_progress"
  {
    if s == "completed" then Completed else if s == "in_progress" then InProgress else Pending
  }

  /** One input item as stored: text trimmed, status parsed. */
  function Normalize(t: TodoInput): TodoItem {
    TodoItem(Trim(t.content), ParseStatus(t.status), Trim(t.activeForm))
  }

  function Normalized(input: seq<TodoInput>): (r: seq<TodoItem>)
    ensures |r| == |input|
    ensures forall i :: 0 <= i < |input| ==> r[i] == Normalize(input[i])
  {
    seq(|input|, i requires 0 <= i < |input| => Normalize(input[i]))
  }

  /** How many items have status `st`. */
  function CountStatus(items: seq<TodoItem>, st: Status): (n: nat)
    ensures n <= |items|
    ensures n == |items| <==> forall i :: 0 <= i < |items| ==> items[i].status == st
    ensures n == 0 <==> forall i :: 0 <= i < |items| ==> items[i].status != st
  {
    if items == [] then 0
    else (if items[0].status == st then 1 else 0) + CountStatus(items[1..], st)
  }

  /** What a stored list always satisfies: the size limit, one item in progress at most, trimmed non-empty text. */
  ghost predicate WellFormed(items: seq<TodoItem>) {
    |items| <= MaxTodoItems && CountStatus(items, InProgress) <= 1
    && forall i :: 0 <= i < |items| ==>
         items[i].content != "" && items[i].activeForm != ""
         && Trim(items[i].content) == items[i].content
         && Trim(items[i].activeForm) == items[i].activeForm
  }

  /** Normalizing keeps the number of items in progress. */
  lemma {:induction false} InProgressPreserved(input: seq<TodoInput>)
    ensures CountStatus(Normalized(input), InProgress) == InProgressCount(input)
  {
    if input != [] {
      assert Normalized(input)[1..] == Normalized(input[1..]);
      InProgressPreserved(input[1..]);
    }
  }

  /** Every list that passes validation is stored well formed. */
  lemma NormalizedWellFormed(input: seq<TodoInput>)
    requires TodoItemsOk(input)
    ensures WellFormed(Normalized(input))
  {
    InProgressPreserved(input);
    var r := Normalized(input);
    forall i | 0 <= i < |r|
      ensures r[i].content != "" && r[i].activeForm != ""
      ensures Trim(r[i].content) == r[i].content && Trim(r[i].activeForm) == r[i].activeForm
    {
      assert ItemOk(input[i]);
      TrimIdempotent(input[i].content);
      TrimIdempotent(input[i].activeForm);
    }
  }

  /** Two different items in progress count twice. */
  lemma {:induction false} TwoInProgressCounted(items: seq<TodoItem>, i: nat, j: nat)
    requires i < j < |items|
    requires items[i].status == InProgress && items[j].status == InProgress
    ensures CountStatus(items, InProgress) >= 2
  {
    assert items[1..][j - 1].status == InProgress;
    if i != 0 {
      TwoInProgressCounted(items[1..], i - 1, j - 1);
    }
  }

  /** In a well-formed list, at most one index holds an item in progress. */
  lemma AtMostOneInProgress(items: seq<TodoItem>, i: nat, j: nat)
    requires CountStatus(items, InProgress) <= 1
    requires i < |items| && j < |items|
    requires items[i].status == InProgress && items[j].status == InProgress
    ensures i == j
  {
    if i < j {
      TwoInProgressCounted(items, i, j);
    } else if j < i {
      TwoInProgressCounted(items, j, i);
    }
  }

  /** The line of one item: a check box, the content, and for the item in progress its active form. */
  function ItemLine(item: TodoItem): string {
    match item.status
    case Completed => "[x] " + item.content
    case InProgress => "[>] " + item.content + " <- " + item.activeForm
    case Pending => "[ ] " + item.content
  }

  function Lines(items: seq<TodoItem>): (r: seq<string>)
    ensures |r| == |items|
    ensures forall i :: 0 <= i < |items| ==> r[i] == ItemLine(items[i])
  {
    seq(|items|, i requires 0 <= i < |items| => ItemLine(items[i]))
  }

  /** The progress count, as the text after the blank line. */
  function Progress(items: seq<TodoItem>): string {
    "(" + NatToString(CountStatus(items, Completed)) + "/" + NatToString(|items|) + " 已完成)"
  }

  /** The rendered list: one line per item in order, a blank line, then the progress count. */
  function View(items: seq<TodoItem>): string {
    if |items| == 0 then EmptyView else Join(Lines(items) + ["\n" + Progress(items)], "\n")
  }

  /** Neither text of an item contains a line break. */
  predicate SingleLine(item: TodoItem) {
    '\n' !in item.content && '\n' !in item.activeForm
  }

  /** The progress count is a single line. */
  lemma ProgressSingleLine(items: seq<TodoItem>)
    ensures '\n' !in Progress(items)
  {
    var done := NatToString(CountStatus(items, Completed));
    var all := NatToString(|items|);
    assert '\n' !in done && '\n' !in all;
  }

  /** The blank line before the count is an empty line of its own. */
  lemma ViewParts(items: seq<TodoItem>)
    requires |items| > 0
    ensures View(items) == Join(Lines(items) + ["", Progress(items)], "\n")
  {
    JoinBlankPart(Lines(items), Progress(items), "\n");
  }

  /**
   * When no item text contains a line break, the view splits back into
   * exactly one line per item, in order, then an empty line, then the count.
   */
  lemma ViewLines(items: seq<TodoItem>)
    requires |items| > 0
    requires forall i :: 0 <= i < |items| ==> SingleLine(items[i])
    ensures Split(View(items), '\n') == Lines(items) + ["", Progress(items)]
  {
    ViewParts(items);
    var parts := Lines(items) + ["", Progress(items)];
    PartsSingleLine(items, parts);
    SplitJoin(parts, '\n');
  }

  /** The line of a break-free item is a single line. */
  lemma ItemLineSingle(item: TodoItem)
    requires SingleLine(item)
    ensures '\n' !in ItemLine(item)
  {
    var c, a := item.content, item.activeForm;
    match item.status
    case Completed => assert ItemLine(item) == "[x] " + c;
    case InProgress => assert ItemLine(item) == "[>] " + c + " <- " + a;
    case Pending => assert ItemLine(item) == "[ ] " + c;
  }

  /** Every part of the view of break-free items is a single line. */
  lemma PartsSingleLine(items: seq<TodoItem>, parts: seq<string>)
    requires forall i :: 0 <= i < |items| ==> SingleLine(items[i])
    requires parts == Lines(items) + ["", Progress(items)]
    ensures forall i :: 0 <= i < |parts| ==> '\n' !in parts[i]
  {
    ProgressSingleLine(items);
    forall i | 0 <= i < |parts|
      ensures '\n' !in parts[i]
    {
      if i < |items| {
        ItemLineSingle(items[i]);
        assert parts[i] == ItemLine(items[i]);
      } else if i == |items| {
        assert parts[i] == "";
      } else {
        assert parts[i] == Progress(items);
      }
    }
  }

  /** The first item in progress, as `Array.prototype.find` returns it. */
  function FindInProgress(items: seq<TodoItem>): (r: Option<TodoItem>)
    ensures r.Some? <==> exists i :: 0 <= i < |items| && items[i].status == InProgress
    ensures r.Some? ==> r.value in items && r.value.status == InProgress
  {
    if items == [] then None
    else if items[0].status == InProgress then Some(items[0])
    else FindInProgress(items[1..])
  }

  /** With at most one item in progress, the one found is every item in progress. */
  lemma FoundItemIsTheOnlyOne(items: seq<TodoItem>)
    requires CountStatus(items, InProgress) <= 1
    ensures var r := FindInProgress(items);
            r.Some? ==> forall i :: 0 <= i < |items| && items[i].status == InProgress ==> items[i] == r.value
  {
    var r := FindInProgress(items);
    if r.Some? {
      forall i | 0 <= i < |items| && items[i].status == InProgress
        ensures items[i] == r.value
      {
        var k :| 0 <= k < |items| && items[k] == r.value;
        AtMostOneInProgress(items, i, k);
      }
    }
  }

  class TodoManager {
    var items: seq<TodoItem>

    ghost predicate Valid()
      reads this
    {
      WellFormed(items)
    }

    constructor ()
      ensures Valid() && items == []
    {
      items := [];
    }

    /**
     * `update`: a list that fails validation leaves the stored list as it
     * was and yields the validation message; any other list replaces the
     * stored one entirely and yields its rendering.
     */
    method Update(input: seq<TodoInput>) returns (r: Result<string, string>)
      requires Valid()
      modifies this
      ensures Valid()
      ensures TodoItemsError(input).Some? ==>
                r == Failure(TodoItemsError(input).value) && items == old(items)
      ensures TodoItemsError(input).None? ==>
                items == Normalized(input) && r == Success(View(items))
    {
      var err := ValidateTodoItems(input);
      if err.Some? {
        return Failure(err.value);
      }
      TodoItemsErrorNoneIff(input);
      NormalizedWellFormed(input);
      items := Normalized(input);
      var text := Render();
      return Success(text);
    }

    /** `render`. */
    method Render() returns (text: string)
      ensures text == View(items)
    {
      if |items| == 0 {
        return EmptyView;
      }
      var lines: seq<string> := [];
      for i := 0 to |items|
        invariant |lines| == i
        invariant forall j :: 0 <= j < i ==> lines[j] == ItemLine(items[j])
      {
        var item := items[i];
        if item.status == Completed {
          lines := lines + ["[x] " + item.content];
        } else if item.status == InProgress {
          lines := lines + ["[>] " + item.content + " <- " + item.activeForm];
        } else {
          lines := lines + ["[ ] " + item.content];
        }
      }
      assert lines == Lines(items);
      var completed := CountStatus(items, Completed);
      lines := lines + ["\n" + ("(" + NatToString(completed) + "/" + NatToString(|items|) + " 已完成)")];
      text := Join(lines, "\n");
    }

    /** `count`. */
    function Count(): (n: nat)
      reads this
      ensures n == |items|
    {
      |items|
    }

    /** `completedCount`: at most the whole list, and all of it exactly when every item is done. */
    function CompletedCount(): (n: nat)
      reads this
      ensures n <= Count()
      ensures n == Count() <==> forall i :: 0 <= i < |items| ==> items[i].status == Completed
    {
      CountStatus(items, Completed)
    }

    /** `inProgressItem`: the one item in progress, if there is one. */
    function InProgressItem(): (r: Option<TodoItem>)
      reads this
      requires Valid()
      ensures r.None? <==> forall i :: 0 <= i < |items| ==> items[i].status != InProgress
      ensures r.Some? ==> r.value.status == InProgress
                          && forall i :: 0 <= i < |items| && items[i].status == InProgress ==> items[i] == r.value
    {
      FoundItemIsTheOnlyOne(items);
      FindInProgress(items)
    }

    /** `allItems`: a copy of the stored list. */
    function AllItems(): (r: seq<TodoItem>)
      reads this
      ensures r == items
    {
      items
    }
  }
}
