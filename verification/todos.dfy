/**
 * The session to-do list: a write tool that validates and replaces the
 * whole list, and a read tool that shows it grouped by status. The two
 * tools built together share one list.
 */
module Todos {
  import opened Wrappers
  import opened Text

  /** A to-do as the model sends it; any field may be missing. */
  datatype Todo = Todo(id: Option<String>, content: Option<String>, status: Option<String>, priority: Option<String>)

  const Statuses: set<String> := {"pending", "in_progress", "completed"}
  const Priorities: set<String> := {"high", "medium", "low"}

  const MissingFields: String := "Error: Each" + " todo must have id, content, status, and priority"

  predicate HasAllFields(t: Todo) {
    t.id.Some? && t.content.Some? && t.status.Some? && t.priority.Some?
  }

  /** What is wrong with one to-do, if anything: missing fields first, then the status, then the priority. */
  function ItemError(t: Todo): (err: Option<String>)
    ensures err.None? <==> HasAllFields(t) && t.status.value in Statuses && t.priority.value in Priorities
    ensures !HasAllFields(t) ==> err == Some(MissingFields)
    ensures err.Some? ==> StartsWith(err.value, "Error: Each") || StartsWith(err.value, "Error: Invalid ")
  {
    if !HasAllFields(t) then
      assert MissingFields[..11] == "Error: Each";
      Some(MissingFields)
    else if t.status.value !in Statuses then
      var e := "Error: Invalid status '" + t.status.value + "' for todo " + t.id.value;
      assert e[..15] == "Error: Invalid ";
      Some(e)
    else if t.priority.value !in Priorities then
      var e := "Error: Invalid priority '" + t.priority.value + "' for todo " + t.id.value;
      assert e[..15] == "Error: Invalid ";
      Some(e)
    else None
  }

  /** The per-item checks in list order: the first to-do that fails names the error. */
  function CheckItems(todos: seq<Todo>): (err: Option<String>)
    ensures err.Some? ==> exists k :: 0 <= k < |todos| && ItemError(todos[k]) == err
                                    && forall j :: 0 <= j < k ==> ItemError(todos[j]).None?
    ensures err.None? ==> forall k :: 0 <= k < |todos| ==> ItemError(todos[k]).None?
    decreases |todos|
  {
    if |todos| == 0 then None
    else if ItemError(todos[0]).Some? then ItemError(todos[0])
    else
      var err := CheckItems(todos[1..]);
      assert forall k :: 1 <= k < |todos| ==> todos[k] == todos[1..][k - 1];
      err
  }

  /** The ids, in list order. */
  function Ids(todos: seq<Todo>): (ids: seq<String>)
    ensures |ids| == |todos|
    ensures forall k :: 0 <= k < |todos| ==> ids[k] == todos[k].id.GetOr("")
  {
    seq(|todos|, k requires 0 <= k < |todos| => todos[k].id.GetOr(""))
  }

  /** `len(ids) == len(set(ids))` */
  predicate DistinctIds(todos: seq<Todo>) {
    forall i, j :: 0 <= i < j < |todos| ==> Ids(todos)[i] != Ids(todos)[j]
  }

  /** The status the read tool files a to-do under; a missing one counts as pending. */
  function StatusOf(t: Todo): String {
    t.status.GetOr("pending")
  }

  /** The to-dos with one status, in list order. */
  function WithStatus(todos: seq<Todo>, s: String): (r: seq<Todo>)
    ensures |r| <= |todos|
    ensures forall t :: t in r <==> t in todos && StatusOf(t) == s
    decreases |todos|
  {
    if |todos| == 0 then []
    else (if StatusOf(todos[0]) == s then [todos[0]] else []) + WithStatus(todos[1..], s)
  }

  /** Filtering distributes over concatenation, so it keeps the list order. */
  lemma {:induction false} WithStatusAppend(a: seq<Todo>, b: seq<Todo>, s: String)
    ensures WithStatus(a + b, s) == WithStatus(a, s) + WithStatus(b, s)
    decreases |a|
  {
    if |a| == 0 {
      assert a + b == b;
    } else {
      assert (a + b)[0] == a[0] && (a + b)[1..] == a[1..] + b;
      WithStatusAppend(a[1..], b, s);
    }
  }

  /** A single to-do is kept exactly when it has the status. */
  lemma WithStatusOne(t: Todo, s: String)
    ensures WithStatus([t], s) == if StatusOf(t) == s then [t] else []
  {
    assert [t][1..] == [];
  }

  /** The filter keeps every copy of a to-do with the status and drops every other. */
  lemma {:induction false} WithStatusCounts(todos: seq<Todo>, s: String, t: Todo)
    ensures multiset(WithStatus(todos, s))[t] == if StatusOf(t) == s then multiset(todos)[t] else 0
    decreases |todos|
  {
    if |todos| > 0 {
      WithStatusCounts(todos[1..], s, t);
      assert todos == [todos[0]] + todos[1..];
      assert multiset(todos) == multiset([todos[0]]) + multiset(todos[1..]);
    }
  }

  function CountStatus(todos: seq<Todo>, s: String): nat {
    |WithStatus(todos, s)|
  }

  /** The two tools' lists, and whether the tools were built linked. */
  datatype TodoTools = TodoTools(readList: seq<Todo>, writeList: seq<Todo>, linked: bool)

  /** `create_linked_todo_tools`: one empty list, seen by both tools. */
  function CreateLinked(): (tools: TodoTools)
    ensures tools.linked && tools.readList == tools.writeList == []
  {
    TodoTools([], [], true)
  }

  const Updated: String := "Todos updated successfully!"

  /** The warning for more than one task in progress; it is glued to the front of the first line. */
  function Warning(inProgress: nat): (w: String)
    ensures inProgress <= 1 <==> |w| == 0
  {
    if inProgress > 1 then "Warning: " + NatToString(inProgress) + " tasks marked as in_progress. Consider having only one active task.\n"
    else ""
  }

  /** The lines of a successful write's answer. */
  function WriteLines(oldCount: nat, todos: seq<Todo>): (lines: seq<String>)
    ensures |lines| == (if CountStatus(todos, "in_progress") == 1 then 5 else 4)
    ensures lines[0] == Warning(CountStatus(todos, "in_progress")) + Updated
    ensures lines[1] == "Total: " + NatToString(|todos|) + " tasks (" + SignedToString(|todos| - oldCount) + " change)"
    ensures lines[2] == "In Progress: " + NatToString(CountStatus(todos, "in_progress"))
    ensures lines[3] == "Completed: " + NatToString(CountStatus(todos, "completed"))
  {
    var active := WithStatus(todos, "in_progress");
    var base := [
      Warning(|active|) + Updated,
      "Total: " + NatToString(|todos|) + " tasks (" + SignedToString(|todos| - oldCount) + " change)",
      "In Progress: " + NatToString(|active|),
      "Completed: " + NatToString(CountStatus(todos, "completed"))
    ];
    if |active| == 1 then base + ["\nCurrent task: [" + active[0].id.GetOr("") + "] " + active[0].content.GetOr("")]
    else base
  }

  /**
   * `TodoWriteTool.execute`: the per-item checks, then the duplicate-id
   * check, then the list is replaced wholesale, and handed to the read
   * tool when the two are linked.
   */
  function Write(tools: TodoTools, todos: seq<Todo>): (r: (String, TodoTools))
    ensures CheckItems(todos).Some? ==> r == (CheckItems(todos).value, tools)
    ensures CheckItems(todos).None? && !DistinctIds(todos) ==> r == ("Error: Duplicate todo IDs found", tools)
    ensures CheckItems(todos).None? && DistinctIds(todos) ==>
      r.1.writeList == todos && r.1.linked == tools.linked
      && r.1.readList == (if tools.linked then todos else tools.readList)
    ensures CheckItems(todos).None? && DistinctIds(todos) ==>
      r.0 == Join(WriteLines(|tools.writeList|, todos), "\n")
  {
    var err := CheckItems(todos);
    if err.Some? then (err.value, tools)
    else if !DistinctIds(todos) then ("Error: Duplicate todo IDs found", tools)
    else
      var next := TodoTools(if tools.linked then todos else tools.readList, todos, tools.linked);
      (Join(WriteLines(|tools.writeList|, todos), "\n"), next)
  }

  /** The validity a stored list has after a successful write. */
  predicate Valid(todos: seq<Todo>) {
    CheckItems(todos).None? && DistinctIds(todos)
  }

  /**
   * Linked tools stay linked: after any sequence of writes both tools hold
   * the same list, the last one written, and that list is valid.
   */
  lemma LinkedStaySame(tools: TodoTools, todos: seq<Todo>)
    requires tools.linked && tools.readList == tools.writeList
    ensures var next := Write(tools, todos).1;
      next.linked && next.readList == next.writeList
      && (next.writeList == todos <==> Valid(todos) || tools.writeList == todos)
  {
  }

  /** Every item is checked before ids are compared: a bad item is reported even among duplicate ids. */
  lemma ItemsBeforeDuplicates(tools: TodoTools, todos: seq<Todo>, k: int)
    requires 0 <= k < |todos| && ItemError(todos[k]).Some?
    ensures Write(tools, todos).1 == tools
    ensures Write(tools, todos).0 != "Error: Duplicate todo IDs found"
  {
    var err := CheckItems(todos);
    var j :| 0 <= j < |todos| && ItemError(todos[j]) == err;
    var dup := "Error: Duplicate todo IDs found";
    assert err.value[7] == 'E' || err.value[7] == 'I';
    assert dup[7] == 'D';
  }

  /** More than one task in progress is accepted, with a warning in front. */
  lemma SeveralInProgressAccepted(tools: TodoTools, todos: seq<Todo>)
    requires Valid(todos) && CountStatus(todos, "in_progress") > 1
    ensures var r := Write(tools, todos);
      r.1.writeList == todos && StartsWith(r.0, "Warning: ")
  {
    var lines := WriteLines(|tools.writeList|, todos);
    JoinStartsWithFirst(lines, "\n");
    var w := Warning(CountStatus(todos, "in_progress"));
    assert lines[0][..9] == w[..9] == "Warning: ";
  }

  /** The "Current task" line is there exactly when one task is in progress, and names that task. */
  lemma CurrentTaskLine(oldCount: nat, todos: seq<Todo>)
    ensures var lines := WriteLines(oldCount, todos);
      var active := WithStatus(todos, "in_progress");
      (|lines| == 5 <==> |active| == 1)
      && (|active| == 1 ==> (active[0] in todos && StatusOf(active[0]) == "in_progress"
                             && lines[4] == "\nCurrent task: [" + active[0].id.GetOr("") + "] " + active[0].content.GetOr("")))
  {
  }

  // ---------------------------------------------------------------- todo_read

  const EmptyList: String := "No todos yet." + " Use todo_write to create your first task!"

  /** ASCII letters to upper case; every other character is kept. */
  function Upper(s: String): (r: String)
    ensures |r| == |s|
    ensures forall k :: 0 <= k < |s| ==> r[k] == (if 'a' <= s[k] <= 'z' then (s[k] as int - 32) as char else s[k])
  {
    seq(|s|, k requires 0 <= k < |s| => if 'a' <= s[k] <= 'z' then (s[k] as int - 32) as char else s[k])
  }

  /** One line of an open section, with the priority in capitals. */
  function OpenLine(t: Todo): String {
    "  [" + Upper(t.priority.GetOr("medium")) + "] [" + t.id.GetOr("?") + "] " + t.content.GetOr("No content")
  }

  function DoneLine(t: Todo): String {
    "  [DONE] [" + t.id.GetOr("?") + "] " + t.content.GetOr("No content")
  }

  function Lines(todos: seq<Todo>, done: bool): (lines: seq<String>)
    ensures |lines| == |todos|
    ensures forall k :: 0 <= k < |todos| ==> lines[k] == (if done then DoneLine(todos[k]) else OpenLine(todos[k]))
  {
    seq(|todos|, k requires 0 <= k < |todos| => if done then DoneLine(todos[k]) else OpenLine(todos[k]))
  }

  /** A heading and one line per to-do, in order, or nothing for an empty group. */
  function Section(heading: String, todos: seq<Todo>, done: bool): (lines: seq<String>)
    ensures |lines| == (if |todos| == 0 then 0 else |todos| + 1)
    ensures |todos| > 0 ==> lines[0] == "\n" + heading + ":"
    ensures forall k :: 0 <= k < |todos| ==> lines[k + 1] == if done then DoneLine(todos[k]) else OpenLine(todos[k])
  {
    if |todos| == 0 then [] else ["\n" + heading + ":"] + Lines(todos, done)
  }

  function SummaryLine(todos: seq<Todo>): String {
    "\nSummary: " + NatToString(|todos|) + " total | " + NatToString(CountStatus(todos, "in_progress")) + " in progress | "
      + NatToString(CountStatus(todos, "pending")) + " pending | " + NatToString(CountStatus(todos, "completed")) + " completed"
  }

  /** The number of lines a group's section takes. */
  function SectionSize(n: nat): nat {
    if n == 0 then 0 else n + 1
  }

  /**
   * The lines of the read tool's answer for a non-empty list: the title
   * and rule, the in-progress, pending and completed sections at the
   * positions their sizes give, and the summary last.
   */
  function ReadLines(todos: seq<Todo>): (lines: seq<String>)
    ensures var ip, pd, co := WithStatus(todos, "in_progress"), WithStatus(todos, "pending"), WithStatus(todos, "completed");
      var p0 := 2 + SectionSize(|ip|);
      var c0 := p0 + SectionSize(|pd|);
      && |lines| == c0 + SectionSize(|co|) + 1
      && lines[0] == "TODO LIST" && lines[1] == Rule
      && lines[2..p0] == Section("IN PROGRESS", ip, false)
      && lines[p0..c0] == Section("PENDING", pd, false)
      && lines[c0..|lines| - 1] == Section("COMPLETED", co, true)
      && lines[|lines| - 1] == SummaryLine(todos)
  {
    var ip, pd, co := WithStatus(todos, "in_progress"), WithStatus(todos, "pending"), WithStatus(todos, "completed");
    var a, b, c := Section("IN PROGRESS", ip, false), Section("PENDING", pd, false), Section("COMPLETED", co, true);
    var lines := ["TODO LIST", Rule] + a + b + c + [SummaryLine(todos)];
    SlicesOfFive(["TODO LIST", Rule], a, b, c, [SummaryLine(todos)]);
    lines
  }

  /** The parts of a five-part concatenation are found at the offsets their lengths give. */
  lemma SlicesOfFive(h: seq<String>, a: seq<String>, b: seq<String>, c: seq<String>, z: seq<String>)
    ensures var l := h + a + b + c + z;
      && l[..|h|] == h
      && l[|h|..|h| + |a|] == a
      && l[|h| + |a|..|h| + |a| + |b|] == b
      && l[|h| + |a| + |b|..|l| - |z|] == c
      && l[|l| - |z|..] == z
  {
  }

  /** `"=" * 40` */
  const Rule: String := "========================================"

  lemma RuleIsForty()
    ensures |Rule| == 40 && forall k :: 0 <= k < 40 ==> Rule[k] == '='
  {
  }

  /** `TodoReadTool.execute` */
  function Read(tools: TodoTools): (out: String)
    ensures |tools.readList| == 0 <==> out == EmptyList
    ensures |tools.readList| > 0 ==> out == Join(ReadLines(tools.readList), "\n")
  {
    if |tools.readList| == 0 then EmptyList
    else
      var lines := ReadLines(tools.readList);
      JoinStartsWithFirst(lines, "\n");
      assert lines[0] == "TODO LIST";
      assert Join(lines, "\n")[0] == 'T';
      assert EmptyList[0] == 'N';
      Join(lines, "\n")
  }

  /** Every to-do whose status is one of the three falls in exactly one group, so the group sizes add up. */
  lemma {:induction false} GroupsPartition(todos: seq<Todo>)
    requires forall k :: 0 <= k < |todos| ==> StatusOf(todos[k]) in Statuses
    ensures CountStatus(todos, "in_progress") + CountStatus(todos, "pending") + CountStatus(todos, "completed") == |todos|
    decreases |todos|
  {
    if |todos| > 0 {
      assert forall k :: 1 <= k < |todos| ==> todos[k] == todos[1..][k - 1];
      GroupsPartition(todos[1..]);
    }
  }

  /**
   * After a successful write, the read tool holds the written list, every
   * stored to-do falls in exactly one of the three groups it shows (each
   * group member gets one item line in `Section`), and the summary's
   * three counts add up to the total.
   */
  lemma ReadShowsEveryTodo(tools: TodoTools, todos: seq<Todo>)
    requires tools.linked && Valid(todos)
    ensures var shown := Write(tools, todos).1.readList;
      shown == todos
      && Groups(todos) == multiset(todos)
      && CountStatus(todos, "in_progress") + CountStatus(todos, "pending") + CountStatus(todos, "completed") == |todos|
  {
    forall k | 0 <= k < |todos|
      ensures StatusOf(todos[k]) in Statuses
    {
      assert ItemError(todos[k]).None?;
    }
    GroupsPartition(todos);
    GroupsCover(todos);
  }

  /** When every status is one of the three, the three groups together hold every to-do exactly as often as the list. */
  lemma {:induction false} GroupsCover(todos: seq<Todo>)
    requires forall k :: 0 <= k < |todos| ==> StatusOf(todos[k]) in Statuses
    ensures Groups(todos) == multiset(todos)
    decreases |todos|
  {
    if |todos| > 0 {
      var x, rest := todos[0], todos[1..];
      assert forall k :: 0 <= k < |rest| ==> rest[k] == todos[k + 1];
      GroupsCover(rest);
      assert StatusOf(x) in Statuses;
      GroupsStep(x, rest);
      assert todos == [x] + rest;
    }
  }

  /** The to-dos the three groups hold together, counted with multiplicity. */
  function Groups(todos: seq<Todo>): multiset<Todo> {
    multiset(WithStatus(todos, "in_progress")) + multiset(WithStatus(todos, "pending"))
      + multiset(WithStatus(todos, "completed"))
  }

  lemma GroupsStep(x: Todo, rest: seq<Todo>)
    requires StatusOf(x) in Statuses
    ensures Groups([x] + rest) == multiset{x} + Groups(rest)
  {
    WithStatusAppend([x], rest, "in_progress");
    WithStatusAppend([x], rest, "pending");
    WithStatusAppend([x], rest, "completed");
    WithStatusOne(x, "in_progress");
    WithStatusOne(x, "pending");
    WithStatusOne(x, "completed");
  }
}
