/**
 * The Jupyter notebook tool: reading, editing and adding cells. A notebook
 * file holds either a parsed notebook or text that is not valid JSON; the
 * JSON encoding itself is taken as a faithful round trip.
 */
module Notebook {
  import opened Wrappers
  import opened Text
  import opened Conversation

  /** A cell's `source`: a list of lines, or one string. */
  datatype Source = Lines(lines: seq<String>) | Whole(text: String)

  /** A cell; `outputs` are kept as opaque records. */
  datatype Cell =
    | Code(source: Source, executionCount: Option<int>, outputs: seq<Value>, metadata: map<String, Value>)
    | Markdown(source: Source, metadata: map<String, Value>)
    | OtherCell(cellType: Option<String>, source: Source)

  /** A notebook: its cells and every other top-level field. A missing "cells" key reads as no cells. */
  datatype Nb = Nb(cells: seq<Cell>, fields: map<String, Value>)

  datatype NbFile = Parsed(nb: Nb) | Unparsable(error: String)

  type Files = map<String, NbFile>

  datatype Step = Step(out: String, files: Files)

  /** `_get_cell_source`: the lines joined with nothing between them. */
  function SourceText(s: Source): String {
    match s
    case Lines(lines) => Concat(lines)
    case Whole(text) => text
  }

  function CellType(c: Cell): String {
    match c
    case Code(_, _, _, _) => "code"
    case Markdown(_, _) => "markdown"
    case OtherCell(t, _) => t.GetOr("unknown")
  }

  /** Every piece but the last gets its line break back. */
  function Terminated(pieces: seq<String>): (lines: seq<String>)
    requires |pieces| >= 1
    ensures |lines| == |pieces|
    ensures lines[|lines| - 1] == pieces[|pieces| - 1]
    ensures forall k :: 0 <= k < |pieces| - 1 ==> lines[k] == pieces[k] + "\n"
  {
    seq(|pieces|, k requires 0 <= k < |pieces| => if k < |pieces| - 1 then pieces[k] + "\n" else pieces[k])
  }

  /** The source a new or edited cell is given: `content` split into lines that keep their breaks. */
  function SourceLines(content: String): (s: Source)
    ensures s.Lines? && |s.lines| >= 1
  {
    Lines(Terminated(Split(content, '\n')))
  }

  /** Putting back the line breaks and concatenating is joining with line breaks. */
  lemma {:induction false} ConcatTerminated(pieces: seq<String>)
    requires |pieces| >= 1
    ensures Concat(Terminated(pieces)) == Join(pieces, "\n")
    decreases |pieces|
  {
    if |pieces| > 1 {
      var rest := pieces[1..];
      ConcatTerminated(rest);
      assert Terminated(pieces) == [pieces[0] + "\n"] + Terminated(rest);
      ConcatCons(pieces[0] + "\n", Terminated(rest));
    } else {
      assert Terminated(pieces) == [pieces[0]];
    }
  }

  /** `Concat` of a list with a head. */
  lemma ConcatCons(head: String, tail: seq<String>)
    ensures Concat([head] + tail) == head + Concat(tail)
  {
    assert ([head] + tail)[1..] == tail;
  }

  /** Reading back a cell's source gives exactly the text it was set from. */
  lemma SourceRoundTrip(content: String)
    ensures SourceText(SourceLines(content)) == content
  {
    ConcatTerminated(Split(content, '\n'));
    JoinSplit(content, '\n');
  }

  /** `_create_cell`: a code cell, fresh, or a markdown cell for any other type. */
  function CreateCell(cellType: String, content: String): (c: Cell)
    ensures cellType == "code" ==> c == Code(SourceLines(content), None, [], map[])
    ensures cellType != "code" ==> c == Markdown(SourceLines(content), map[])
    ensures SourceText(c.source) == content
  {
    SourceRoundTrip(content);
    if cellType == "code" then Code(SourceLines(content), None, [], map[])
    else Markdown(SourceLines(content), map[])
  }

  /** `_create_empty_notebook`: no cells, a Python 3 kernel, format 4.4. */
  function EmptyNotebook(): (nb: Nb)
    ensures nb.cells == []
    ensures "nbformat" in nb.fields && "nbformat_minor" in nb.fields
    ensures nb.fields["nbformat"] == Num(4) && nb.fields["nbformat_minor"] == Num(4)
  {
    Nb([], map[
      "metadata" := Obj(map[
        "kernelspec" := Obj(map["display_name" := Str("Python 3"), "language" := Str("python"), "name" := Str("python3")]),
        "language_info" := Obj(map["name" := Str("python"), "version" := Str("3.8.0")])]),
      "nbformat" := Num(4),
      "nbformat_minor" := Num(4)])
  }

  function OutOfRange(what: String, index: int, count: nat): String {
    "Error: " + what + " " + IntToString(index) + " out of range (notebook has " + NatToString(count) + " cells)"
  }

  // ---------------------------------------------------------------- edit

  /** A cell with its source replaced, everything else kept. */
  function WithSource(c: Cell, s: Source): (r: Cell)
    ensures r.source == s && CellType(r) == CellType(c)
  {
    match c
    case Code(_, n, o, m) => Code(s, n, o, m)
    case Markdown(_, m) => Markdown(s, m)
    case OtherCell(t, _) => OtherCell(t, s)
  }

  /** `_edit_notebook` */
  function EditNotebook(files: Files, path: String, index: int, content: String): (s: Step)
    ensures s.files == files || (path in files && files[path].Parsed? && 0 <= index < |files[path].nb.cells|)
  {
    if path !in files then Step("Error: Notebook file not found: " + path, files)
    else if files[path].Unparsable? then Step("Error: Invalid notebook format: " + files[path].error, files)
    else
      var nb := files[path].nb;
      if |nb.cells| == 0 then Step("Error: Notebook has no cells", files)
      else if !(0 <= index < |nb.cells|) then Step(OutOfRange("Cell index", index, |nb.cells|), files)
      else
        var prior := nb.cells[index];
        var cell := WithSource(prior, SourceLines(content));
        Step("Cell " + IntToString(index) + " edited successfully!\nType: " + CellType(prior) + "\n\nOld content:\n"
               + SourceText(prior.source) + "\n\nNew content:\n" + content,
             files[path := Parsed(nb.(cells := nb.cells[index := cell]))])
  }

  /**
   * An edit in range changes only that cell's source, to the new content
   * exactly; every other cell and every other field is kept.
   */
  lemma EditChangesOneCell(files: Files, path: String, index: int, content: String)
    requires path in files && files[path].Parsed? && 0 <= index < |files[path].nb.cells|
    ensures var s := EditNotebook(files, path, index, content);
      var nb := files[path].nb;
      s.files.Keys == files.Keys && s.files[path].Parsed?
      && (forall q :: q in files && q != path ==> s.files[q] == files[q])
      && var after := s.files[path].nb;
      after.fields == nb.fields && |after.cells| == |nb.cells|
      && (forall k :: 0 <= k < |nb.cells| && k != index ==> after.cells[k] == nb.cells[k])
      && after.cells[index] == WithSource(nb.cells[index], SourceLines(content))
      && SourceText(after.cells[index].source) == content
  {
    SourceRoundTrip(content);
  }

  // ---------------------------------------------------------------- add

  /** Where a new cell goes, or why it cannot. */
  datatype Placement = At(index: nat, location: String) | BadIndex(message: String)

  /** The placement rule of `_add_cell`, before anything is written. */
  function Place(count: nat, position: String, afterIndex: Option<int>): (p: Placement)
    ensures position == "after" && afterIndex.Some? && 0 <= afterIndex.value < count ==> p.At? && p.index == afterIndex.value + 1
    ensures position == "after" && afterIndex.Some? && !(0 <= afterIndex.value < count) ==> p.BadIndex?
    ensures !(position == "after" && afterIndex.Some?) ==> p.At? && p.index == count
  {
    if position == "after" && afterIndex.Some? then
      var i := afterIndex.value;
      if !(0 <= i < count) then BadIndex(OutOfRange("after_index", i, count))
      else At(i + 1, "after cell " + IntToString(i) + " (new index: " + NatToString(i + 1) + ")")
    else At(count, "at the end (index: " + NatToString(count) + ")")
  }

  /** `cells.insert(i, c)` */
  function Insert(cells: seq<Cell>, i: nat, c: Cell): (r: seq<Cell>)
    requires i <= |cells|
    ensures |r| == |cells| + 1 && r[i] == c
    ensures r[..i] == cells[..i] && r[i + 1..] == cells[i..]
  {
    cells[..i] + [c] + cells[i..]
  }

  /** `_add_cell`: a missing file starts as an empty notebook. */
  function AddCell(files: Files, path: String, cellType: String, content: String, position: String, afterIndex: Option<int>): (s: Step)
    ensures s.files == files || s.files.Keys == files.Keys + {path}
  {
    var nb := if path !in files then Success(EmptyNotebook())
              else if files[path].Unparsable? then Failure("Error: Invalid notebook format: " + files[path].error)
              else Success(files[path].nb);
    if nb.Failure? then Step(nb.error, files)
    else
      var cells := nb.value.cells;
      match Place(|cells|, position, afterIndex)
      case BadIndex(message) => Step(message, files)
      case At(i, location) =>
        var after := Insert(cells, i, CreateCell(cellType, content));
        Step("New " + cellType + " cell added successfully " + location + "!\nTotal cells: " + NatToString(|after|) + "\n\nContent:\n" + content,
             files[path := Parsed(nb.value.(cells := after))])
  }

  /** The cells of the notebook the add starts from, when it can start. */
  function StartCells(files: Files, path: String): Option<seq<Cell>> {
    if path !in files then Some([])
    else if files[path].Unparsable? then None
    else Some(files[path].nb.cells)
  }

  /**
   * Adding after a cell in range puts the new cell right behind it and
   * keeps every other cell in order; the list grows by one.
   */
  lemma AddAfter(files: Files, path: String, cellType: String, content: String, i: int)
    requires StartCells(files, path).Some? && 0 <= i < |StartCells(files, path).value|
    ensures var s := AddCell(files, path, cellType, content, "after", Some(i));
      var cells := StartCells(files, path).value;
      path in s.files && s.files[path].Parsed?
      && s.files[path].nb.cells == cells[..i + 1] + [CreateCell(cellType, content)] + cells[i + 1..]
  {
  }

  /** An "after" index out of range is refused and nothing is written. */
  lemma AddAfterOutOfRange(files: Files, path: String, cellType: String, content: String, i: int)
    requires StartCells(files, path).Some? && !(0 <= i < |StartCells(files, path).value|)
    ensures var s := AddCell(files, path, cellType, content, "after", Some(i));
      s.files == files && s.out == OutOfRange("after_index", i, |StartCells(files, path).value|)
  {
  }

  /** Every other placement appends, whatever the index says; a missing file becomes a one-cell notebook of format 4.4. */
  lemma AddAppends(files: Files, path: String, cellType: String, content: String, position: String, afterIndex: Option<int>)
    requires StartCells(files, path).Some? && !(position == "after" && afterIndex.Some?)
    ensures var s := AddCell(files, path, cellType, content, position, afterIndex);
      path in s.files && s.files[path].Parsed?
      && s.files[path].nb.cells == StartCells(files, path).value + [CreateCell(cellType, content)]
      && (path !in files ==> s.files[path].nb.fields == EmptyNotebook().fields)
  {
    var cells := StartCells(files, path).value;
    assert Insert(cells, |cells|, CreateCell(cellType, content)) == cells + [CreateCell(cellType, content)];
  }

  // ---------------------------------------------------------------- read

  /**
   * `_read_notebook` up to the display: `render` stands for the cell
   * formatting, and `renderAll` for the listing of every cell.
   */
  function ReadNotebook(files: Files, path: String, index: Option<int>, isNotebook: bool,
                        render: (Cell, int) -> String, renderAll: seq<Cell> -> String): (out: String)
    ensures path in files && files[path].Parsed? && isNotebook && index.Some? && 0 <= index.value < |files[path].nb.cells| ==>
      out == render(files[path].nb.cells[index.value], index.value)
  {
    if path !in files then "Error: Notebook file not found: " + path
    else if !isNotebook then "Error: File is not a Jupyter notebook: " + path
    else if files[path].Unparsable? then "Error: Invalid notebook format: " + files[path].error
    else
      var cells := files[path].nb.cells;
      if |cells| == 0 then "Notebook '" + path + "' has no cells"
      else if index.None? then renderAll(cells)
      else if 0 <= index.value < |cells| then render(cells[index.value], index.value)
      else OutOfRange("Cell index", index.value, |cells|)
  }

  // ---------------------------------------------------------------- execute

  /** `NotebookTool.execute`: the required arguments of each operation are checked first. */
  function Execute(files: Files, operation: String, path: String, cellIndex: Option<int>, cellType: Option<String>,
                   content: Option<String>, position: String, afterIndex: Option<int>, isNotebook: bool,
                   render: (Cell, int) -> String, renderAll: seq<Cell> -> String): (s: Step)
    ensures operation == "edit" && cellIndex.None? ==> s == Step("Error: cell_index is required for edit operation", files)
    ensures operation == "edit" && cellIndex.Some? && content.None? ==> s == Step("Error: content is required for edit operation", files)
    ensures operation == "add" && cellType.None? ==> s == Step("Error: cell_type is required for add operation", files)
    ensures operation == "add" && cellType.Some? && content.None? ==> s == Step("Error: content is required for add operation", files)
    ensures operation != "read" && operation != "edit" && operation != "add" ==> s == Step("Error: Unknown operation '" + operation + "'", files)
    ensures operation == "read" ==> s.files == files
  {
    if operation == "read" then Step(ReadNotebook(files, path, cellIndex, isNotebook, render, renderAll), files)
    else if operation == "edit" then
      if cellIndex.None? then Step("Error: cell_index is required for edit operation", files)
      else if content.None? then Step("Error: content is required for edit operation", files)
      else EditNotebook(files, path, cellIndex.value, content.value)
    else if operation == "add" then
      if cellType.None? then Step("Error: cell_type is required for add operation", files)
      else if content.None? then Step("Error: content is required for add operation", files)
      else AddCell(files, path, cellType.value, content.value, position, afterIndex)
    else Step("Error: Unknown operation '" + operation + "'", files)
  }
}
