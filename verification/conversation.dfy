/**
 * The data the agent exchanges with the model: JSON-like tool inputs,
 * content blocks, and role-tagged turns.
 */
module Conversation {
  import opened Text

  /** A JSON value, as the model supplies tool arguments. */
  datatype Value =
    | Null
    | Bool(b: bool)
    | Num(n: int)
    | Str(s: String)
    | Arr(items: seq<Value>)
    | Obj(fields: map<String, Value>)

  datatype Role = User | Assistant

  /**
   * One content block. `isError` on a tool result records whether the
   * `is_error` key is present: successful results carry no such key.
   */
  datatype Block =
    | TextBlock(text: String)
    | ToolUse(id: String, name: String, input: Value)
    | ToolResult(toolUseId: String, content: String, isError: bool)
    | OtherBlock(kind: String)

  datatype Turn = Turn(role: Role, content: seq<Block>)

  /** The `tool_use` blocks of a response, in order. */
  function ToolCalls(content: seq<Block>): (calls: seq<Block>)
    ensures |calls| <= |content|
    ensures forall i :: 0 <= i < |calls| ==> calls[i].ToolUse?
    ensures forall b :: b in calls <==> b in content && b.ToolUse?
    decreases |content|
  {
    if |content| == 0 then []
    else
      var rest := ToolCalls(content[1..]);
      assert forall b :: b in content <==> b == content[0] || b in content[1..];
      if content[0].ToolUse? then [content[0]] + rest else rest
  }

  /** Collecting the calls commutes with splitting a response: they keep their order. */
  lemma {:induction false} ToolCallsAppend(a: seq<Block>, b: seq<Block>)
    ensures ToolCalls(a + b) == ToolCalls(a) + ToolCalls(b)
    decreases |a|
  {
    if |a| == 0 {
      assert a + b == b;
    } else {
      assert (a + b)[0] == a[0] && (a + b)[1..] == a[1..] + b;
      ToolCallsAppend(a[1..], b);
    }
  }

  /** A single block contributes itself exactly when it is a `tool_use` block. */
  lemma ToolCallsOne(x: Block)
    ensures x.ToolUse? ==> ToolCalls([x]) == [x]
    ensures !x.ToolUse? ==> ToolCalls([x]) == []
  {
    assert [x][1..] == [];
  }

  /** A response requests tools iff one of its blocks is a `tool_use` block. */
  lemma {:induction false} ToolCallsEmpty(content: seq<Block>)
    ensures |ToolCalls(content)| == 0 <==> forall i :: 0 <= i < |content| ==> !content[i].ToolUse?
    decreases |content|
  {
    if |content| > 0 {
      ToolCallsEmpty(content[1..]);
      assert forall i :: 1 <= i < |content| ==> content[i] == content[1..][i - 1];
    }
  }

  /** The texts of the text-bearing blocks (those with a `.text` attribute), in order. */
  function Texts(content: seq<Block>): (ts: seq<String>)
    ensures |ts| <= |content|
    decreases |content|
  {
    if |content| == 0 then []
    else
      var rest := Texts(content[1..]);
      if content[0].TextBlock? then [content[0].text] + rest else rest
  }
}
