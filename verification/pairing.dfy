/**
 * Tool pairing in the message history: every assistant turn that asks for
 * tools is followed by a user turn answering each call by id, and every
 * user turn carrying tool results follows the request it answers. The
 * loop keeps this from the second turn on. Truncation keeps it for the
 * first turn too, unless it drops every pair: the one turn left is then
 * the last user turn, and a results turn left that way has lost the
 * request it answers.
 */
module Pairing {
  import opened Wrappers
  import opened Text
  import opened Conversation
  import opened History
  import opened Dispatch
  import opened Registry
  import opened AgentLoop

  /** An assistant turn that asks for at least one tool. */
  predicate Pending(t: Turn) {
    t.role == Assistant && |ToolCalls(t.content)| > 0
  }

  /** A user turn with at least one tool result in it. */
  predicate CarriesResults(t: Turn) {
    t.role == User && exists j :: 0 <= j < |t.content| && t.content[j].ToolResult?
  }

  /** `u` answers the calls of `t`: one result per call, in call order, each naming its call's id. */
  predicate Answers(t: Turn, u: Turn) {
    var calls := ToolCalls(t.content);
    && u.role == User
    && |u.content| == |calls|
    && forall i :: 0 <= i < |calls| ==> u.content[i].ToolResult? && u.content[i].toolUseId == calls[i].id
  }

  /**
   * Every request is answered by the next turn, and every results turn from
   * position `lo` on follows the request it answers.
   */
  predicate PairedFrom(ms: seq<Turn>, lo: nat) {
    && (forall i :: 0 <= i < |ms| && Pending(ms[i]) ==> i + 1 < |ms| && Answers(ms[i], ms[i + 1]))
    && (forall i :: lo <= i < |ms| && CarriesResults(ms[i]) ==> 0 < i && Pending(ms[i - 1]) && Answers(ms[i - 1], ms[i]))
  }

  /** Pairing throughout, the first turn included: what the API accepts. */
  predicate Paired(ms: seq<Turn>) {
    PairedFrom(ms, 0)
  }

  /** A turn that neither asks for tools nor carries results keeps pairing when appended. */
  lemma PairedSnoc(ms: seq<Turn>, lo: nat, t: Turn)
    requires PairedFrom(ms, lo) && !Pending(t) && !CarriesResults(t)
    ensures PairedFrom(ms + [t], lo)
  {
    var r := ms + [t];
    forall i | 0 <= i < |ms|
      ensures r[i] == ms[i]
    {
    }
  }

  /** An assistant turn followed by the turn answering it keeps pairing when appended. */
  lemma PairedSnocRound(ms: seq<Turn>, lo: nat, t: Turn, u: Turn)
    requires PairedFrom(ms, lo) && t.role == Assistant && Answers(t, u)
    ensures PairedFrom(ms + [t, u], lo)
  {
    var r := ms + [t, u];
    var n := |ms|;
    assert r[n] == t && r[n + 1] == u;
    forall i | 0 <= i < n
      ensures r[i] == ms[i]
    {
    }
    if !Pending(t) {
      assert |u.content| == 0;
      assert !CarriesResults(u);
    }
    forall i | 0 <= i < |r| && Pending(r[i])
      ensures i + 1 < |r| && Answers(r[i], r[i + 1])
    {
      if i < n {
        assert Pending(ms[i]);
      }
    }
    forall i | lo <= i < |r| && CarriesResults(r[i])
      ensures 0 < i && Pending(r[i - 1]) && Answers(r[i - 1], r[i])
    {
      if i < n {
        assert CarriesResults(ms[i]);
      }
    }
  }

  /** The notice carries no results and asks for nothing. */
  lemma NoticeIsPlain()
    ensures !Pending(Notice) && !CarriesResults(Notice)
  {
    assert Notice.content[0].TextBlock?;
  }

  /**
   * Dropping whole pairs from a history awaiting a reply keeps pairing from
   * the second turn on, and on the first turn too unless every pair went;
   * then the one turn left is the last user turn.
   */
  lemma DroppedKeepsPaired(h: History, r: History)
    requires AwaitingReply(h) && DroppedPairs(h, r) && PairedFrom(h.messages, 1)
    ensures PairedFrom(r.messages, 1)
    ensures Paired(h.messages) && (|r.ledger| > 0 || |h.ledger| == 0) ==> Paired(r.messages)
    ensures |r.ledger| == 0 && |h.ledger| > 0 ==> r.messages == [h.messages[|h.messages| - 1]]
  {
    var k := |h.ledger| - |r.ledger|;
    DroppedKeepsAwaiting(h, r);
    if k == 0 {
      if |r.messages| > 0 {
        assert r.messages == [r.messages[0]] + r.messages[1..];
        assert h.messages == [h.messages[0]] + h.messages[1..];
      }
      assert r.messages == h.messages;
    } else if Noticed(h, r) {
      NoticedKeepsPaired(h, r);
    } else if |r.messages| > 0 {
      assert r.messages == [r.messages[0]];
      RoleAtPairs(k);
    }
  }

  /** With the notice in front, the turns after it are the kept pairs, so pairing holds throughout. */
  lemma NoticedKeepsPaired(h: History, r: History)
    requires AwaitingReply(h) && DroppedPairs(h, r) && PairedFrom(h.messages, 1)
    requires |r.ledger| < |h.ledger| && Noticed(h, r)
    ensures Paired(r.messages)
  {
    var k := |h.ledger| - |r.ledger|;
    NoticeIsPlain();
    var ms := r.messages;
    assert ms[0] == Notice;
    forall i | 1 <= i < |ms|
      ensures ms[i] == h.messages[2 * k + i]
    {
      assert ms[i] == ms[1..][i - 1];
    }
    forall i | 0 <= i < |ms| && Pending(ms[i])
      ensures i + 1 < |ms| && Answers(ms[i], ms[i + 1])
    {
      assert Pending(h.messages[2 * k + i]);
    }
    forall i | 0 <= i < |ms| && CarriesResults(ms[i])
      ensures 0 < i && Pending(ms[i - 1]) && Answers(ms[i - 1], ms[i])
    {
      assert CarriesResults(h.messages[2 * k + i]);
      RoleAtShift(1, k);
      if i == 1 {
        assert false;
      }
    }
  }

  /** `truncate` on a history awaiting a reply, through the pairs it drops. */
  lemma TruncateKeepsPaired(h: History)
    requires AwaitingReply(h) && PairedFrom(h.messages, 1)
    ensures PairedFrom(Truncate(h).messages, 1)
    ensures Paired(h.messages) && (|Truncate(h).ledger| > 0 || |h.ledger| == 0) ==> Paired(Truncate(h).messages)
    ensures |Truncate(h).ledger| == 0 && |h.ledger| > 0 ==> Truncate(h).messages == [h.messages[|h.messages| - 1]]
  {
    DroppedKeepsPaired(h, Truncate(h));
  }

  /** The results turn of the example below: one result for the call "t1". */
  const OrphanResults: Turn := Turn(User, [ToolResult("t1", "ok", false)])

  /**
   * An input, one tool request and its results; the pair cost 150 tokens
   * over a baseline of 50, against a window of 100.
   */
  const OrphanCase: History :=
    History([Turn(User, [TextBlock("go")]), Turn(Assistant, [ToolUse("t1", "bash", Null)]), OrphanResults],
            200, [Cost(100, 50)], 100, false)

  /**
   * The example's one pair already exceeds the window: truncation drops it
   * and keeps the results turn alone, answering a call that is no longer in
   * the history.
   */
  lemma TruncateCanOrphanResults()
    ensures AwaitingReply(OrphanCase) && Paired(OrphanCase.messages)
    ensures Truncate(OrphanCase).messages == [OrphanResults]
    ensures !Paired(Truncate(OrphanCase).messages)
  {
    OrphanCasePaired();
    OrphanCaseTruncates();
    assert CarriesResults(OrphanResults) by {
      assert OrphanResults.content[0].ToolResult?;
    }
    assert !PairedFrom([OrphanResults], 0);
  }

  lemma OrphanCasePaired()
    ensures AwaitingReply(OrphanCase) && Paired(OrphanCase.messages)
  {
    var ms := OrphanCase.messages;
    ToolCallsOne(ToolUse("t1", "bash", Null));
    ToolCallsOne(TextBlock("go"));
    ToolCallsOne(ToolResult("t1", "ok", false));
    assert !CarriesResults(ms[0]) by {
      assert ms[0].content[0].TextBlock?;
    }
    assert !Pending(ms[0]) && Pending(ms[1]) && !Pending(ms[2]);
    assert Answers(ms[1], ms[2]);
  }

  lemma OrphanCaseTruncates()
    ensures Truncate(OrphanCase).messages == [OrphanResults]
  {
    var h := OrphanCase;
    assert h.messages[2..] == [OrphanResults];
    var s := TruncateStep(h);
    assert s.messages == [OrphanResults] && s.ledger == [];
    assert TruncateLoop(s) == s;
  }

  /** A continuing step keeps pairing from the second turn on. */
  ghost predicate KeepsPaired<T(!new)>(step: (Agent<T>, Response) -> Agent<T>) {
    forall b: Agent<T>, response: Response ::
      AwaitingReply(b.history) && PairedFrom(b.history.messages, 1) && AsksTools(response) ==>
        PairedFrom(step(b, response).history.messages, 1)
  }

  /** A tool round appends the request and a results turn answering every call of it, by id and in order. */
  lemma RoundKeepsPaired<T(!new)>(table: map<String, T>, env: Env<T>)
    ensures KeepsPaired(RoundStep(table, env))
  {
    forall b: Agent<T>, response: Response | AwaitingReply(b.history) && PairedFrom(b.history.messages, 1) && AsksTools(response)
      ensures PairedFrom(RoundStep(table, env)(b, response).history.messages, 1)
    {
      RoundPaired(b, table, env, response);
    }
  }

  /** One tool round keeps pairing: the recorded request is followed by the turn answering it. */
  lemma RoundPaired<T>(b: Agent<T>, table: map<String, T>, env: Env<T>, response: Response)
    requires AwaitingReply(b.history) && PairedFrom(b.history.messages, 1)
    ensures PairedFrom(Round(b, table, env, response).history.messages, 1)
  {
    TruncateKeepsPaired(b.history);
    var u := RoundTurns(b, table, env, response);
    PairedSnocRound(Truncate(b.history).messages, 1, Turn(Assistant, response.content), u);
  }

  /** A tool round appends to the truncated history the request and a turn answering every call of it. */
  lemma RoundTurns<T>(b: Agent<T>, table: map<String, T>, env: Env<T>, response: Response) returns (u: Turn)
    ensures Round(b, table, env, response).history.messages == Truncate(b.history).messages + [Turn(Assistant, response.content), u]
    ensures Answers(Turn(Assistant, response.content), u)
  {
    var c := Answer(b.(history := Truncate(b.history)), response);
    var calls := ToolCalls(response.content);
    var d := ToolRound(c, table, env, calls);
    var n := |c.history.messages|;
    u := d.history.messages[n];
    assert d.history.messages == d.history.messages[..n] + [u];
  }

  /** Every history in `sent` keeps pairing from the second turn on. */
  predicate AllPairedFrom(sent: seq<History>) {
    forall i :: 0 <= i < |sent| ==> PairedFrom(sent[i].messages, 1)
  }

  lemma AllPairedFromCons(h: History, rest: seq<History>)
    requires PairedFrom(h.messages, 1) && AllPairedFrom(rest)
    ensures AllPairedFrom([h] + rest)
  {
    forall i | 0 <= i < |[h] + rest|
      ensures PairedFrom(([h] + rest)[i].messages, 1)
    {
      if i > 0 {
        assert ([h] + rest)[i] == rest[i - 1];
      }
    }
  }

  /** Every request a loop sends, and the history it leaves, keep pairing from the second turn on. */
  lemma {:induction false} LoopPaired<T(!new)>(a: Agent<T>, step: (Agent<T>, Response) -> Agent<T>, rounds: nat, script: seq<Response>)
    requires KeepsAwaiting(step) && KeepsPaired(step)
    requires AwaitingReply(a.history) && PairedFrom(a.history.messages, 1)
    ensures PairedFrom(Loop(a, step, rounds, script).agent.history.messages, 1)
    ensures AllPairedFrom(Loop(a, step, rounds, script).sent)
    decreases |script|
  {
    if BudgetSpent(a.maxRounds, rounds) {
    } else if |script| == 0 {
      TruncateKeepsPaired(a.history);
    } else if !AsksTools(script[0]) {
      TruncateKeepsPaired(a.history);
      PairedSnoc(Truncate(a.history).messages, 1, Turn(Assistant, script[0].content));
    } else {
      TruncateKeepsPaired(a.history);
      LoopPairedStep(a, step, rounds, script);
    }
  }

  /** The continuing case of `LoopPaired`: the first request, then the rest of the loop. */
  lemma {:induction false} LoopPairedStep<T(!new)>(a: Agent<T>, step: (Agent<T>, Response) -> Agent<T>, rounds: nat, script: seq<Response>)
    requires KeepsAwaiting(step) && KeepsPaired(step)
    requires AwaitingReply(a.history) && PairedFrom(a.history.messages, 1)
    requires !BudgetSpent(a.maxRounds, rounds) && |script| > 0 && AsksTools(script[0])
    requires PairedFrom(Truncate(a.history).messages, 1)
    ensures PairedFrom(Loop(a, step, rounds, script).agent.history.messages, 1)
    ensures AllPairedFrom(Loop(a, step, rounds, script).sent)
    decreases |script|, 0
  {
    var b := step(a, script[0]);
    assert AwaitingReply(b.history) && PairedFrom(b.history.messages, 1);
    var rest := Loop(b, step, rounds + 1, script[1..]);
    LoopPaired(b, step, rounds + 1, script[1..]);
    assert Loop(a, step, rounds, script) == Continued(rest, Truncate(a.history));
    AllPairedFromCons(Truncate(a.history), rest.sent);
  }

  /**
   * A run over a history that keeps pairing from the second turn on sends
   * only such histories and leaves one.
   */
  lemma RunPaired<T(!new)>(a: Agent<T>, input: String, env: Env<T>, script: seq<Response>)
    requires Aligned(a.history) && PairedFrom(a.history.messages, 1)
    ensures PairedFrom(Run(a, input, env, script).agent.history.messages, 1)
    ensures forall i :: 0 <= i < |Run(a, input, env, script).sent| ==> PairedFrom(Run(a, input, env, script).sent[i].messages, 1)
  {
    var table := BuildTable(a.tools, env.nameOf);
    AddUserAwaits(a.history, Plain(input));
    assert !CarriesResults(Turn(User, [TextBlock(input)])) by {
      assert Turn(User, [TextBlock(input)]).content[0].TextBlock?;
    }
    PairedSnoc(a.history.messages, 1, Turn(User, [TextBlock(input)]));
    RoundKeepsAwaiting(table, env);
    RoundKeepsPaired(table, env);
    LoopPaired(Started(a, input), RoundStep(table, env), 0, script);
  }
}
