/**
 * The message history: the turns sent to the model, a running token total
 * and a ledger with one (input, output) cost per exchange. New turns are
 * appended, the oldest pairs are dropped when the context window is
 * exceeded, and the turns are formatted for the API with a cache hint.
 */
module History {
  import opened Wrappers
  import opened Text
  import opened Conversation

  /** One ledger entry: the input and output tokens attributed to an exchange. */
  datatype Cost = Cost(input: int, output: int)

  /** The usage report of a model response; absent cache fields count as 0. */
  datatype Usage = Usage(inputTokens: int, cacheReadInputTokens: int, cacheCreationInputTokens: int, outputTokens: int)

  /** What `add_message` accepts: a plain string or a list of blocks. */
  datatype Content = Plain(text: String) | Blocks(blocks: seq<Block>)

  datatype History = History(
    messages: seq<Turn>,
    totalTokens: int,
    ledger: seq<Cost>,
    contextWindow: int,
    enableCaching: bool)

  const NoticeTokens: int := 25
  const NoticeText: String := "[Earlier history has been truncated.]"
  const Notice: Turn := Turn(User, [TextBlock(NoticeText)])

  /** Everything the ledger accounts for. */
  function LedgerSum(l: seq<Cost>): int
    decreases |l|
  {
    if |l| == 0 then 0 else l[0].input + l[0].output + LedgerSum(l[1..])
  }

  /** The part of the total that no ledger entry accounts for: the system prompt estimate. */
  function Baseline(h: History): int {
    h.totalTokens - LedgerSum(h.ledger)
  }

  lemma {:induction false} LedgerSumAppend(l: seq<Cost>, c: Cost)
    ensures LedgerSum(l + [c]) == LedgerSum(l) + c.input + c.output
    decreases |l|
  {
    if |l| > 0 {
      assert (l + [c])[1..] == l[1..] + [c];
      LedgerSumAppend(l[1..], c);
    }
  }

  /** A new history whose total starts at the (opaque) estimate of the system prompt. */
  function NewHistory(contextWindow: int, enableCaching: bool, systemEstimate: int): (h: History)
    ensures h.messages == [] && h.ledger == []
    ensures Baseline(h) == systemEstimate
    ensures h.contextWindow == contextWindow && h.enableCaching == enableCaching
  {
    History([], systemEstimate, [], contextWindow, enableCaching)
  }

  /** A string becomes a single text block; a list of blocks is kept as it is. */
  function Normalise(c: Content): (bs: seq<Block>)
    ensures c.Plain? ==> |bs| == 1 && bs[0].TextBlock? && bs[0].text == c.text
    ensures c.Blocks? ==> |bs| == |c.blocks| && forall i :: 0 <= i < |bs| ==> bs[i] == c.blocks[i]
  {
    match c
    case Plain(s) => [TextBlock(s)]
    case Blocks(b) => b
  }

  /** All input the model read for a response, cached or not. */
  function TotalInput(u: Usage): int {
    u.inputTokens + u.cacheReadInputTokens + u.cacheCreationInputTokens
  }

  /**
   * `add_message`: append the turn; an assistant turn with usage also
   * charges the ledger with the input new since the last total.
   */
  function AddMessage(h: History, role: Role, content: Content, usage: Option<Usage>): (r: History)
    ensures r.messages == h.messages + [Turn(role, Normalise(content))]
    ensures r.contextWindow == h.contextWindow && r.enableCaching == h.enableCaching
    ensures !(role == Assistant && usage.Some?) ==> r.ledger == h.ledger && r.totalTokens == h.totalTokens
    ensures role == Assistant && usage.Some? ==>
              && |r.ledger| == |h.ledger| + 1
              && r.ledger[..|h.ledger|] == h.ledger
              && r.ledger[|h.ledger|].output == usage.value.outputTokens
              && r.totalTokens == TotalInput(usage.value) + usage.value.outputTokens
    ensures Baseline(r) == Baseline(h)
  {
    var turn := Turn(role, Normalise(content));
    if role == Assistant && usage.Some? then
      var u := usage.value;
      var current := TotalInput(u) - h.totalTokens;
      var c := Cost(current, u.outputTokens);
      LedgerSumAppend(h.ledger, c);
      assert (h.ledger + [c])[..|h.ledger|] == h.ledger;
      h.(messages := h.messages + [turn], ledger := h.ledger + [c], totalTokens := h.totalTokens + current + u.outputTokens)
    else
      h.(messages := h.messages + [turn])
  }

  /** The loop condition of `truncate`. */
  predicate OverWindow(h: History) {
    |h.ledger| > 0 && |h.messages| >= 2 && h.totalTokens > h.contextWindow
  }

  /**
   * `r` is `h` with the oldest `k` pairs dropped, where `k` is the number of
   * ledger entries that are gone; when at least one pair went and something
   * is left, the first turn is the notice and its ledger entry charges the
   * notice's tokens against the output it replaced.
   */
  predicate DroppedPairs(h: History, r: History) {
    var k := |h.ledger| - |r.ledger|;
    && 0 <= k
    && |r.messages| == |h.messages| - 2 * k
    && r.contextWindow == h.contextWindow && r.enableCaching == h.enableCaching
    && DroppedTurns(h, r, k, Noticed(h, r))
    && DroppedCosts(h, r, k, Noticed(h, r))
  }

  /** Whether the last truncation step left the notice in front. */
  predicate Noticed(h: History, r: History) {
    |r.ledger| < |h.ledger| && |r.messages| > 0 && |r.ledger| > 0
  }

  predicate DroppedTurns(h: History, r: History, k: nat, noticed: bool)
    requires |r.messages| == |h.messages| - 2 * k
  {
    |r.messages| > 0 ==>
      && r.messages[1..] == h.messages[2 * k + 1..]
      && r.messages[0] == (if noticed then Notice else h.messages[2 * k])
  }

  predicate DroppedCosts(h: History, r: History, k: nat, noticed: bool)
    requires |r.ledger| == |h.ledger| - k
  {
    |r.ledger| > 0 ==>
      && r.ledger[1..] == h.ledger[k + 1..]
      && r.ledger[0] == (if noticed then Cost(NoticeTokens, h.ledger[k].output) else h.ledger[k])
  }

  /** `remove_message_pair`: pop two turns and the oldest ledger entry. */
  function DropOldestPair(h: History): (r: History)
    requires |h.messages| >= 2 && |h.ledger| > 0
    ensures r.messages == h.messages[2..] && r.ledger == h.ledger[1..]
    ensures r.contextWindow == h.contextWindow && r.enableCaching == h.enableCaching
    ensures Baseline(r) == Baseline(h)
  {
    var c := h.ledger[0];
    h.(messages := h.messages[2..], ledger := h.ledger[1..], totalTokens := h.totalTokens - (c.input + c.output))
  }

  /** Put the notice in place of the first turn and charge its fixed token count instead. */
  function InstallNotice(h: History): (r: History)
    requires |h.messages| > 0 && |h.ledger| > 0
    ensures r.messages == [Notice] + h.messages[1..]
    ensures r.ledger == [Cost(NoticeTokens, h.ledger[0].output)] + h.ledger[1..]
    ensures r.contextWindow == h.contextWindow && r.enableCaching == h.enableCaching
    ensures Baseline(r) == Baseline(h)
  {
    var c := h.ledger[0];
    h.(messages := [Notice] + h.messages[1..],
       ledger := [Cost(NoticeTokens, c.output)] + h.ledger[1..],
       totalTokens := h.totalTokens + (NoticeTokens - c.input))
  }

  /** One iteration of the `truncate` loop. */
  function TruncateStep(h: History): (r: History)
    requires |h.messages| >= 2 && |h.ledger| > 0
    ensures |r.ledger| == |h.ledger| - 1
    ensures DroppedPairs(h, r)
    ensures Baseline(r) == Baseline(h)
  {
    var d := DropOldestPair(h);
    if |d.messages| > 0 && |d.ledger| > 0 then InstallNotice(d) else d
  }

  lemma DroppedNothing(h: History)
    ensures DroppedPairs(h, h)
  {
  }

  lemma {:induction false} DroppedTurnsCompose(h: History, s: History, r: History, j: nat, noticed: bool)
    requires |s.messages| == |h.messages| - 2 && |r.messages| == |s.messages| - 2 * j
    requires DroppedTurns(h, s, 1, |s.messages| > 0 && |s.ledger| > 0) && DroppedTurns(s, r, j, noticed)
    requires j == 0 ==> r.messages == s.messages
    ensures DroppedTurns(h, r, j + 1, if j > 0 then noticed else |s.messages| > 0 && |s.ledger| > 0)
  {
    if |r.messages| > 0 && j > 0 {
      assert r.messages[1..] == s.messages[2 * j + 1..];
      assert s.messages[2 * j + 1..] == s.messages[1..][2 * j..];
      assert s.messages[2 * j] == s.messages[1..][2 * j - 1];
    }
  }

  lemma {:induction false} DroppedCostsCompose(h: History, s: History, r: History, j: nat, noticed: bool)
    requires |s.ledger| == |h.ledger| - 1 && |r.ledger| == |s.ledger| - j
    requires DroppedCosts(h, s, 1, |s.messages| > 0 && |s.ledger| > 0) && DroppedCosts(s, r, j, noticed)
    requires j == 0 ==> r.ledger == s.ledger
    ensures DroppedCosts(h, r, j + 1, if j > 0 then noticed else |s.messages| > 0 && |s.ledger| > 0)
  {
    if |r.ledger| > 0 && j > 0 {
      assert r.ledger[1..] == s.ledger[j + 1..];
      assert s.ledger[j + 1..] == s.ledger[1..][j..];
      assert s.ledger[j] == s.ledger[1..][j - 1];
    }
  }

  /** Dropping pairs composes: one step followed by any number of steps. */
  lemma {:induction false} DroppedPairsCompose(h: History, s: History, r: History)
    requires |s.ledger| == |h.ledger| - 1
    requires DroppedPairs(h, s) && DroppedPairs(s, r)
    ensures DroppedPairs(h, r)
  {
    var j := |s.ledger| - |r.ledger|;
    if j == 0 && |r.messages| > 0 {
      assert r.messages == [r.messages[0]] + r.messages[1..];
    }
    if j == 0 && |r.ledger| > 0 {
      assert r.ledger == [r.ledger[0]] + r.ledger[1..];
    }
    DroppedTurnsCompose(h, s, r, j, Noticed(s, r));
    DroppedCostsCompose(h, s, r, j, Noticed(s, r));
    assert Noticed(h, r) == (if j > 0 then Noticed(s, r) else |s.messages| > 0 && |s.ledger| > 0);
  }

  /** The `while` loop of `truncate`; it ends because every step pops one ledger entry. */
  function TruncateLoop(h: History): (r: History)
    ensures !OverWindow(r)
    ensures Baseline(r) == Baseline(h)
    ensures DroppedPairs(h, r)
    ensures !OverWindow(h) ==> r == h
    decreases |h.ledger|
  {
    if OverWindow(h) then
      var s := TruncateStep(h);
      var r := TruncateLoop(s);
      DroppedPairsCompose(h, s, r);
      r
    else
      DroppedNothing(h);
      h
  }

  /**
   * `truncate`: nothing happens within the window; otherwise the oldest
   * pairs go until the total fits, the ledger runs out or fewer than two
   * turns remain.
   */
  function Truncate(h: History): (r: History)
    ensures h.totalTokens <= h.contextWindow ==> r == h
    ensures |h.ledger| == 0 ==> r == h
    ensures r.totalTokens <= r.contextWindow || |r.ledger| == 0 || |r.messages| < 2
    ensures Baseline(r) == Baseline(h)
    ensures DroppedPairs(h, r)
  {
    if h.totalTokens <= h.contextWindow then
      DroppedNothing(h);
      h
    else
      TruncateLoop(h)
  }

  /** A turn as sent to the API: every block flagged with or without an ephemeral cache hint. */
  datatype ApiBlock = ApiBlock(block: Block, ephemeral: bool)
  datatype ApiTurn = ApiTurn(role: Role, content: seq<ApiBlock>)

  /** The turns with non-empty content, in order. */
  function NonEmpty(ms: seq<Turn>): (r: seq<Turn>)
    ensures |r| <= |ms|
    ensures forall i :: 0 <= i < |r| ==> |r[i].content| > 0 && r[i] in ms
    decreases |ms|
  {
    if |ms| == 0 then []
    else
      var rest := NonEmpty(ms[1..]);
      if |ms[0].content| > 0 then [ms[0]] + rest else rest
  }

  /** Filtering distributes over concatenation, so it keeps the relative order of turns. */
  lemma {:induction false} NonEmptyAppend(a: seq<Turn>, b: seq<Turn>)
    ensures NonEmpty(a + b) == NonEmpty(a) + NonEmpty(b)
    decreases |a|
  {
    if |a| > 0 {
      assert (a + b)[0] == a[0];
      assert (a + b)[1..] == a[1..] + b;
      NonEmptyAppend(a[1..], b);
      if |a[0].content| > 0 {
        calc {
          NonEmpty(a + b);
          [a[0]] + NonEmpty(a[1..] + b);
          [a[0]] + (NonEmpty(a[1..]) + NonEmpty(b));
          ([a[0]] + NonEmpty(a[1..])) + NonEmpty(b);
        }
      }
    } else {
      assert a + b == b;
    }
  }

  /** When no turn is empty, nothing is filtered out. */
  lemma {:induction false} NonEmptyKeepsAll(ms: seq<Turn>)
    requires forall i :: 0 <= i < |ms| ==> |ms[i].content| > 0
    ensures NonEmpty(ms) == ms
    decreases |ms|
  {
    if |ms| > 0 {
      NonEmptyKeepsAll(ms[1..]);
    }
  }

  /** The turn an API turn carries, without its cache hints. */
  function Unmark(t: ApiTurn): Turn {
    Turn(t.role, seq(|t.content|, j requires 0 <= j < |t.content| => t.content[j].block))
  }

  /**
   * `format_for_api`: the non-empty turns, and the cache hint on every
   * block of the last one when caching is on and that turn is the user's.
   */
  function FormatForApi(h: History): (r: seq<ApiTurn>)
    ensures |r| == |NonEmpty(h.messages)|
    ensures forall i :: 0 <= i < |r| ==> Unmark(r[i]) == NonEmpty(h.messages)[i]
    ensures forall i, j :: 0 <= i < |r| && 0 <= j < |r[i].content| ==>
              (r[i].content[j].ephemeral <==> h.enableCaching && i == |r| - 1 && r[i].role == User)
  {
    var kept := NonEmpty(h.messages);
    seq(|kept|, i requires 0 <= i < |kept| =>
      var hint := h.enableCaching && i == |kept| - 1 && kept[i].role == User;
      ApiTurn(kept[i].role, seq(|kept[i].content|, j requires 0 <= j < |kept[i].content| => ApiBlock(kept[i].content[j], hint))))
  }

  /** `load_conversation` appends ".json" to a name that lacks it. */
  function JsonFileName(f: String): (r: String)
    ensures EndsWith(r, ".json")
    ensures EndsWith(f, ".json") ==> r == f
    ensures !EndsWith(f, ".json") ==> r == f + ".json"
  {
    if EndsWith(f, ".json") then f
    else
      var r := f + ".json";
      assert r[|r| - 5..] == ".json";
      r
  }

  lemma JsonFileNameIdempotent(f: String)
    ensures JsonFileName(JsonFileName(f)) == JsonFileName(f)
  {
  }

  /**
   * The approximate ledger of a loaded conversation: one entry per complete
   * (user, assistant) pair, each a quarter of the printed length of its turns.
   * `reprLen` stands for `len(str(message))`.
   */
  function RebuildLedger(ms: seq<Turn>, reprLen: Turn -> nat): (l: seq<Cost>)
    ensures |l| == |ms| / 2
    decreases |ms|
  {
    if |ms| < 2 then []
    else [Cost(reprLen(ms[0]) / 4, reprLen(ms[1]) / 4)] + RebuildLedger(ms[2..], reprLen)
  }

  /** Entry `k` of the rebuilt ledger prices turns `2k` and `2k + 1`. */
  lemma {:induction false} RebuildLedgerEntries(ms: seq<Turn>, reprLen: Turn -> nat)
    ensures forall k :: 0 <= k < |ms| / 2 ==>
              RebuildLedger(ms, reprLen)[k] == Cost(reprLen(ms[2 * k]) / 4, reprLen(ms[2 * k + 1]) / 4)
    decreases |ms|
  {
    if |ms| >= 2 {
      var rest := RebuildLedger(ms[2..], reprLen);
      RebuildLedgerEntries(ms[2..], reprLen);
      forall k | 1 <= k < |ms| / 2
        ensures RebuildLedger(ms, reprLen)[k] == Cost(reprLen(ms[2 * k]) / 4, reprLen(ms[2 * k + 1]) / 4)
      {
        assert RebuildLedger(ms, reprLen)[k] == rest[k - 1];
        assert ms[2..][2 * (k - 1)] == ms[2 * k];
        assert ms[2..][2 * (k - 1) + 1] == ms[2 * k + 1];
      }
    }
  }

  /** What the saved file yields: the two keys that are read, or the failure to read it. */
  datatype SavedFile =
    | FileNotFound
    | InvalidJson
    | Unreadable(reason: String)
    | Saved(messages: Option<seq<Turn>>, totalTokens: Option<int>, agentName: Option<String>, timestamp: Option<String>)

  /**
   * `load_conversation`: `file` is what reading `JsonFileName(filename)`
   * produces. On success the turns and the total are restored and the
   * ledger rebuilt; a file that cannot be read or parsed leaves the history
   * untouched.
   */
  function LoadConversation(h: History, filename: String, file: SavedFile, reprLen: Turn -> nat): (r: (History, String))
    ensures !file.Saved? ==> r.0 == h
    ensures file.FileNotFound? ==> r.1 == "Error: File '" + JsonFileName(filename) + "' not found"
    ensures file.InvalidJson? ==> r.1 == "Error: Invalid JSON in file '" + JsonFileName(filename) + "'"
    ensures file.Saved? ==>
              && r.0.messages == file.messages.GetOr([])
              && r.0.totalTokens == file.totalTokens.GetOr(0)
              && |r.0.ledger| == |r.0.messages| / 2
              && r.0.contextWindow == h.contextWindow && r.0.enableCaching == h.enableCaching
              && StartsWith(r.1, "Loaded conversation from " + JsonFileName(filename))
  {
    var f := JsonFileName(filename);
    match file
    case FileNotFound => (h, "Error: File '" + f + "' not found")
    case InvalidJson => (h, "Error: Invalid JSON in file '" + f + "'")
    case Unreadable(e) => (h, "Error loading conversation: " + e)
    case Saved(ms, total, agent, stamp) =>
      var messages := ms.GetOr([]);
      var tokens := total.GetOr(0);
      var r := h.(messages := messages, totalTokens := tokens, ledger := RebuildLedger(messages, reprLen));
      var head := "Loaded conversation from " + f;
      var info := Join([head,
                        "  Original agent: " + agent.GetOr("Unknown"),
                        "  Timestamp: " + stamp.GetOr("Unknown"),
                        "  Messages: " + IntToString(|messages|),
                        "  Total tokens: " + IntToString(tokens)], "\n");
      JoinStartsWithFirst([head,
                        "  Original agent: " + agent.GetOr("Unknown"),
                        "  Timestamp: " + stamp.GetOr("Unknown"),
                        "  Messages: " + IntToString(|messages|),
                        "  Total tokens: " + IntToString(tokens)], "\n");
      (r, info)
  }
}
