/** Prompt-size estimate of a whole request, and how it behaves as a conversation grows. */
module RequestEstimate {
  import opened Estimator

  const MESSAGE_OVERHEAD := 4.0
  const CALL_OVERHEAD := 8.0
  const IMAGE_TOKENS := 3200.0
  const FIXED_OVERHEAD := 256.0

  /** A field documented as text that may turn out not to be. */
  datatype Field = NotText | Plain(text: Text)

  datatype Block =
    | TextBlock(text: Field)
    | ReasoningBlock(text: Field)
    | ToolCall(name: Field, arguments: Field)
    | ToolResult(callId: Field, content: seq<Block>)
    | Image
    | Unknown

  /** Parameters are what JSON printing gave, or its failure. */
  datatype Tool = Tool(name: Field, description: Field, parameters: Field)

  /** Missing or malformed lists are empty ones. */
  datatype Request = Request(system: Field, messages: seq<seq<Block>>, tools: seq<Tool>)

  function FieldCost(f: Field): real {
    if f.Plain? then TextCost(f.text) else 0.0
  }

  function BlockCost(b: Block): real {
    match b
    case TextBlock(text) => FieldCost(text)
    case ReasoningBlock(text) => FieldCost(text)
    case ToolCall(name, arguments) => FieldCost(name) + FieldCost(arguments) + CALL_OVERHEAD
    case ToolResult(callId, content) => FieldCost(callId) + CALL_OVERHEAD + BlocksCost(content)
    case Image => IMAGE_TOKENS
    case Unknown => 0.0
  }

  function BlocksCost(bs: seq<Block>): real {
    if bs == [] then 0.0 else BlocksCost(bs[..|bs| - 1]) + BlockCost(bs[|bs| - 1])
  }

  function MessagesCost(ms: seq<seq<Block>>): real {
    if ms == [] then 0.0
    else MessagesCost(ms[..|ms| - 1]) + (MESSAGE_OVERHEAD + BlocksCost(ms[|ms| - 1]))
  }

  function ToolCost(t: Tool): real {
    FieldCost(t.name) + FieldCost(t.description)
    + (if t.parameters.Plain? then TextCost(t.parameters.text) else FIXED_OVERHEAD)
  }

  function ToolsCost(ts: seq<Tool>): real {
    if ts == [] then 0.0 else ToolsCost(ts[..|ts| - 1]) + ToolCost(ts[|ts| - 1])
  }

  function Ceil(r: real): int {
    -(-r).Floor
  }

  function Estimate(r: Request): int {
    Ceil(FIXED_OVERHEAD + FieldCost(r.system) + MessagesCost(r.messages) + ToolsCost(r.tools))
  }

  // ---- The accumulating code ---------------------------------------------------------------

  method FieldTokens(f: Field) returns (tokens: real)
    ensures tokens == FieldCost(f)
  {
    hide TextCost;
    if f.Plain? {
      tokens := TextTokens(f.text);
    } else {
      tokens := 0.0;
    }
  }

  method BlockTokens(b: Block) returns (tokens: real)
    ensures tokens == BlockCost(b)
    decreases b
  {
    hide FieldCost;
    match b
    case TextBlock(text) => tokens := FieldTokens(text);
    case ReasoningBlock(text) => tokens := FieldTokens(text);
    case ToolCall(name, arguments) =>
      var n := FieldTokens(name);
      var a := FieldTokens(arguments);
      tokens := n + a + CALL_OVERHEAD;
    case ToolResult(callId, content) =>
      tokens := FieldTokens(callId);
      tokens := tokens + CALL_OVERHEAD;
      for i := 0 to |content|
        invariant tokens == FieldCost(callId) + CALL_OVERHEAD + BlocksCost(content[..i])
      {
        var nested := BlockTokens(content[i]);
        assert content[..i + 1][..i] == content[..i];
        tokens := tokens + nested;
      }
      assert content[..|content|] == content;
    case Image => tokens := IMAGE_TOKENS;
    case Unknown => tokens := 0.0;
  }

  method MessageTokens(blocks: seq<Block>) returns (tokens: real)
    ensures tokens == MESSAGE_OVERHEAD + BlocksCost(blocks)
  {
    tokens := MESSAGE_OVERHEAD;
    for i := 0 to |blocks|
      invariant tokens == MESSAGE_OVERHEAD + BlocksCost(blocks[..i])
    {
      var more := BlockTokens(blocks[i]);
      assert blocks[..i + 1][..i] == blocks[..i];
      tokens := tokens + more;
    }
    assert blocks[..|blocks|] == blocks;
  }

  method EstimateRequestTokens(r: Request) returns (estimate: int)
    ensures estimate == Estimate(r)
  {
    hide BlocksCost, FieldCost, TextCost;
    var tokens := FIXED_OVERHEAD;
    var system := FieldTokens(r.system);
    tokens := tokens + system;
    for i := 0 to |r.messages|
      invariant tokens == FIXED_OVERHEAD + FieldCost(r.system) + MessagesCost(r.messages[..i])
    {
      var more := MessageTokens(r.messages[i]);
      assert r.messages[..i + 1][..i] == r.messages[..i];
      tokens := tokens + more;
    }
    assert r.messages[..|r.messages|] == r.messages;
    for i := 0 to |r.tools|
      invariant tokens == FIXED_OVERHEAD + FieldCost(r.system) + MessagesCost(r.messages) + ToolsCost(r.tools[..i])
    {
      var tool := r.tools[i];
      var name := FieldTokens(tool.name);
      var description := FieldTokens(tool.description);
      tokens := tokens + (name + description);
      if tool.parameters.Plain? {
        var parameters := TextTokens(tool.parameters.text);
        tokens := tokens + parameters;
      } else {
        tokens := tokens + FIXED_OVERHEAD;
      }
      assert r.tools[..i + 1][..i] == r.tools[..i];
    }
    assert r.tools[..|r.tools|] == r.tools;
    estimate := Ceil(tokens);
  }

  // ---- Growth ------------------------------------------------------------------------------

  /** `b` with blocks appended to it or to tool results nested in it, at any depth. */
  ghost predicate Grows(a: Block, b: Block) {
    a == b || (a.ToolResult? && b.ToolResult? && a.callId == b.callId && AllGrow(a.content, b.content))
  }

  ghost predicate AllGrow(a: seq<Block>, b: seq<Block>) {
    |a| <= |b| && forall i | 0 <= i < |a| :: Grows(a[i], b[i])
  }

  /** A later state of a conversation: old messages may have gained blocks, new ones follow. */
  ghost predicate Extends(a: Request, b: Request) {
    && a.system == b.system && a.tools == b.tools
    && |a.messages| <= |b.messages|
    && forall i | 0 <= i < |a.messages| :: AllGrow(a.messages[i], b.messages[i])
  }

  lemma {:induction false} BlockCostPositive(b: Block)
    ensures BlockCost(b) >= 0.0
  {
    hide TextCost;
    FieldsPositive(b);
    if b.ToolResult? {
      BlocksCostPositive(b.content);
    }
  }

  lemma FieldPositive(f: Field)
    ensures FieldCost(f) >= 0.0
  {
    hide TextCost;
    if f.Plain? {
      TextBounded(f.text);
    }
  }

  lemma FieldsPositive(b: Block)
    ensures b.TextBlock? || b.ReasoningBlock? ==> FieldCost(b.text) >= 0.0
    ensures b.ToolCall? ==> FieldCost(b.name) + FieldCost(b.arguments) >= 0.0
    ensures b.ToolResult? ==> FieldCost(b.callId) >= 0.0
  {
    hide FieldCost;
    match b
    case TextBlock(text) => FieldPositive(text);
    case ReasoningBlock(text) => FieldPositive(text);
    case ToolCall(name, arguments) => FieldPositive(name); FieldPositive(arguments);
    case ToolResult(callId, content) => FieldPositive(callId);
    case _ =>
  }

  lemma {:induction false} BlocksCostPositive(bs: seq<Block>)
    ensures BlocksCost(bs) >= 0.0
  {
    if bs != [] {
      BlocksCostPositive(bs[..|bs| - 1]);
      BlockCostPositive(bs[|bs| - 1]);
    }
  }

  lemma {:induction false} MessagesCostPositive(ms: seq<seq<Block>>)
    ensures MessagesCost(ms) >= 4.0 * |ms| as real
  {
    hide BlocksCost;
    if ms != [] {
      MessagesCostPositive(ms[..|ms| - 1]);
      BlocksCostPositive(ms[|ms| - 1]);
    }
  }

  lemma {:induction false} ToolsCostPositive(ts: seq<Tool>)
    ensures ToolsCost(ts) >= 0.0
  {
    hide FieldCost, TextCost;
    if ts != [] {
      ToolsCostPositive(ts[..|ts| - 1]);
      var t := ts[|ts| - 1];
      FieldPositive(t.name);
      FieldPositive(t.description);
      if t.parameters.Plain? {
        TextBounded(t.parameters.text);
      }
    }
  }

  /** Every request is charged its envelope: 256 tokens, and four for each message. */
  lemma EstimateIsPositive(r: Request)
    ensures Estimate(r) >= 256 + 4 * |r.messages|
  {
    hide FieldCost, MessagesCost, ToolsCost;
    FieldPositive(r.system);
    MessagesCostPositive(r.messages);
    ToolsCostPositive(r.tools);
    assert 4.0 * |r.messages| as real == (4 * |r.messages|) as real;
  }

  // ---- Where the tokens come from ----------------------------------------------------------

  /** All blocks of a tree, depth first, tool results without what is nested in them. */
  function Flat(bs: seq<Block>): seq<Block> {
    if bs == [] then []
    else
      (if bs[0].ToolResult? then [bs[0].(content := [])] + Flat(bs[0].content) else [bs[0]]) + Flat(bs[1..])
  }

  /** What one block costs by itself. */
  function Own(b: Block): real {
    match b
    case TextBlock(text) => FieldCost(text)
    case ReasoningBlock(text) => FieldCost(text)
    case ToolCall(name, arguments) => FieldCost(name) + FieldCost(arguments) + 8.0
    case ToolResult(callId, _) => FieldCost(callId) + 8.0
    case Image => 3200.0
    case Unknown => 0.0
  }

  function OwnAll(bs: seq<Block>): real {
    if bs == [] then 0.0 else Own(bs[0]) + OwnAll(bs[1..])
  }

  lemma {:induction false} OwnAppend(a: seq<Block>, b: seq<Block>)
    ensures OwnAll(a + b) == OwnAll(a) + OwnAll(b)
  {
    hide Own;
    if a == [] {
      assert a + b == b;
    } else {
      OwnAppend(a[1..], b);
      assert (a + b)[1..] == a[1..] + b;
    }
  }

  lemma {:induction false} BlocksFront(b: Block, bs: seq<Block>)
    ensures BlocksCost([b] + bs) == BlockCost(b) + BlocksCost(bs)
  {
    hide BlockCost;
    var all := [b] + bs;
    if bs == [] {
      assert all[..0] == [] && all[0] == b;
    } else {
      BlocksFront(b, bs[..|bs| - 1]);
      assert all[..|all| - 1] == [b] + bs[..|bs| - 1];
    }
  }

  /** Every block of a message is charged, once, however deep it sits in tool results. */
  lemma {:induction false} CostIsFlat(bs: seq<Block>)
    ensures BlocksCost(bs) == OwnAll(Flat(bs))
    decreases bs
  {
    hide FieldCost, Own;
    if bs != [] {
      var b, rest := bs[0], bs[1..];
      CostIsFlat(rest);
      assert bs == [b] + rest;
      BlocksFront(b, rest);
      OwnIs(b);
      if b.ToolResult? {
        CostIsFlat(b.content);
        OwnAppend([b.(content := [])], Flat(b.content));
        OwnAppend([b.(content := [])] + Flat(b.content), Flat(rest));
      } else {
        OwnAppend([b], Flat(rest));
      }
    }
  }

  /** The blocks of all messages, in order. */
  function AllBlocks(ms: seq<seq<Block>>): seq<Block> {
    if ms == [] then [] else AllBlocks(ms[..|ms| - 1]) + ms[|ms| - 1]
  }

  lemma {:induction false} BlocksAppend(a: seq<Block>, b: seq<Block>)
    ensures BlocksCost(a + b) == BlocksCost(a) + BlocksCost(b)
  {
    hide BlockCost;
    if b == [] {
      assert a + b == a;
    } else {
      BlocksAppend(a, b[..|b| - 1]);
      assert (a + b)[..|a + b| - 1] == a + b[..|b| - 1];
    }
  }

  lemma {:induction false} MessagesAreFlat(ms: seq<seq<Block>>)
    ensures MessagesCost(ms) == 4.0 * |ms| as real + BlocksCost(AllBlocks(ms))
  {
    hide BlocksCost;
    if ms == [] {
      NoBlocks();
    } else {
      MessagesAreFlat(ms[..|ms| - 1]);
      BlocksAppend(AllBlocks(ms[..|ms| - 1]), ms[|ms| - 1]);
    }
  }

  lemma NoBlocks()
    ensures BlocksCost([]) == 0.0
  {
  }

  /** What the tools cost: name, description and printed parameters of each, or 256 tokens for
  parameters that cannot be printed. */
  function OwnTools(ts: seq<Tool>): real {
    if ts == [] then 0.0
    else
      FieldCost(ts[0].name) + FieldCost(ts[0].description)
      + (if ts[0].parameters.Plain? then FieldCost(ts[0].parameters) else 256.0)
      + OwnTools(ts[1..])
  }

  lemma {:induction false} ToolsFront(t: Tool, ts: seq<Tool>)
    ensures ToolsCost([t] + ts) == ToolCost(t) + ToolsCost(ts)
  {
    hide ToolCost;
    var all := [t] + ts;
    if ts == [] {
      assert all[..0] == [] && all[0] == t;
    } else {
      ToolsFront(t, ts[..|ts| - 1]);
      assert all[..|all| - 1] == [t] + ts[..|ts| - 1];
    }
  }

  lemma {:induction false} ToolsAreOwn(ts: seq<Tool>)
    ensures ToolsCost(ts) == OwnTools(ts)
  {
    hide TextCost;
    if ts != [] {
      ToolsAreOwn(ts[1..]);
      ToolsFront(ts[0], ts[1..]);
      assert ts == [ts[0]] + ts[1..];
    }
  }

  /** The estimate, in full: the envelope, the system text, four tokens for each message, every
  block of every message by itself, and the tools; rounded up once at the end. */
  lemma EstimateInParts(r: Request)
    ensures var parts := 256.0 + FieldCost(r.system) + 4.0 * |r.messages| as real + OwnAll(Flat(AllBlocks(r.messages)))
                         + OwnTools(r.tools);
            parts <= Estimate(r) as real < parts + 1.0
  {
    hide FieldCost, MessagesCost, ToolsCost, BlocksCost, OwnAll, Flat, OwnTools;
    MessagesAreFlat(r.messages);
    CostIsFlat(AllBlocks(r.messages));
    ToolsAreOwn(r.tools);
  }

  lemma OwnIs(b: Block)
    ensures b.ToolResult? ==> BlockCost(b) == Own(b.(content := [])) + BlocksCost(b.content)
    ensures !b.ToolResult? ==> BlockCost(b) == Own(b)
    ensures OwnAll([b]) == Own(b) && (b.ToolResult? ==> OwnAll([b.(content := [])]) == Own(b.(content := [])))
  {
    hide FieldCost;
    assert [b][1..] == [];
  }

  lemma {:induction false} GrowthCosts(a: Block, b: Block)
    requires Grows(a, b)
    ensures BlockCost(a) <= BlockCost(b)
    decreases a
  {
    hide FieldCost;
    if a != b {
      AllGrowthCosts(a.content, b.content);
    }
  }

  lemma {:induction false} AllGrowthCosts(a: seq<Block>, b: seq<Block>)
    requires AllGrow(a, b)
    ensures BlocksCost(a) <= BlocksCost(b)
    decreases a, |b|
  {
    hide BlockCost;
    if b != [] {
      var n := |b| - 1;
      if |a| == |b| {
        AllGrowthCosts(a[..n], b[..n]);
        GrowthCosts(a[n], b[n]);
      } else {
        AllGrowthCosts(a, b[..n]);
        BlockCostPositive(b[n]);
      }
    }
  }

  lemma {:induction false} MessagesGrow(a: seq<seq<Block>>, b: seq<seq<Block>>)
    requires |a| <= |b| && forall i | 0 <= i < |a| :: AllGrow(a[i], b[i])
    ensures MessagesCost(a) + MESSAGE_OVERHEAD * (|b| - |a|) as real <= MessagesCost(b)
    decreases |b|
  {
    hide BlocksCost, AllGrow;
    if b != [] {
      var n := |b| - 1;
      if |a| == |b| {
        MessagesGrow(a[..n], b[..n]);
        AllGrowthCosts(a[n], b[n]);
      } else {
        MessagesGrow(a, b[..n]);
        BlocksCostPositive(b[n]);
      }
    }
  }

  /** Growing a conversation never lowers its estimate, and every new message adds at least four
  tokens to it. */
  lemma EstimateGrows(a: Request, b: Request)
    requires Extends(a, b)
    ensures Estimate(a) + 4 * (|b.messages| - |a.messages|) <= Estimate(b)
  {
    hide FieldCost, MessagesCost, ToolsCost, AllGrow;
    MessagesGrow(a.messages, b.messages);
    var k := |b.messages| - |a.messages|;
    assert MESSAGE_OVERHEAD * k as real == (4 * k) as real;
  }
}
