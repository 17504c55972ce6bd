/** The stateful Chat stream parser: one decoded chunk in, a list of bridge events out.

`Linear` lists what one chunk asks of the parser, in order and without looking at the parser's
state; `Run` is the state machine that answers those requests. The class below is the parser
itself, proved to do what `Run` does on `Linear`. */
module ChatParser {
  import opened Json
  import opened Usage

  datatype Event =
    | Start(responseID: string, model: string)
    | UsageReport(usage: BridgeUsage)
    | ReasoningText(text: string)
    | ContentText(text: string)
    | ToolStart(key: string, id: string, name: string)
    | ToolDelta(key: string, id: string, name: string, arguments: string)
    | StreamError(message: string)
    | Finish(stop: string)
    | Done

  datatype Op =
    | Hello(responseID: string, model: string)
    | Emit(event: Event)
    | Call(key: string, id: string, name: string, arguments: string)
    | Close(stop: string)

  datatype State = State(
    started: bool,
    tools: map<string, bool>,
    toolIDs: map<string, string>,
    toolNames: map<string, string>,
    toolOrder: seq<string>)

  datatype Trace = Trace(state: State, events: seq<Event>)

  const INITIAL := State(false, map[], map[], map[], [])

  function Lookup(m: map<string, string>, key: string): string {
    if key in m then m[key] else ""
  }

  function MergeToolName(current: string, fragment: string): string {
    if current == "" || fragment == current then fragment
    else if current <= fragment then fragment
    else current + fragment
  }

  // ---- What one chunk asks for -------------------------------------------------------------

  function ToolKey(h: Host, call: Fields): string {
    var index := AnyAt(Object(call), ["index"]);
    var key := if index != Null then index else Str(StringAt(call, ["id"]));
    if key.Str? then key.s else h.show(key)
  }

  function CallOp(h: Host, raw: Value): Op {
    var call := AsObject(raw);
    var target := MapAt(call, ["function"]);
    Call(ToolKey(h, call), StringAt(call, ["id"]), StringAt(target, ["name"]), StringAt(target, ["arguments"]))
  }

  function CallOps(h: Host, raws: seq<Value>): seq<Op> {
    if raws == [] then [] else CallOps(h, raws[..|raws| - 1]) + [CallOp(h, raws[|raws| - 1])]
  }

  function TextOps(h: Host, delta: Fields): seq<Op> {
    var reasoning := FirstString(h, [StringAt(delta, ["reasoning_content"]), StringAt(delta, ["reasoning"])]);
    var text := StringAt(delta, ["content"]);
    (if reasoning != "" then [Emit(ReasoningText(reasoning))] else [])
    + (if text != "" then [Emit(ContentText(text))] else [])
  }

  predicate IsStreamErrorFinish(h: Host, stop: string) {
    h.lower(h.trim(stop)) in ["error", "network_error", "server_error"]
  }

  function StopOps(h: Host, choice: Fields): seq<Op> {
    var stop := StringAt(choice, ["finish_reason"]);
    if stop == "" then []
    else if IsStreamErrorFinish(h, stop) then
      [Emit(StreamError(FirstString(h, [StringAt(choice, ["error", "message"]), "upstream Chat stream failed"])))]
    else [Close(stop)]
  }

  function ChoiceOp(h: Host, raw: Value): seq<Op> {
    var choice := AsObject(raw);
    var delta := MapAt(choice, ["delta"]);
    TextOps(h, delta) + CallOps(h, SliceAt(delta, ["tool_calls"])) + StopOps(h, choice)
  }

  function ChoiceOps(h: Host, raws: seq<Value>): seq<Op> {
    if raws == [] then [] else ChoiceOps(h, raws[..|raws| - 1]) + ChoiceOp(h, raws[|raws| - 1])
  }

  function HeadOps(value: Fields): seq<Op> {
    var usage := MapAt(value, ["usage"]);
    [Hello(StringAt(value, ["id"]), StringAt(value, ["model"]))]
    + (if |usage| > 0 then [Emit(UsageReport(DecodeUsage(usage)))] else [])
  }

  function Linear(h: Host, value: Fields): seq<Op> {
    HeadOps(value) + ChoiceOps(h, SliceAt(value, ["choices"]))
  }

  // ---- How the parser answers --------------------------------------------------------------

  function StartTool(s: State, key: string): Trace {
    if (key !in s.tools || !s.tools[key]) && Lookup(s.toolNames, key) != "" then
      Trace(s.(tools := s.tools[key := true]),
            [ToolStart(key, Lookup(s.toolIDs, key), Lookup(s.toolNames, key))])
    else Trace(s, [])
  }

  lemma StartKeepsOrder(s: State, key: string)
    ensures StartTool(s, key).state.toolOrder == s.toolOrder
  {
  }

  function StartTools(s: State, keys: seq<string>): Trace {
    if keys == [] then Trace(s, [])
    else
      var front := StartTools(s, keys[..|keys| - 1]);
      var last := StartTool(front.state, keys[|keys| - 1]);
      Trace(last.state, front.events + last.events)
  }

  function See(s: State, key: string, id: string, name: string): State {
    State(
      s.started,
      if key in s.tools then s.tools else s.tools[key := false],
      if id != "" then s.toolIDs[key := id] else s.toolIDs,
      if name != "" then s.toolNames[key := MergeToolName(Lookup(s.toolNames, key), name)] else s.toolNames,
      if key in s.tools then s.toolOrder else s.toolOrder + [key])
  }

  function Step(s: State, op: Op): Trace {
    match op
    case Hello(id, model) =>
      if !s.started && id != "" then Trace(s.(started := true), [Start(id, model)]) else Trace(s, [])
    case Emit(event) => Trace(s, [event])
    case Call(key, id, name, arguments) =>
      var seen := See(s, key, id, name);
      if arguments == "" then Trace(seen, [])
      else
        var t := StartTool(seen, key);
        Trace(t.state,
              t.events + [ToolDelta(key, Lookup(seen.toolIDs, key), Lookup(seen.toolNames, key), arguments)])
    case Close(stop) =>
      var t := StartTools(s, s.toolOrder);
      Trace(t.state, t.events + [Finish(stop)])
  }

  function Run(s: State, ops: seq<Op>): Trace {
    if ops == [] then Trace(s, [])
    else
      var front := Run(s, ops[..|ops| - 1]);
      var last := Step(front.state, ops[|ops| - 1]);
      Trace(last.state, front.events + last.events)
  }

  lemma RunSnoc(s: State, ops: seq<Op>, op: Op)
    ensures var front, last := Run(s, ops), Step(Run(s, ops).state, op);
            Run(s, ops + [op]) == Trace(last.state, front.events + last.events)
  {
    assert (ops + [op])[..|ops|] == ops;
  }

  lemma RunNone(s: State)
    ensures Run(s, []) == Trace(s, [])
  {
  }

  lemma {:induction false} RunAppend(s: State, a: seq<Op>, b: seq<Op>)
    ensures Run(s, a + b) == Trace(Run(Run(s, a).state, b).state,
                                   Run(s, a).events + Run(Run(s, a).state, b).events)
  {
    hide Run, Step;
    if b == [] {
      assert a + b == a;
      RunNone(Run(s, a).state);
    } else {
      var front, last := b[..|b| - 1], b[|b| - 1];
      var m := Run(s, a);
      RunAppend(s, a, front);
      assert a + b == (a + front) + [last] && b == front + [last];
      RunSnoc(s, a + front, last);
      RunSnoc(m.state, front, last);
      assert (m.events + Run(m.state, front).events) + Step(Run(m.state, front).state, last).events
          == m.events + (Run(m.state, front).events + Step(Run(m.state, front).state, last).events);
    }
  }

  lemma RunOne(s: State, op: Op)
    ensures Run(s, [op]) == Step(s, op)
  {
    RunSnoc(s, [], op);
    assert [] + [op] == [op];
  }

  lemma LinearSnoc(h: Host, value: Fields, raws: seq<Value>, i: nat)
    requires i < |raws|
    ensures HeadOps(value) + ChoiceOps(h, raws[..i + 1])
         == (HeadOps(value) + ChoiceOps(h, raws[..i])) + ChoiceOp(h, raws[i])
  {
    hide ChoiceOp, HeadOps;
    assert raws[..i + 1][..i] == raws[..i];
    assert ChoiceOps(h, raws[..i + 1]) == ChoiceOps(h, raws[..i]) + ChoiceOp(h, raws[i]);
  }

  // ---- Which fields ask for what -----------------------------------------------------------

  /** One more fragment of a tool's name: a fragment that repeats or extends what is there replaces
  it, any other is appended. */
  lemma NameFragments(current: string, fragment: string)
    ensures current <= MergeToolName(current, fragment)
    ensures current <= fragment ==> MergeToolName(current, fragment) == fragment
    ensures !(current <= fragment) ==> MergeToolName(current, fragment) == current + fragment
  {
    if current <= fragment {
      assert fragment[..|current|] == current;
    }
  }

  /** One tool call of a chunk as its sender writes it; an absent index is `Null`. */
  datatype CallText = CallText(index: Value, id: string, name: string, arguments: string)

  /** One choice; texts left empty are as good as absent. */
  datatype ChoiceText = ChoiceText(
    content: string, reasoning: string, legacyReasoning: string, calls: seq<CallText>, stop: string, failure: string)

  function CallFields(c: CallText): Fields {
    map["index" := c.index, "id" := Str(c.id),
        "function" := Object(map["name" := Str(c.name), "arguments" := Str(c.arguments)])]
  }

  function CallList(calls: seq<CallText>): seq<Value> {
    seq(|calls|, i requires 0 <= i < |calls| => Object(CallFields(calls[i])))
  }

  function DeltaFields(c: ChoiceText): Fields {
    map["content" := Str(c.content), "reasoning_content" := Str(c.reasoning), "reasoning" := Str(c.legacyReasoning),
        "tool_calls" := Array(CallList(c.calls))]
  }

  function ChoiceFields(c: ChoiceText): Fields {
    map["delta" := Object(DeltaFields(c)), "finish_reason" := Str(c.stop),
        "error" := Object(map["message" := Str(c.failure)])]
  }

  lemma Step1(o: Fields, key: string)
    ensures AnyAt(Object(o), [key]) == if key in o then o[key] else Null
  {
    assert [key][1..] == [];
    if key in o {
      assert AnyAt(Object(o), [key]) == AnyAt(o[key], []);
    }
  }

  lemma Step2(o: Fields, outer: string, inner: string)
    requires outer in o && o[outer].Object?
    ensures AnyAt(Object(o), [outer, inner]) == if inner in o[outer].fields then o[outer].fields[inner] else Null
  {
    assert [outer, inner][1..] == [inner];
    assert AnyAt(Object(o), [outer, inner]) == AnyAt(o[outer], [inner]);
    Step1(o[outer].fields, inner);
  }

  /** The key of a call: its index as text if it has one, and its id if not. */
  function KeyOf(h: Host, c: CallText): string {
    if c.index == Null then c.id else if c.index.Str? then c.index.s else h.show(c.index)
  }

  /** A call is read as it is written. */
  lemma CallIsRead(h: Host, c: CallText)
    ensures CallOp(h, Object(CallFields(c))) == Call(KeyOf(h, c), c.id, c.name, c.arguments)
  {
    hide AnyAt;
    var o := CallFields(c);
    Step1(o, "index");
    Step1(o, "id");
    Step1(o, "function");
    Step1(o["function"].fields, "name");
    Step1(o["function"].fields, "arguments");
  }

  function CallsAsked(h: Host, calls: seq<CallText>): seq<Op> {
    seq(|calls|, i requires 0 <= i < |calls| =>
      Call(KeyOf(h, calls[i]), calls[i].id, calls[i].name, calls[i].arguments))
  }

  lemma {:induction false} CallsAreRead(h: Host, calls: seq<CallText>)
    ensures CallOps(h, CallList(calls)) == CallsAsked(h, calls)
  {
    hide CallOp, CallFields;
    if calls != [] {
      var n := |calls| - 1;
      CallsAreRead(h, calls[..n]);
      CallIsRead(h, calls[n]);
      assert CallList(calls)[..n] == CallList(calls[..n]);
      assert CallsAsked(h, calls) == CallsAsked(h, calls[..n]) + [CallOp(h, Object(CallFields(calls[n])))];
    }
  }

  /** The reasoning a choice shows: the current field, trimmed, or the older one if that is blank. */
  function Shown(h: Host, c: ChoiceText): string {
    if h.trim(c.reasoning) != "" then h.trim(c.reasoning) else h.trim(c.legacyReasoning)
  }

  function Ending(h: Host, c: ChoiceText): seq<Op> {
    if c.stop == "" then []
    else if h.lower(h.trim(c.stop)) in {"error", "network_error", "server_error"} then
      [Emit(StreamError(if h.trim(c.failure) != "" then h.trim(c.failure)
                        else h.trim("upstream Chat stream failed")))]
    else [Close(c.stop)]
  }

  lemma FirstOfTwoTexts(h: Host, a: string, b: string)
    ensures FirstString(h, [a, b]) == if h.trim(a) != "" then h.trim(a) else h.trim(b)
  {
    assert [a, b][1..] == [b] && [b][1..] == [];
    assert FirstString(h, [b]) == if h.trim(b) != "" then h.trim(b) else FirstString(h, []);
  }

  /** What a choice asks for, in order: reasoning, text, calls, and the end of the stream or its
  failure. */
  function Asked(h: Host, c: ChoiceText): seq<Op> {
    (if Shown(h, c) != "" then [Emit(ReasoningText(Shown(h, c)))] else [])
    + (if c.content != "" then [Emit(ContentText(c.content))] else [])
    + CallsAsked(h, c.calls)
    + Ending(h, c)
  }

  lemma ChoiceIsRead(h: Host, c: ChoiceText)
    ensures ChoiceOp(h, Object(ChoiceFields(c))) == Asked(h, c)
  {
    DeltaIsRead(h, c);
    StopIsRead(h, c);
    CallsAreRead(h, c.calls);
    hide AnyAt, TextOps, CallOps, StopOps, CallsAsked, DeltaFields;
    Step1(ChoiceFields(c), "delta");
  }

  lemma DeltaIsRead(h: Host, c: ChoiceText)
    ensures TextOps(h, DeltaFields(c))
         == (if Shown(h, c) != "" then [Emit(ReasoningText(Shown(h, c)))] else [])
            + (if c.content != "" then [Emit(ContentText(c.content))] else [])
    ensures SliceAt(DeltaFields(c), ["tool_calls"]) == CallList(c.calls)
  {
    hide AnyAt, FirstString, CallList;
    var o := DeltaFields(c);
    Step1(o, "content");
    Step1(o, "reasoning_content");
    Step1(o, "reasoning");
    Step1(o, "tool_calls");
    FirstOfTwoTexts(h, c.reasoning, c.legacyReasoning);
  }

  lemma StopIsRead(h: Host, c: ChoiceText)
    ensures StopOps(h, ChoiceFields(c)) == Ending(h, c)
  {
    hide AnyAt, FirstString, DeltaFields;
    var o := ChoiceFields(c);
    Step1(o, "finish_reason");
    Step2(o, "error", "message");
    FirstOfTwoTexts(h, c.failure, "upstream Chat stream failed");
  }

  function ChoiceList(choices: seq<ChoiceText>): seq<Value> {
    seq(|choices|, i requires 0 <= i < |choices| => Object(ChoiceFields(choices[i])))
  }

  function ChoicesAsked(h: Host, choices: seq<ChoiceText>): seq<Op> {
    if choices == [] then []
    else ChoicesAsked(h, choices[..|choices| - 1]) + Asked(h, choices[|choices| - 1])
  }

  lemma {:induction false} ChoicesAreRead(h: Host, choices: seq<ChoiceText>)
    ensures ChoiceOps(h, ChoiceList(choices)) == ChoicesAsked(h, choices)
  {
    hide ChoiceOp, ChoiceFields, Asked;
    if choices != [] {
      var n := |choices| - 1;
      ChoicesAreRead(h, choices[..n]);
      ChoiceIsRead(h, choices[n]);
      assert ChoiceList(choices)[..n] == ChoiceList(choices[..n]);
    }
  }

  function ChunkFields(id: string, model: string, usage: Fields, choices: seq<ChoiceText>): Fields {
    map["id" := Str(id), "model" := Str(model), "usage" := Object(usage), "choices" := Array(ChoiceList(choices))]
  }

  /** A whole chunk: its id and model, its usage object if it is not empty, and its choices. */
  lemma ChunkIsRead(h: Host, id: string, model: string, usage: Fields, choices: seq<ChoiceText>)
    ensures Linear(h, ChunkFields(id, model, usage, choices))
         == [Hello(id, model)] + (if usage != map[] then [Emit(UsageReport(DecodeUsage(usage)))] else [])
            + ChoicesAsked(h, choices)
  {
    hide AnyAt, ChoiceOps, ChoicesAsked, DecodeUsage, ChoiceList;
    var o := ChunkFields(id, model, usage, choices);
    Step1(o, "id");
    Step1(o, "model");
    Step1(o, "usage");
    Step1(o, "choices");
    ChoicesAreRead(h, choices);
    assert |usage| > 0 <==> usage != map[];
  }

  // ---- The parser object -------------------------------------------------------------------

  class BridgeStreamParser {
    var started: bool
    var tools: map<string, bool>
    var toolIDs: map<string, string>
    var toolNames: map<string, string>
    var toolOrder: seq<string>

    constructor ()
      ensures Model() == INITIAL
    {
      started, tools, toolIDs, toolNames, toolOrder := false, map[], map[], map[], [];
    }

    ghost function Model(): State
      reads this
    {
      State(started, tools, toolIDs, toolNames, toolOrder)
    }

    /** Every key in the announcement order has its started flag. */
    ghost predicate Valid()
      reads this
    {
      forall key | key in toolOrder :: key in tools
    }

    /** First mention, latest id, merged name. */
    method Notice(key: string, id: string, name: string)
      requires Valid()
      modifies this
      ensures Valid() && key in tools && Model() == See(old(Model()), key, id, name)
    {
      hide MergeToolName;
      if key !in tools {
        tools := tools[key := false];
        toolOrder := toolOrder + [key];
      }
      if id != "" {
        toolIDs := toolIDs[key := id];
      }
      if name != "" {
        toolNames := toolNames[key := MergeToolName(Lookup(toolNames, key), name)];
      }
    }

    /** Starts a tool that has a name and has not been started. */
    method Announce(key: string) returns (events: seq<Event>)
      requires Valid() && key in tools
      modifies this
      ensures Valid() && Trace(Model(), events) == StartTool(old(Model()), key)
    {
      events := [];
      if !tools[key] && Lookup(toolNames, key) != "" {
        tools := tools[key := true];
        events := [ToolStart(key, Lookup(toolIDs, key), Lookup(toolNames, key))];
      }
    }

    method ParseToolCall(h: Host, raw: Value) returns (events: seq<Event>)
      requires Valid()
      modifies this
      ensures Valid() && Trace(Model(), events) == Step(old(Model()), CallOp(h, raw))
    {
      hide AnyAt, ToolKey, MapAt, StringAt, See, StartTool, Lookup;
      var call := AsObject(raw);
      var key := ToolKey(h, call);
      var target := MapAt(call, ["function"]);
      Notice(key, StringAt(call, ["id"]), StringAt(target, ["name"]));
      ghost var seen := Model();
      events := [];
      var arguments := StringAt(target, ["arguments"]);
      if arguments != "" {
        var id, name := Lookup(toolIDs, key), Lookup(toolNames, key);
        events := Announce(key);
        events := events + [ToolDelta(key, id, name, arguments)];
      }
    }

    /** The loop over toolOrder that a finish reason triggers. */
    method StartPending() returns (events: seq<Event>)
      requires Valid()
      modifies this
      ensures Valid() && Trace(Model(), events) == StartTools(old(Model()), old(toolOrder))
    {
      hide StartTool;
      events := [];
      for i := 0 to |toolOrder|
        invariant Valid() && toolOrder == old(toolOrder)
        invariant Trace(Model(), events) == StartTools(old(Model()), toolOrder[..i])
      {
        assert toolOrder[..i + 1][..i] == toolOrder[..i];
        StartKeepsOrder(Model(), toolOrder[i]);
        var more := Announce(toolOrder[i]);
        events := events + more;
      }
      assert toolOrder[..|toolOrder|] == toolOrder;
    }

    method ParseHead(value: Fields) returns (events: seq<Event>)
      requires Valid()
      modifies this
      ensures Valid() && Trace(Model(), events) == Run(old(Model()), HeadOps(value))
    {
      events := [];
      if !started {
        var id := StringAt(value, ["id"]);
        if id != "" {
          started := true;
          events := events + [Start(id, StringAt(value, ["model"]))];
        }
      }
      ghost var hello := Hello(StringAt(value, ["id"]), StringAt(value, ["model"]));
      RunOne(old(Model()), hello);
      var usage := MapAt(value, ["usage"]);
      if |usage| > 0 {
        var report := UsageReport(DecodeUsage(usage));
        events := events + [report];
        RunSnoc(old(Model()), [hello], Emit(report));
      }
    }

    method ParseText(h: Host, delta: Fields) returns (events: seq<Event>)
      ensures Trace(Model(), events) == Run(Model(), TextOps(h, delta))
    {
      events := [];
      var reasoning := FirstString(h, [StringAt(delta, ["reasoning_content"]), StringAt(delta, ["reasoning"])]);
      if reasoning != "" {
        events := events + [ReasoningText(reasoning)];
        RunOne(Model(), Emit(ReasoningText(reasoning)));
      }
      var text := StringAt(delta, ["content"]);
      if text != "" {
        RunSnoc(Model(), if reasoning != "" then [Emit(ReasoningText(reasoning))] else [], Emit(ContentText(text)));
        events := events + [ContentText(text)];
      }
    }

    method ParseCalls(h: Host, calls: seq<Value>) returns (events: seq<Event>)
      requires Valid()
      modifies this
      ensures Valid() && Trace(Model(), events) == Run(old(Model()), CallOps(h, calls))
    {
      hide Run, Step, CallOp;
      events := [];
      RunNone(Model());
      for i := 0 to |calls|
        invariant Valid()
        invariant Trace(Model(), events) == Run(old(Model()), CallOps(h, calls[..i]))
      {
        var more := ParseToolCall(h, calls[i]);
        events := events + more;
        RunSnoc(old(Model()), CallOps(h, calls[..i]), CallOp(h, calls[i]));
        assert calls[..i + 1][..i] == calls[..i];
      }
      assert calls[..|calls|] == calls;
    }

    method ParseStop(h: Host, choice: Fields) returns (events: seq<Event>)
      requires Valid()
      modifies this
      ensures Valid() && Trace(Model(), events) == Run(old(Model()), StopOps(h, choice))
    {
      events := [];
      var stop := StringAt(choice, ["finish_reason"]);
      if stop != "" {
        if IsStreamErrorFinish(h, stop) {
          var message := FirstString(h, [StringAt(choice, ["error", "message"]), "upstream Chat stream failed"]);
          events := [StreamError(message)];
          RunOne(Model(), Emit(StreamError(message)));
        } else {
          hide StartTools, Run;
          events := StartPending();
          events := events + [Finish(stop)];
          RunOne(old(Model()), Close(stop));
        }
      }
    }

    method ParseChoice(h: Host, raw: Value) returns (events: seq<Event>)
      requires Valid()
      modifies this
      ensures Valid() && Trace(Model(), events) == Run(old(Model()), ChoiceOp(h, raw))
    {
      var choice := AsObject(raw);
      var delta := MapAt(choice, ["delta"]);
      var text := ParseText(h, delta);
      var calls := ParseCalls(h, SliceAt(delta, ["tool_calls"]));
      var stop := ParseStop(h, choice);
      events := text + calls + stop;
      RunAppend(old(Model()), TextOps(h, delta), CallOps(h, SliceAt(delta, ["tool_calls"])));
      RunAppend(old(Model()), TextOps(h, delta) + CallOps(h, SliceAt(delta, ["tool_calls"])), StopOps(h, choice));
    }

    /** One decoded chunk: head, then every choice in order. */
    method ParseChat(h: Host, value: Fields) returns (events: seq<Event>)
      requires Valid()
      modifies this
      ensures Valid() && Trace(Model(), events) == Run(old(Model()), Linear(h, value))
    {
      events := ParseHead(value);
      var choices := SliceAt(value, ["choices"]);
      assert HeadOps(value) + ChoiceOps(h, choices[..0]) == HeadOps(value);
      for i := 0 to |choices|
        invariant Valid()
        invariant Trace(Model(), events) == Run(old(Model()), HeadOps(value) + ChoiceOps(h, choices[..i]))
      {
        var more := ParseChoice(h, choices[i]);
        events := events + more;
        RunAppend(old(Model()), HeadOps(value) + ChoiceOps(h, choices[..i]), ChoiceOp(h, choices[i]));
        LinearSnoc(h, value, choices, i);
      }
      assert choices[..|choices|] == choices;
    }
  }
}
